/**
 * `strconv.ParseUint(s, 10, 64)`, the id parse of the comment handlers, and
 * its inverse `strconv.FormatUint(n, 10)`.
 *
 * With base 10 and bit size 64, ParseUint accepts exactly the non-empty
 * strings of ASCII decimal digits (no sign, no underscore, leading zeros
 * allowed) whose value fits in 64 bits. It scans left to right, so a run
 * of leading digits that overflows is reported as a range error even when
 * a non-digit follows it.
 */
module Strconv {
  import opened Wrappers

  const MaxUint64: nat := 0xFFFF_FFFF_FFFF_FFFF

  /** The two failures of a *strconv.NumError: ErrSyntax and ErrRange. */
  datatype NumErrorKind = ErrSyntax | ErrRange

  predicate IsDigit(c: char) { '0' <= c <= '9' }

  function DigitValue(c: char): (d: nat)
    requires IsDigit(c)
    ensures d < 10
  {
    c as int - '0' as int
  }

  function DigitChar(d: nat): (c: char)
    requires d < 10
    ensures IsDigit(c) && DigitValue(c) == d
  {
    ('0' as int + d) as char
  }

  predicate AllDigits(s: string)
  {
    forall i :: 0 <= i < |s| ==> IsDigit(s[i])
  }

  /** The number a string of decimal digits denotes, most significant first. */
  function DigitsValue(s: string): nat
    requires AllDigits(s)
  {
    if s == [] then 0 else DigitsValue(s[..|s| - 1]) * 10 + DigitValue(s[|s| - 1])
  }

  /** The length of the run of decimal digits at the start of `s`. */
  function LeadingDigits(s: string): (n: nat)
    ensures n <= |s|
    ensures AllDigits(s[..n])
    ensures n < |s| ==> !IsDigit(s[n])
  {
    if s == [] || !IsDigit(s[0]) then 0
    else
      var m := LeadingDigits(s[1..]);
      assert s[..m + 1] == [s[0]] + s[1..][..m];
      m + 1
  }

  /**
   * What ParseUint(s, 10, 64) returns, stated on the whole string: empty
   * input is a syntax error; an overflowing leading digit run is a range
   * error; any other non-digit is a syntax error; otherwise the value.
   */
  function ParseUintSpec(s: string): (r: Result<nat, NumErrorKind>)
    ensures s == [] ==> r == Err(ErrSyntax)
    ensures r.Ok? ==> AllDigits(s) && r.value == DigitsValue(s) && r.value <= MaxUint64
  {
    var n := LeadingDigits(s);
    assert s[..|s|] == s;
    if s == [] then Err(ErrSyntax)
    else if DigitsValue(s[..n]) > MaxUint64 then Err(ErrRange)
    else if n < |s| then Err(ErrSyntax)
    else Ok(DigitsValue(s[..n]))
  }

  /** The base-10 scan of ParseUint, one character at a time. */
  method ParseUint(s: string) returns (r: Result<nat, NumErrorKind>)
    ensures r == ParseUintSpec(s)
    ensures r.Ok? ==> r.value <= MaxUint64
  {
    if |s| == 0 {
      return Err(ErrSyntax);
    }
    var n: nat := 0;
    var i := 0;
    while i < |s|
      invariant 0 <= i <= |s|
      invariant AllDigits(s[..i])
      invariant n == DigitsValue(s[..i]) && n <= MaxUint64
    {
      if !IsDigit(s[i]) {
        LeadingDigitsAt(s, i);
        return Err(ErrSyntax);
      }
      var n1 := n * 10 + DigitValue(s[i]);
      assert s[..i + 1][..i] == s[..i];
      if n1 > MaxUint64 {
        LeadingDigitsAtLeast(s, i + 1);
        DigitsValueMonotone(s, i + 1, LeadingDigits(s));
        return Err(ErrRange);
      }
      n := n1;
      i := i + 1;
    }
    LeadingDigitsAt(s, i);
    return Ok(n);
  }

  /** A digit run that stops at `i` is the leading run. */
  lemma {:induction false} LeadingDigitsAt(s: string, i: nat)
    requires i <= |s| && AllDigits(s[..i])
    requires i < |s| ==> !IsDigit(s[i])
    ensures LeadingDigits(s) == i
  {
    if i > 0 {
      assert IsDigit(s[..i][0]);
      assert s[1..][..i - 1] == s[..i][1..];
      LeadingDigitsAt(s[1..], i - 1);
    }
  }

  /** A digit prefix of length `i` lies inside the leading run. */
  lemma {:induction false} LeadingDigitsAtLeast(s: string, i: nat)
    requires i <= |s| && AllDigits(s[..i])
    ensures LeadingDigits(s) >= i
  {
    if i > 0 {
      assert IsDigit(s[..i][0]);
      assert s[1..][..i - 1] == s[..i][1..];
      LeadingDigitsAtLeast(s[1..], i - 1);
    }
  }

  /** Appending digits never decreases the value. */
  lemma {:induction false} DigitsValueMonotone(s: string, j: nat, k: nat)
    requires j <= k <= |s| && AllDigits(s[..k])
    ensures AllDigits(s[..j]) && DigitsValue(s[..j]) <= DigitsValue(s[..k])
  {
    assert forall i :: 0 <= i < j ==> s[..j][i] == s[..k][i];
    if j < k {
      assert s[..k][..k - 1] == s[..k - 1];
      DigitsValueMonotone(s, j, k - 1);
    }
  }

  /**
   * ParseUint succeeds exactly on non-empty all-digit strings whose value
   * is at most 2^64 - 1, and then yields that value.
   */
  lemma ParseUintAccepts(s: string)
    ensures ParseUintSpec(s).Ok? <==> |s| > 0 && AllDigits(s) && DigitsValue(s) <= MaxUint64
    ensures ParseUintSpec(s).Ok? ==> AllDigits(s) && ParseUintSpec(s).value == DigitsValue(s)
  {
    assert s[..|s|] == s;
    if AllDigits(s) {
      LeadingDigitsAt(s, |s|);
    }
  }

  /** A string with a character that is not a decimal digit is rejected. */
  lemma ParseUintRejectsNonDigit(s: string, i: nat)
    requires i < |s| && !IsDigit(s[i])
    ensures ParseUintSpec(s).Err?
  {
    ParseUintAccepts(s);
  }

  /** An all-digit string above 2^64 - 1 is a range error, not a syntax error. */
  lemma ParseUintOverflow(s: string)
    requires |s| > 0 && AllDigits(s) && DigitsValue(s) > MaxUint64
    ensures ParseUintSpec(s) == Err(ErrRange)
  {
    assert s[..|s|] == s;
    LeadingDigitsAt(s, |s|);
  }

  /** `strconv.FormatUint(n, 10)`: the shortest decimal rendering of `n`. */
  function FormatUint(n: nat): (s: string)
    ensures |s| > 0 && AllDigits(s)
    ensures |s| > 1 ==> s[0] != '0'
  {
    if n < 10 then [DigitChar(n)]
    else
      var p := FormatUint(n / 10);
      assert (p + [DigitChar(n % 10)])[0] == p[0];
      p + [DigitChar(n % 10)]
  }

  /** The decimal rendering of `n` denotes `n`. */
  lemma {:induction false} FormatUintValue(n: nat)
    ensures DigitsValue(FormatUint(n)) == n
  {
    if n >= 10 {
      var s := FormatUint(n);
      assert s[..|s| - 1] == FormatUint(n / 10);
      FormatUintValue(n / 10);
    }
  }

  /** Rendering an id in decimal and parsing it back yields the id. */
  lemma ParseFormatRoundTrip(n: nat)
    requires n <= MaxUint64
    ensures ParseUintSpec(FormatUint(n)) == Ok(n)
  {
    FormatUintValue(n);
    ParseUintAccepts(FormatUint(n));
  }

  /** A digit string without a leading zero has a positive value. */
  lemma {:induction false} NoLeadingZeroPositive(s: string)
    requires |s| > 0 && AllDigits(s) && s[0] != '0'
    ensures DigitsValue(s) > 0
  {
    if |s| > 1 {
      NoLeadingZeroPositive(s[..|s| - 1]);
    }
  }

  /**
   * An accepted id written without leading zeros is the decimal rendering
   * of its value; the parse loses only leading zeros.
   */
  lemma {:induction false} FormatParsedCanonical(s: string)
    requires ParseUintSpec(s).Ok?
    requires |s| == 1 || s[0] != '0'
    ensures FormatUint(ParseUintSpec(s).value) == s
  {
    ParseUintAccepts(s);
    FormatDigitsValue(s);
  }

  lemma {:induction false} FormatDigitsValue(s: string)
    requires |s| > 0 && AllDigits(s)
    requires |s| == 1 || s[0] != '0'
    ensures FormatUint(DigitsValue(s)) == s
  {
    if |s| > 1 {
      var p := s[..|s| - 1];
      NoLeadingZeroPositive(p);
      FormatDigitsValue(p);
      var v := DigitsValue(s);
      assert v / 10 == DigitsValue(p) && v % 10 == DigitValue(s[|s| - 1]);
      assert DigitChar(DigitValue(s[|s| - 1])) == s[|s| - 1];
      assert p + [s[|s| - 1]] == s;
    } else {
      assert DigitChar(DigitValue(s[0])) == s[0];
    }
  }
}
