/**
 * The decisions of the two authentication interceptors: whether the wrapped
 * handler runs or the request is refused with the "unauthorized" error.
 */
module Interceptors {
  import opened Wrappers
  import opened GoStrings
  import opened Jwt
  import opened Api

  const UnauthorizedMessage := "unauthorized"
  const BasicUser := "admin"
  const BasicPassword := "password"

  /**
   * What an interceptor does with a request: hand it to the wrapped handler,
   * refuse it, or panic (indexing an empty, non-nil header slice).
   */
  datatype Verdict = Proceed | Refuse | IndexPanic

  /** BasicAuthInterceptor: only the well-formed pair admin / password gets through. */
  function BasicAuthVerdict(c: BasicCredentials): (v: Verdict)
    ensures v != IndexPanic
    ensures v == Proceed <==> c.ok && c.user == BasicUser && c.pass == BasicPassword
  {
    if c.user == BasicUser && c.pass == BasicPassword && c.ok then Proceed else Refuse
  }

  /**
   * The header values the bearer check lets through, stated without
   * splitting: a six-letter scheme equal to "bearer" up to case, one space,
   * and a token that contains no further space.
   */
  predicate BearerShaped(h: string)
  {
    |h| > 6 && ToLower(h[..6]) == "bearer" && h[6] == ' ' && ' ' !in h[7..]
  }

  /** The token part of a bearer-shaped header value. */
  function TokenOf(h: string): string
    requires |h| > 6
  {
    h[7..]
  }

  /**
   * JwtAuthInterceptor's decision on `r.Header["Authorization"]`: nil is
   * refused; otherwise only the first value is split on " " and must give
   * exactly two parts, the first "bearer" in any case, the second a valid
   * token.
   */
  function JwtVerdict(authHeader: Option<seq<string>>, parse: string -> ParsedToken): (v: Verdict)
    ensures v == IndexPanic <==> authHeader == Some([])
    ensures v == Proceed <==>
      && authHeader.Some? && |authHeader.value| > 0
      && BearerShaped(authHeader.value[0])
      && ValidateToken(TokenOf(authHeader.value[0]), parse)
  {
    match authHeader
    case None => Refuse
    case Some(values) =>
      if |values| == 0 then IndexPanic
      else
        var parts := Split(values[0], ' ');
        BearerSplit(values[0]);
        if |parts| != 2 || ToLower(parts[0]) != "bearer" then Refuse
        else if ValidateToken(parts[1], parse) then Proceed
        else Refuse
  }

  /**
   * Splitting on " " gives two parts with a "bearer" scheme exactly when the
   * value is bearer-shaped, and the second part is then the token.
   */
  lemma BearerSplit(h: string)
    ensures (|Split(h, ' ')| == 2 && ToLower(Split(h, ' ')[0]) == "bearer") <==> BearerShaped(h)
    ensures BearerShaped(h) ==> Split(h, ' ')[1] == TokenOf(h)
  {
    var parts := Split(h, ' ');
    if |parts| == 2 && ToLower(parts[0]) == "bearer" {
      JoinSplit(h, ' ');
      assert h == parts[0] + [' '] + parts[1];
      assert |parts[0]| == 6;
      assert h[..6] == parts[0];
      assert h[7..] == parts[1];
    }
    if BearerShaped(h) {
      var scheme := h[..6];
      assert forall i :: 0 <= i < 6 ==> LowerChar(scheme[i]) == "bearer"[i];
      assert ' ' !in scheme;
      assert h == scheme + [' '] + h[7..];
      SplitAtFirstSeparator(scheme, h[7..], ' ');
      SplitWithoutSeparator(h[7..], ' ');
    }
  }

  /** A nil Authorization header is refused whatever the token parser would say. */
  lemma JwtMissingHeader(parse: string -> ParsedToken)
    ensures JwtVerdict(None, parse) == Refuse
  {
  }

  /** Only the first Authorization value is looked at. */
  lemma JwtFirstValueOnly(h: string, rest: seq<string>, parse: string -> ParsedToken)
    ensures JwtVerdict(Some([h] + rest), parse) == JwtVerdict(Some([h]), parse)
  {
  }

  /**
   * A value whose space count is not one (no space, or a doubled space) does
   * not split into two parts and is refused.
   */
  lemma JwtNeedsExactlyOneSpace(h: string, rest: seq<string>, parse: string -> ParsedToken)
    requires Count(h, ' ') != 1
    ensures JwtVerdict(Some([h] + rest), parse) == Refuse
  {
    SplitCount(h, ' ');
  }

  /** "Bearer  t": the doubled space is refused whatever the token. */
  lemma JwtDoubleSpaceRefused(scheme: string, token: string, parse: string -> ParsedToken)
    ensures JwtVerdict(Some([scheme + "  " + token]), parse) == Refuse
  {
    CountAppend(scheme + "  ", token, ' ');
    CountAppend(scheme, "  ", ' ');
    JwtNeedsExactlyOneSpace(scheme + "  " + token, [], parse);
    assert [scheme + "  " + token] + [] == [scheme + "  " + token];
  }

  /** Where the space of `scheme + " " + token` must fall for the value to be bearer-shaped. */
  lemma BearerShapedConcat(scheme: string, token: string)
    ensures BearerShaped(scheme + " " + token) <==> |scheme| == 6 && ToLower(scheme) == "bearer" && ' ' !in token
    ensures |scheme| == 6 ==> TokenOf(scheme + " " + token) == token
  {
    var h := scheme + " " + token;
    if BearerShaped(h) {
      SchemeHasSixLetters(scheme, token);
    }
    if |scheme| == 6 {
      assert h[..6] == scheme && h[6] == ' ' && h[7..] == token;
    }
  }

  lemma SchemeHasSixLetters(scheme: string, token: string)
    requires BearerShaped(scheme + " " + token)
    ensures |scheme| == 6
  {
    var h := scheme + " " + token;
    var k := |scheme|;
    assert h[k] == ' ';
    if k < 6 {
      assert false;
    }
  }

  /**
   * A value `scheme + " " + token` gets through exactly when the scheme is a
   * six-letter spelling of "bearer" in any case, the token has no space,
   * and the token is valid.
   */
  lemma JwtSchemeAndToken(scheme: string, token: string, parse: string -> ParsedToken)
    ensures JwtVerdict(Some([scheme + " " + token]), parse)
            == if |scheme| == 6 && ToLower(scheme) == "bearer" && ' ' !in token && ValidateToken(token, parse)
               then Proceed else Refuse
  {
    BearerShapedConcat(scheme, token);
  }

  /**
   * The scheme is compared without regard to case: "Bearer t", "BEARER t" and
   * "bearer t" (any two schemes equal after lower-casing) get the same verdict.
   */
  lemma JwtSchemeCaseInsensitive(scheme1: string, scheme2: string, token: string, parse: string -> ParsedToken)
    requires ToLower(scheme1) == ToLower(scheme2)
    ensures JwtVerdict(Some([scheme1 + " " + token]), parse) == JwtVerdict(Some([scheme2 + " " + token]), parse)
  {
    JwtSchemeAndToken(scheme1, token, parse);
    JwtSchemeAndToken(scheme2, token, parse);
  }
}
