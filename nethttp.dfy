/**
 * The behaviour of net/http's http.ResponseWriter that the envelope code
 * depends on. Header() is a mutable map; WriteHeader commits the status and
 * takes a snapshot of the header map, which is what goes on the wire, so a
 * later Header().Set has no effect on the response; a second WriteHeader is
 * ignored; Write commits status 200 first if nothing was committed.
 */
module NetHttp {
  import opened Wrappers
  import opened Api

  const StatusOK := 200
  const StatusInternalServerError := 500

  /** One call a handler makes on its ResponseWriter. */
  datatype WriterOp =
    | SetHeader(key: string, value: string)   // w.Header().Set(key, value)
    | WriteHeader(code: int)                  // w.WriteHeader(code)
    | Write(payload: Payload)                 // json.NewEncoder(w).Encode(payload)

  /**
   * The state of a response: the handler's header map, the committed status
   * (None until committed), the header sent with it, and the encoded body.
   */
  datatype Wire = Wire(header: map<string, string>, status: Option<int>,
                       sent: map<string, string>, body: seq<Payload>)

  const Fresh := Wire(map[], None, map[], [])

  /** Commit `code` unless a status is already committed. */
  function Commit(w: Wire, code: int): (w': Wire)
    ensures w.status.Some? ==> w' == w
    ensures w.status.None? ==> w'.status == Some(code) && w'.sent == w.header
    ensures w'.header == w.header && w'.body == w.body
  {
    if w.status.Some? then w else w.(status := Some(code), sent := w.header)
  }

  /**
   * One call: Set touches only the header map, WriteHeader only a status not
   * yet committed, and Write commits as needed and appends one value.
   */
  function Step(w: Wire, op: WriterOp): (w': Wire)
    ensures w.status.Some? ==> w'.status == w.status && w'.sent == w.sent
    ensures op.SetHeader? ==> w'.status == w.status && w'.sent == w.sent && w'.body == w.body
    ensures !op.SetHeader? ==> w'.status.Some? && w'.header == w.header
    ensures w'.body == w.body + (if op.Write? then [op.payload] else [])
  {
    match op
    case SetHeader(k, v) => w.(header := w.header[k := v])
    case WriteHeader(code) => Commit(w, code)
    case Write(p) => var c := Commit(w, StatusOK); c.(body := c.body + [p])
  }

  /** The state after performing `ops`, in order, from state `w`. */
  function Run(w: Wire, ops: seq<WriterOp>): Wire
  {
    if ops == [] then w else Step(Run(w, ops[..|ops| - 1]), ops[|ops| - 1])
  }

  /** Performing two sequences of calls is performing them one after the other. */
  lemma {:induction false} RunAppend(w: Wire, a: seq<WriterOp>, b: seq<WriterOp>)
    ensures Run(w, a + b) == Run(Run(w, a), b)
  {
    if b == [] {
      assert a + b == a;
    } else {
      assert (a + b)[..|a + b| - 1] == a + b[..|b| - 1];
      RunAppend(w, a, b[..|b| - 1]);
    }
  }

  lemma RunOne(w: Wire, op: WriterOp)
    ensures Run(w, [op]) == Step(w, op)
  {
    assert [op][..0] == [];
  }

  /** Number of Write calls among `ops`. */
  function Writes(ops: seq<WriterOp>): nat
  {
    if ops == [] then 0 else Writes(ops[..|ops| - 1]) + (if ops[|ops| - 1].Write? then 1 else 0)
  }

  /** Each Write adds exactly one encoded value to the body; nothing else does. */
  lemma {:induction false} BodyGrowsByWrites(w: Wire, ops: seq<WriterOp>)
    ensures |Run(w, ops).body| == |w.body| + Writes(ops)
  {
    if ops != [] {
      BodyGrowsByWrites(w, ops[..|ops| - 1]);
    }
  }

  /** Once committed, the status and the header on the wire never change. */
  lemma {:induction false} CommittedIsFinal(w: Wire, ops: seq<WriterOp>)
    requires w.status.Some?
    ensures Run(w, ops).status == w.status && Run(w, ops).sent == w.sent
  {
    if ops != [] {
      CommittedIsFinal(w, ops[..|ops| - 1]);
    }
  }

  /**
   * A ResponseWriter whose real fields are the Wire state and whose ghost
   * `ops` records every call made on it, in order.
   */
  class ResponseWriter {
    var header: map<string, string>
    var status: Option<int>
    var sent: map<string, string>
    var body: seq<Payload>
    ghost var ops: seq<WriterOp>

    ghost function State(): Wire
      reads this
    {
      Wire(header, status, sent, body)
    }

    /** The fields are what the recorded calls produce on a fresh response. */
    ghost predicate Valid()
      reads this
    {
      Run(Fresh, ops) == State()
    }

    constructor ()
      ensures Valid() && ops == [] && State() == Fresh
    {
      header, status, sent, body := map[], None, map[], [];
      ops := [];
    }

    /** w.Header().Set(key, value) */
    method SetHeader(key: string, value: string)
      requires Valid()
      modifies this
      ensures Valid() && ops == old(ops) + [WriterOp.SetHeader(key, value)]
      ensures header == old(header)[key := value]
      ensures status == old(status) && sent == old(sent) && body == old(body)
    {
      header := header[key := value];
      ops := ops + [WriterOp.SetHeader(key, value)];
      assert ops[..|ops| - 1] == old(ops);
    }

    /** w.WriteHeader(code): commits once; a superfluous call is ignored. */
    method WriteHeader(code: int)
      requires Valid()
      modifies this
      ensures Valid() && ops == old(ops) + [WriterOp.WriteHeader(code)]
      ensures State() == Commit(old(State()), code)
    {
      if status.None? {
        status := Some(code);
        sent := header;
      }
      ops := ops + [WriterOp.WriteHeader(code)];
      assert ops[..|ops| - 1] == old(ops);
    }

    /** json.NewEncoder(w).Encode(p): commits 200 if needed, then appends p. */
    method Write(p: Payload)
      requires Valid()
      modifies this
      ensures Valid() && ops == old(ops) + [WriterOp.Write(p)]
      ensures State() == Step(old(State()), WriterOp.Write(p))
    {
      if status.None? {
        status := Some(StatusOK);
        sent := header;
      }
      body := body + [p];
      ops := ops + [WriterOp.Write(p)];
      assert ops[..|ops| - 1] == old(ops);
    }
  }
}
