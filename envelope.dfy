/**
 * sendOkResponse and sendErrorResponse: every handler answers through one
 * of them. Both commit the status first and set Content-Type afterwards,
 * then encode one JSON value.
 */
module Envelope {
  import opened Wrappers
  import opened Api
  import opened NetHttp

  const ContentType := "Content-Type"
  const JsonContentType := "application/json; charset-UTF-8"

  /** The calls sendOkResponse(w, resp) makes: status 200, header, body. */
  function OkOps(resp: Payload): seq<WriterOp>
  {
    [WriteHeader(StatusOK), SetHeader(ContentType, JsonContentType), Write(resp)]
  }

  /** The value sendErrorResponse encodes: Response{Message: message, Error: err.Error()}. */
  function ErrorBody(message: string, err: GoError): Payload
  {
    Message(Response(message, err.Text()))
  }

  /** The calls sendErrorResponse(w, message, err) makes: status 500, header, body. */
  function ErrorOps(message: string, err: GoError): seq<WriterOp>
  {
    [WriteHeader(StatusInternalServerError), SetHeader(ContentType, JsonContentType), Write(ErrorBody(message, err))]
  }

  /** The three calls of an envelope, status first, performed on any response state. */
  lemma {:induction false} StatusThenHeaderThenBody(w: Wire, code: int, p: Payload)
    ensures var w' := Run(w, [WriteHeader(code), SetHeader(ContentType, JsonContentType), Write(p)]);
            && w'.status == (if w.status.None? then Some(code) else w.status)
            && w'.sent == (if w.status.None? then w.header else w.sent)
            && w'.header == w.header[ContentType := JsonContentType]
            && w'.body == w.body + [p]
  {
    var a, b, c := WriteHeader(code), SetHeader(ContentType, JsonContentType), Write(p);
    assert [a, b, c] == [a] + [b] + [c];
    RunAppend(w, [a] + [b], [c]);
    RunAppend(w, [a], [b]);
    RunOne(w, a);
    RunOne(Step(w, a), b);
    RunOne(Step(Step(w, a), b), c);
  }

  /**
   * sendOkResponse: status 200 is committed unless a status already was,
   * exactly `resp` is appended to the body, and because the status is
   * written before Content-Type is set, the header that goes on the wire
   * is the one from before the call.
   */
  lemma OkResponseEffect(w: Wire, resp: Payload)
    ensures var w' := Run(w, OkOps(resp));
            && w'.status == (if w.status.None? then Some(StatusOK) else w.status)
            && w'.sent == (if w.status.None? then w.header else w.sent)
            && w'.body == w.body + [resp]
            && ContentType in w'.header && w'.header[ContentType] == JsonContentType
  {
    StatusThenHeaderThenBody(w, StatusOK, resp);
  }

  /** sendErrorResponse: the same shape with status 500 and a Response body. */
  lemma ErrorResponseEffect(w: Wire, message: string, err: GoError)
    ensures var w' := Run(w, ErrorOps(message, err));
            && w'.status == (if w.status.None? then Some(StatusInternalServerError) else w.status)
            && w'.sent == (if w.status.None? then w.header else w.sent)
            && w'.body == w.body + [Message(Response(message, err.Text()))]
            && ContentType in w'.header && w'.header[ContentType] == JsonContentType
  {
    StatusThenHeaderThenBody(w, StatusInternalServerError, ErrorBody(message, err));
  }

  /**
   * On a fresh response neither envelope puts Content-Type on the wire: the
   * header map is copied when the status is committed, before the Set.
   */
  lemma ContentTypeNeverSent(resp: Payload, message: string, err: GoError)
    ensures ContentType !in Run(Fresh, OkOps(resp)).sent
    ensures ContentType !in Run(Fresh, ErrorOps(message, err)).sent
    ensures Run(Fresh, OkOps(resp)).status == Some(StatusOK)
    ensures Run(Fresh, ErrorOps(message, err)).status == Some(StatusInternalServerError)
  {
    OkResponseEffect(Fresh, resp);
    ErrorResponseEffect(Fresh, message, err);
  }

  /** `sendOkResponse(w, resp)` (encoding is taken to succeed). */
  method SendOkResponse(w: ResponseWriter, resp: Payload)
    requires w.Valid()
    modifies w
    ensures w.Valid() && w.ops == old(w.ops) + OkOps(resp)
    ensures w.State() == Run(old(w.State()), OkOps(resp))
  {
    w.WriteHeader(StatusOK);
    w.SetHeader(ContentType, JsonContentType);
    w.Write(resp);
    assert w.ops == old(w.ops) + OkOps(resp);
    RunAppend(Fresh, old(w.ops), OkOps(resp));
  }

  /** `sendErrorResponse(w, message, err)`. */
  method SendErrorResponse(w: ResponseWriter, message: string, err: GoError)
    requires w.Valid()
    modifies w
    ensures w.Valid() && w.ops == old(w.ops) + ErrorOps(message, err)
    ensures w.State() == Run(old(w.State()), ErrorOps(message, err))
  {
    w.WriteHeader(StatusInternalServerError);
    w.SetHeader(ContentType, JsonContentType);
    w.Write(Message(Response(message, err.Text())));
    assert w.ops == old(w.ops) + ErrorOps(message, err);
    RunAppend(Fresh, old(w.ops), ErrorOps(message, err));
  }

  /** The envelope a handler ends with: sendOkResponse or sendErrorResponse. */
  datatype Reply = OkReply(payload: Payload) | ErrorReply(message: string, err: GoError)

  function ReplyOps(reply: Reply): seq<WriterOp>
  {
    match reply
    case OkReply(p) => OkOps(p)
    case ErrorReply(m, e) => ErrorOps(m, e)
  }

  /** The value a reply encodes. */
  function ReplyBody(reply: Reply): Payload
  {
    match reply
    case OkReply(p) => p
    case ErrorReply(m, e) => ErrorBody(m, e)
  }

  /**
   * A reply on a fresh response commits 200 exactly for sendOkResponse and
   * 500 for sendErrorResponse, and encodes exactly one value: the payload,
   * or Response{Message, Error} with the error's text.
   */
  lemma ReplyOnFreshResponse(reply: Reply)
    ensures var w := Run(Fresh, ReplyOps(reply));
            && w.status == Some(if reply.OkReply? then StatusOK else StatusInternalServerError)
            && w.body == [ReplyBody(reply)]
            && (reply.ErrorReply? ==> w.body == [Message(Response(reply.message, reply.err.Text()))])
            && ContentType !in w.sent
  {
    match reply
    case OkReply(p) => OkResponseEffect(Fresh, p);
    case ErrorReply(m, e) => ErrorResponseEffect(Fresh, m, e);
  }
}
