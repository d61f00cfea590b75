/**
 * The five comment handlers as short-circuiting pipelines: decode the body
 * and/or parse the `id` path variable, call the comment service, answer
 * with one envelope. Each function gives the service calls a handler makes
 * and the envelope it ends with, given what the service answers.
 */
module Comments {
  import opened Wrappers
  import opened Strconv
  import opened Api
  import opened Envelope

  const ParseIdFailed := "Could not parse the supplied ID to uint"
  const GetByIdFailed := "Error retrieving comment by id"
  const GetAllFailed := "Error retrieving all comments"
  const DecodeFailed := "Failed decoding incoming request"
  const DeleteSucceeded := "Comment deleted succesfully"

  /** What one handler run does: its service calls, in order, and its envelope. */
  datatype Flow = Flow(calls: seq<Call>, reply: Reply)

  /** GetComment: parse id, fetch it, answer with the comment. */
  function GetCommentFlow(r: Request, st: Storage, history: seq<Call>): (f: Flow)
    ensures |f.calls| <= 1 && (f.calls != [] <==> ParseUintSpec(r.IdVar()).Ok?)
    ensures f.reply.OkReply? ==> f.calls != []
    ensures f.reply.ErrorReply? ==> f.reply.message in {ParseIdFailed, GetByIdFailed}
  {
    match ParseUintSpec(r.IdVar())
    case Err(kind) => Flow([], ErrorReply(ParseIdFailed, NumError(r.IdVar(), kind)))
    case Ok(id) =>
      match st.getComment(history, id)
      case Err(e) => Flow([GetCommentCall(id)], ErrorReply(GetByIdFailed, e))
      case Ok(c) => Flow([GetCommentCall(id)], OkReply(OneComment(c)))
  }

  /** GetAllComments: list, answer with the list. */
  function GetAllCommentsFlow(st: Storage, history: seq<Call>): (f: Flow)
    ensures f.calls == [GetAllCommentsCall]
    ensures f.reply.OkReply? <==> st.getAllComments(history).Ok?
    ensures f.reply.ErrorReply? ==> f.reply.message == GetAllFailed
  {
    match st.getAllComments(history)
    case Err(e) => Flow([GetAllCommentsCall], ErrorReply(GetAllFailed, e))
    case Ok(cs) => Flow([GetAllCommentsCall], OkReply(CommentList(cs)))
  }

  /** PostComment: decode the body, create, answer with the stored comment. */
  function PostCommentFlow(r: Request, st: Storage, history: seq<Call>): (f: Flow)
    ensures |f.calls| <= 1 && (f.calls != [] <==> r.body.Ok?)
    ensures f.reply.OkReply? ==> f.calls != []
    ensures f.reply.ErrorReply? ==> f.reply.message in {DecodeFailed, GetAllFailed}
  {
    match r.body
    case Err(e) => Flow([], ErrorReply(DecodeFailed, e))
    case Ok(c) =>
      match st.postComment(history, c)
      case Err(e) => Flow([PostCommentCall(c)], ErrorReply(GetAllFailed, e))
      case Ok(stored) => Flow([PostCommentCall(c)], OkReply(OneComment(stored)))
  }

  /** UpdateComment: decode the body, then parse id, update, answer with the result. */
  function UpdateCommentFlow(r: Request, st: Storage, history: seq<Call>): (f: Flow)
    ensures |f.calls| <= 1 && (f.calls != [] <==> r.body.Ok? && ParseUintSpec(r.IdVar()).Ok?)
    ensures f.reply.OkReply? ==> f.calls != []
    ensures f.reply.ErrorReply? ==> f.reply.message in {DecodeFailed, ParseIdFailed, GetAllFailed}
  {
    match r.body
    case Err(e) => Flow([], ErrorReply(DecodeFailed, e))
    case Ok(c) =>
      match ParseUintSpec(r.IdVar())
      case Err(kind) => Flow([], ErrorReply(ParseIdFailed, NumError(r.IdVar(), kind)))
      case Ok(id) =>
        match st.updateComment(history, id, c)
        case Err(e) => Flow([UpdateCommentCall(id, c)], ErrorReply(GetAllFailed, e))
        case Ok(updated) => Flow([UpdateCommentCall(id, c)], OkReply(OneComment(updated)))
  }

  /** DeleteComment: parse id, delete, answer with a fixed confirmation. */
  function DeleteCommentFlow(r: Request, st: Storage, history: seq<Call>): (f: Flow)
    ensures |f.calls| <= 1 && (f.calls != [] <==> ParseUintSpec(r.IdVar()).Ok?)
    ensures f.reply.OkReply? ==> f.calls != []
    ensures f.reply.ErrorReply? ==> f.reply.message in {ParseIdFailed, GetByIdFailed}
  {
    match ParseUintSpec(r.IdVar())
    case Err(kind) => Flow([], ErrorReply(ParseIdFailed, NumError(r.IdVar(), kind)))
    case Ok(id) =>
      match st.deleteComment(history, id)
      case Some(e) => Flow([DeleteCommentCall(id)], ErrorReply(GetByIdFailed, e))
      case None => Flow([DeleteCommentCall(id)], OkReply(Message(Response(DeleteSucceeded, ""))))
  }

  /**
   * GetComment and DeleteComment: an id that does not parse is reported with
   * the parse error and the service is never called.
   */
  lemma IdParseFailureShortCircuits(r: Request, st: Storage, history: seq<Call>)
    requires ParseUintSpec(r.IdVar()).Err?
    ensures var failed := ErrorReply(ParseIdFailed, NumError(r.IdVar(), ParseUintSpec(r.IdVar()).error));
            && GetCommentFlow(r, st, history) == Flow([], failed)
            && DeleteCommentFlow(r, st, history) == Flow([], failed)
            && (r.body.Ok? ==> UpdateCommentFlow(r, st, history) == Flow([], failed))
  {
  }

  /**
   * GetComment with a parsable id: one call with the parsed value; a service
   * error is reported as "Error retrieving comment by id", otherwise the
   * answer carries exactly the comment the service returned.
   */
  lemma GetCommentOutcome(r: Request, st: Storage, history: seq<Call>)
    requires ParseUintSpec(r.IdVar()).Ok?
    ensures var id := ParseUintSpec(r.IdVar()).value;
            var f := GetCommentFlow(r, st, history);
            && id == DigitsValue(r.IdVar()) && id <= MaxUint64
            && f.calls == [GetCommentCall(id)]
            && f.reply == match st.getComment(history, id)
                          case Err(e) => ErrorReply(GetByIdFailed, e)
                          case Ok(c) => OkReply(OneComment(c))
  {
    ParseUintAccepts(r.IdVar());
  }

  /**
   * UpdateComment decodes the body before looking at the id: a bad body is
   * reported as a decode failure whatever the id, and nothing is called.
   */
  lemma UpdateDecodesFirst(r: Request, st: Storage, history: seq<Call>)
    requires r.body.Err?
    ensures UpdateCommentFlow(r, st, history) == Flow([], ErrorReply(DecodeFailed, r.body.error))
    ensures forall id :: UpdateCommentFlow(r.(vars := map["id" := id]), st, history)
                         == UpdateCommentFlow(r, st, history)
  {
  }

  /**
   * UpdateComment with a good body and id: the service gets the parsed id
   * and the decoded comment, and its answer is what the handler returns.
   */
  lemma UpdatePassesIdAndComment(r: Request, st: Storage, history: seq<Call>)
    requires r.body.Ok? && ParseUintSpec(r.IdVar()).Ok?
    ensures var id := ParseUintSpec(r.IdVar()).value;
            var f := UpdateCommentFlow(r, st, history);
            && f.calls == [UpdateCommentCall(id, r.body.value)]
            && f.reply == match st.updateComment(history, id, r.body.value)
                          case Err(e) => ErrorReply(GetAllFailed, e)
                          case Ok(c) => OkReply(OneComment(c))
  {
  }

  /**
   * PostComment: a bad body stops before the service; a service failure is
   * reported with the same text UpdateComment uses.
   */
  lemma PostCommentOutcome(r: Request, st: Storage, history: seq<Call>)
    ensures r.body.Err? ==> PostCommentFlow(r, st, history) == Flow([], ErrorReply(DecodeFailed, r.body.error))
    ensures r.body.Ok? ==>
            var f := PostCommentFlow(r, st, history);
            && f.calls == [PostCommentCall(r.body.value)]
            && f.reply == match st.postComment(history, r.body.value)
                          case Err(e) => ErrorReply(GetAllFailed, e)
                          case Ok(c) => OkReply(OneComment(c))
    ensures r.body.Ok? && st.postComment(history, r.body.value).Err? && ParseUintSpec(r.IdVar()).Ok?
            && st.updateComment(history, ParseUintSpec(r.IdVar()).value, r.body.value).Err? ==>
            PostCommentFlow(r, st, history).reply.message == UpdateCommentFlow(r, st, history).reply.message
  {
  }

  /**
   * DeleteComment answers a successful delete with the fixed confirmation;
   * GetAllComments returns the service's list unchanged or its failure.
   */
  lemma FixedAndPassThroughPayloads(r: Request, st: Storage, history: seq<Call>)
    ensures ParseUintSpec(r.IdVar()).Ok? && st.deleteComment(history, ParseUintSpec(r.IdVar()).value).None? ==>
            DeleteCommentFlow(r, st, history).reply == OkReply(Message(Response("Comment deleted succesfully", "")))
    ensures GetAllCommentsFlow(st, history).calls == [GetAllCommentsCall]
    ensures GetAllCommentsFlow(st, history).reply ==
            match st.getAllComments(history)
            case Ok(cs) => OkReply(CommentList(cs))
            case Err(e) => ErrorReply("Error retrieving all comments", e)
  {
  }

  /**
   * A handler answers ok only when every step before the answer succeeded,
   * makes at most one service call, and calls the service exactly when the
   * local steps (decode, parse) succeeded.
   */
  lemma OkOnlyWhenEveryStepSucceeds(r: Request, st: Storage, history: seq<Call>)
    ensures var p := ParseUintSpec(r.IdVar());
            && (GetCommentFlow(r, st, history).reply.OkReply? <==>
                p.Ok? && st.getComment(history, p.value).Ok?)
            && (GetAllCommentsFlow(st, history).reply.OkReply? <==> st.getAllComments(history).Ok?)
            && (PostCommentFlow(r, st, history).reply.OkReply? <==>
                r.body.Ok? && st.postComment(history, r.body.value).Ok?)
            && (UpdateCommentFlow(r, st, history).reply.OkReply? <==>
                r.body.Ok? && p.Ok? && st.updateComment(history, p.value, r.body.value).Ok?)
            && (DeleteCommentFlow(r, st, history).reply.OkReply? <==>
                p.Ok? && st.deleteComment(history, p.value).None?)
    ensures var p := ParseUintSpec(r.IdVar());
            && (|GetCommentFlow(r, st, history).calls| == if p.Ok? then 1 else 0)
            && |GetAllCommentsFlow(st, history).calls| == 1
            && (|PostCommentFlow(r, st, history).calls| == if r.body.Ok? then 1 else 0)
            && (|UpdateCommentFlow(r, st, history).calls| == if r.body.Ok? && p.Ok? then 1 else 0)
            && (|DeleteCommentFlow(r, st, history).calls| == if p.Ok? then 1 else 0)
  {
  }
}
