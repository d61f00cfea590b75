/**
 * The values that flow through the HTTP transport layer: the comment
 * entity as the handlers see it, the `Response` envelope, the errors the
 * handlers report, the calls made on the comment service and what that
 * service answers, and the parts of an incoming request the handlers read.
 */
module Api {
  import opened Wrappers
  import Strconv

  /**
   * A comment as the handlers pass it around. Its fields are defined by the
   * comment package and are opaque here: `id` is the storage-assigned
   * identifier, `content` stands for every other field.
   */
  datatype Comment = Comment(id: nat, content: string)

  /** `type Response struct { Message string; Error string }` */
  datatype Response = Response(message: string, error: string)

  /** A value handed to `json.NewEncoder(w).Encode`. */
  datatype Payload =
    | OneComment(comment: Comment)
    | CommentList(comments: seq<Comment>)
    | Message(response: Response)

  /** What every *strconv.NumError text of ParseUint starts with. */
  const NumErrorPrefix := "strconv.ParseUint: parsing \""

  /** An `error` value a handler passes to sendErrorResponse. */
  datatype GoError =
    | Unauthorized                                            // errors.New("unauthorized")
    | NumError(input: string, kind: Strconv.NumErrorKind)     // *strconv.NumError from ParseUint
    | Opaque(text: string)                                    // from encoding/json or comment.Service
  {
    /**
     * `err.Error()`. A parse error's text quotes the rejected id right after
     * the fixed prefix.
     */
    function Text(): (r: string)
      ensures Unauthorized? ==> r == "unauthorized"
      ensures NumError? ==> |r| > |NumErrorPrefix| + |input|
                            && r[..|NumErrorPrefix|] == NumErrorPrefix
                            && r[|NumErrorPrefix|..|NumErrorPrefix| + |input|] == input
      ensures Opaque? ==> r == text
    {
      match this
      case Unauthorized => "unauthorized"
      case NumError(s, k) =>
        NumErrorPrefix + s + "\": "
        + (if k == Strconv.ErrSyntax then "invalid syntax" else "value out of range")
      case Opaque(t) => t
    }
  }

  /**
   * A parse error's text gives back both the rejected id and the kind of
   * error: no two parse errors read the same.
   */
  lemma NumErrorTextInjective(s1: string, k1: Strconv.NumErrorKind, s2: string, k2: Strconv.NumErrorKind)
    requires NumError(s1, k1).Text() == NumError(s2, k2).Text()
    ensures s1 == s2 && k1 == k2
  {
    var t1, t2 := NumError(s1, k1).Text(), NumError(s2, k2).Text();
    // "invalid syntax" ends in 'x', "value out of range" in 'e'
    assert t1[|t1| - 1] == (if k1 == Strconv.ErrSyntax then 'x' else 'e');
    assert t2[|t2| - 1] == (if k2 == Strconv.ErrSyntax then 'x' else 'e');
    var t := t1;
    assert s1 == t[|NumErrorPrefix|..|NumErrorPrefix| + |s1|];
  }

  /** One call on comment.Service, with the arguments the handler passed. */
  datatype Call =
    | GetCommentCall(id: nat)
    | GetAllCommentsCall
    | PostCommentCall(comment: Comment)
    | UpdateCommentCall(id: nat, comment: Comment)
    | DeleteCommentCall(id: nat)

  /**
   * What comment.Service answers. Its code and its database are not part of
   * this model, so each answer is an arbitrary function of the calls made
   * before and of the arguments.
   */
  datatype Storage = Storage(
    getComment: (seq<Call>, nat) -> Result<Comment, GoError>,
    getAllComments: seq<Call> -> Result<seq<Comment>, GoError>,
    postComment: (seq<Call>, Comment) -> Result<Comment, GoError>,
    updateComment: (seq<Call>, nat, Comment) -> Result<Comment, GoError>,
    deleteComment: (seq<Call>, nat) -> Option<GoError>)

  /** What `r.BasicAuth()` returns: user, password and whether they were well formed. */
  datatype BasicCredentials = BasicCredentials(user: string, pass: string, ok: bool)

  /**
   * The parts of an *http.Request the layer reads.
   * `authorization` is `r.Header["Authorization"]`: None when that slice is
   * nil, Some(values) otherwise. `body` is the outcome of decoding the JSON
   * body into a comment. `vars` is `mux.Vars(r)`.
   */
  datatype Request = Request(
    verb: string,
    path: string,
    authorization: Option<seq<string>>,
    basicAuth: BasicCredentials,
    body: Result<Comment, GoError>,
    vars: map<string, string>)
  {
    /** `mux.Vars(r)["id"]`: a missing key reads as the empty string. */
    function IdVar(): (id: string)
      ensures "id" in vars ==> id == vars["id"]
      ensures "id" !in vars ==> id == ""
    {
      if "id" in vars then vars["id"] else ""
    }
  }

  /** A line written through logrus. */
  datatype LogEntry =
    | RequestReceived(verb: string, path: string)
    | Info(message: string)
}
