/**
 * The transport layer as objects: the comment service and the logger it
 * talks to, the router SetupRoutes fills, and the Handler whose methods are
 * the HTTP handlers. Every method is proved to do what the pure model in
 * Comments and Routing says, on the real writer, service and logger.
 */
module Transport {
  import opened Wrappers
  import opened Strconv
  import opened Api
  import opened NetHttp
  import opened Envelope
  import opened Jwt
  import opened Interceptors
  import opened Comments
  import opened Routing

  /** The logrus logger: the entries written so far. */
  class Logger {
    var entries: seq<LogEntry>

    constructor ()
      ensures entries == []
    {
      entries := [];
    }

    method Log(entry: LogEntry)
      modifies this
      ensures entries == old(entries) + [entry]
    {
      entries := entries + [entry];
    }
  }

  /**
   * comment.Service as the handlers see it: every call is recorded, and the
   * answer is whatever `storage` gives for the calls made before it.
   */
  class Service {
    const storage: Storage
    var calls: seq<Call>

    constructor (storage: Storage)
      ensures this.storage == storage && calls == []
    {
      this.storage := storage;
      calls := [];
    }

    method GetComment(id: nat) returns (r: Result<Comment, GoError>)
      modifies this
      ensures calls == old(calls) + [GetCommentCall(id)]
      ensures r == storage.getComment(old(calls), id)
    {
      r := storage.getComment(calls, id);
      calls := calls + [GetCommentCall(id)];
    }

    method GetAllComments() returns (r: Result<seq<Comment>, GoError>)
      modifies this
      ensures calls == old(calls) + [GetAllCommentsCall]
      ensures r == storage.getAllComments(old(calls))
    {
      r := storage.getAllComments(calls);
      calls := calls + [GetAllCommentsCall];
    }

    method PostComment(c: Comment) returns (r: Result<Comment, GoError>)
      modifies this
      ensures calls == old(calls) + [PostCommentCall(c)]
      ensures r == storage.postComment(old(calls), c)
    {
      r := storage.postComment(calls, c);
      calls := calls + [PostCommentCall(c)];
    }

    method UpdateComment(id: nat, c: Comment) returns (r: Result<Comment, GoError>)
      modifies this
      ensures calls == old(calls) + [UpdateCommentCall(id, c)]
      ensures r == storage.updateComment(old(calls), id, c)
    {
      r := storage.updateComment(calls, id, c);
      calls := calls + [UpdateCommentCall(id, c)];
    }

    method DeleteComment(id: nat) returns (err: Option<GoError>)
      modifies this
      ensures calls == old(calls) + [DeleteCommentCall(id)]
      ensures err == storage.deleteComment(old(calls), id)
    {
      err := storage.deleteComment(calls, id);
      calls := calls + [DeleteCommentCall(id)];
    }
  }

  /** The gorilla/mux router: its middleware and its registrations, in order. */
  class Router {
    var middlewares: seq<Interceptor>
    var routes: seq<Route>

    /** mux.NewRouter() */
    constructor ()
      ensures middlewares == [] && routes == []
    {
      middlewares, routes := [], [];
    }

    /** router.Use(mw) */
    method Use(mw: Interceptor)
      modifies this
      ensures middlewares == old(middlewares) + [mw] && routes == old(routes)
    {
      middlewares := middlewares + [mw];
    }

    /** router.HandleFunc(template, handler), followed by .Methods(m) when verb is Some(m) */
    method HandleFunc(template: string, wrappers: seq<Interceptor>, e: Endpoint, verb: Option<string>)
      modifies this
      ensures routes == old(routes) + [Route(verb, template, wrappers, e)]
      ensures middlewares == old(middlewares)
    {
      routes := routes + [Route(verb, template, wrappers, e)];
    }
  }

  class Handler {
    var router: Router?
    const service: Service

    /** NewHandler(service) */
    constructor (service: Service)
      ensures this.service == service && router == null
    {
      this.service := service;
      router := null;
    }

    /** SetupRoutes: a new router with logging on every route and six registrations. */
    method SetupRoutes(logger: Logger)
      modifies this, logger
      ensures router != null && fresh(router)
      ensures router.middlewares == Middlewares && router.routes == CanonicalRoutes
      ensures logger.entries == old(logger.entries) + [Info("Routes setup")]
    {
      logger.Log(Info("Routes setup"));
      var r := new Router();
      r.Use(Logging);
      r.HandleFunc("/api/comment/{id}", [], Endpoint.GetComment, Some("GET"));
      r.HandleFunc("/api/comment", [], Endpoint.GetAllComments, Some("GET"));
      r.HandleFunc("/api/comment", [JwtAuth], Endpoint.PostComment, Some("POST"));
      r.HandleFunc("/api/comment/{id}", [], Endpoint.DeleteComment, Some("DELETE"));
      r.HandleFunc("/api/comment/{id}", [], Endpoint.UpdateComment, Some("PUT"));
      r.HandleFunc("/api/health", [], Health, None);
      router := r;
    }

    /** The inline health handler of SetupRoutes. */
    method HealthCheck(w: ResponseWriter)
      requires w.Valid()
      modifies w
      ensures w.Valid() && w.ops == old(w.ops) + HealthOps()
    {
      w.SetHeader(ContentType, JsonContentType);
      w.WriteHeader(StatusOK);
      SendOkResponse(w, Message(Response(HealthyMessage, "")));
    }

    method GetComment(w: ResponseWriter, r: Request)
      requires w.Valid()
      modifies w, service
      ensures w.Valid()
      ensures var f := GetCommentFlow(r, service.storage, old(service.calls));
              service.calls == old(service.calls) + f.calls && w.ops == old(w.ops) + ReplyOps(f.reply)
    {
      var id := r.IdVar();
      var parsed := ParseUint(id);
      if parsed.Err? {
        SendErrorResponse(w, ParseIdFailed, NumError(id, parsed.error));
        return;
      }
      var comment := service.GetComment(parsed.value);
      if comment.Err? {
        SendErrorResponse(w, GetByIdFailed, comment.error);
        return;
      }
      SendOkResponse(w, OneComment(comment.value));
    }

    method GetAllComments(w: ResponseWriter, r: Request)
      requires w.Valid()
      modifies w, service
      ensures w.Valid()
      ensures var f := GetAllCommentsFlow(service.storage, old(service.calls));
              service.calls == old(service.calls) + f.calls && w.ops == old(w.ops) + ReplyOps(f.reply)
    {
      var comments := service.GetAllComments();
      if comments.Err? {
        SendErrorResponse(w, GetAllFailed, comments.error);
        return;
      }
      SendOkResponse(w, CommentList(comments.value));
    }

    method PostComment(w: ResponseWriter, r: Request)
      requires w.Valid()
      modifies w, service
      ensures w.Valid()
      ensures var f := PostCommentFlow(r, service.storage, old(service.calls));
              service.calls == old(service.calls) + f.calls && w.ops == old(w.ops) + ReplyOps(f.reply)
    {
      if r.body.Err? {
        SendErrorResponse(w, DecodeFailed, r.body.error);
        return;
      }
      var comment := service.PostComment(r.body.value);
      if comment.Err? {
        SendErrorResponse(w, GetAllFailed, comment.error);
        return;
      }
      SendOkResponse(w, OneComment(comment.value));
    }

    method UpdateComment(w: ResponseWriter, r: Request)
      requires w.Valid()
      modifies w, service
      ensures w.Valid()
      ensures var f := UpdateCommentFlow(r, service.storage, old(service.calls));
              service.calls == old(service.calls) + f.calls && w.ops == old(w.ops) + ReplyOps(f.reply)
    {
      if r.body.Err? {
        SendErrorResponse(w, DecodeFailed, r.body.error);
        return;
      }
      var id := r.IdVar();
      var parsed := ParseUint(id);
      if parsed.Err? {
        SendErrorResponse(w, ParseIdFailed, NumError(id, parsed.error));
        return;
      }
      var comment := service.UpdateComment(parsed.value, r.body.value);
      if comment.Err? {
        SendErrorResponse(w, GetAllFailed, comment.error);
        return;
      }
      SendOkResponse(w, OneComment(comment.value));
    }

    method DeleteComment(w: ResponseWriter, r: Request)
      requires w.Valid()
      modifies w, service
      ensures w.Valid()
      ensures var f := DeleteCommentFlow(r, service.storage, old(service.calls));
              service.calls == old(service.calls) + f.calls && w.ops == old(w.ops) + ReplyOps(f.reply)
    {
      var id := r.IdVar();
      var parsed := ParseUint(id);
      if parsed.Err? {
        SendErrorResponse(w, ParseIdFailed, NumError(id, parsed.error));
        return;
      }
      var err := service.DeleteComment(parsed.value);
      if err.Some? {
        SendErrorResponse(w, GetByIdFailed, err.value);
        return;
      }
      SendOkResponse(w, Message(Response(DeleteSucceeded, "")));
    }

    /** Run handler `e`. */
    method Invoke(e: Endpoint, w: ResponseWriter, r: Request)
      requires w.Valid()
      modifies w, service
      ensures w.Valid()
      ensures var t := EndpointTrace(e, r, service.storage, old(service.calls));
              service.calls == old(service.calls) + t.calls && w.ops == old(w.ops) + t.ops
    {
      match e
      case GetComment => GetComment(w, r);
      case GetAllComments => GetAllComments(w, r);
      case PostComment => PostComment(w, r);
      case DeleteComment => DeleteComment(w, r);
      case UpdateComment => UpdateComment(w, r);
      case Health => HealthCheck(w);
    }

    /**
     * Serve a request through `chain` around handler `e`, outermost
     * interceptor first.
     */
    method Serve(chain: seq<Interceptor>, e: Endpoint, w: ResponseWriter, r: Request,
                 logger: Logger, parse: string -> ParsedToken) returns (panicked: bool)
      requires w.Valid()
      modifies w, service, logger
      decreases |chain|, 1
      ensures w.Valid()
      ensures var t := Routing.Serve(chain, e, r, service.storage, old(service.calls), parse);
              && logger.entries == old(logger.entries) + t.logs
              && service.calls == old(service.calls) + t.calls
              && w.ops == old(w.ops) + t.ops
              && panicked == t.panicked
    {
      if chain == [] {
        Invoke(e, w, r);
        assert w.ops == old(w.ops) + EndpointTrace(e, r, service.storage, old(service.calls)).ops;
        return false;
      }
      assert chain == [chain[0]] + chain[1..];
      match chain[0]
      case Logging => panicked := LoggingInterceptor(chain[1..], e, w, r, logger, parse);
      case BasicAuth => panicked := BasicAuthInterceptor(chain[1..], e, w, r, logger, parse);
      case JwtAuth => panicked := JwtAuthInterceptor(chain[1..], e, w, r, logger, parse);
    }

    /** LoggingInterceptor(next): log method and path, then serve `next`. */
    method LoggingInterceptor(next: seq<Interceptor>, e: Endpoint, w: ResponseWriter, r: Request,
                              logger: Logger, parse: string -> ParsedToken) returns (panicked: bool)
      requires w.Valid()
      modifies w, service, logger
      decreases |next| + 1, 0
      ensures w.Valid()
      ensures var t := Routing.Serve([Logging] + next, e, r, service.storage, old(service.calls), parse);
              && logger.entries == old(logger.entries) + t.logs
              && service.calls == old(service.calls) + t.calls
              && w.ops == old(w.ops) + t.ops
              && panicked == t.panicked
    {
      logger.Log(RequestReceived(r.verb, r.path));
      panicked := Serve(next, e, w, r, logger, parse);
      assert ([Logging] + next)[1..] == next;
    }

    /** BasicAuthInterceptor(original): only admin / password reaches `original`. */
    method BasicAuthInterceptor(original: seq<Interceptor>, e: Endpoint, w: ResponseWriter, r: Request,
                                logger: Logger, parse: string -> ParsedToken) returns (panicked: bool)
      requires w.Valid()
      modifies w, service, logger
      decreases |original| + 1, 0
      ensures w.Valid()
      ensures var t := Routing.Serve([BasicAuth] + original, e, r, service.storage, old(service.calls), parse);
              && logger.entries == old(logger.entries) + t.logs
              && service.calls == old(service.calls) + t.calls
              && w.ops == old(w.ops) + t.ops
              && panicked == t.panicked
    {
      assert ([BasicAuth] + original)[1..] == original;
      logger.Log(Info(BasicAuthLog));
      if BasicAuthVerdict(r.basicAuth) == Proceed {
        panicked := Serve(original, e, w, r, logger, parse);
      } else {
        SendErrorResponse(w, UnauthorizedMessage, Unauthorized);
        panicked := false;
      }
    }

    /** JwtAuthInterceptor(original): only a valid bearer token reaches `original`. */
    method JwtAuthInterceptor(original: seq<Interceptor>, e: Endpoint, w: ResponseWriter, r: Request,
                              logger: Logger, parse: string -> ParsedToken) returns (panicked: bool)
      requires w.Valid()
      modifies w, service, logger
      decreases |original| + 1, 0
      ensures w.Valid()
      ensures var t := Routing.Serve([JwtAuth] + original, e, r, service.storage, old(service.calls), parse);
              && logger.entries == old(logger.entries) + t.logs
              && service.calls == old(service.calls) + t.calls
              && w.ops == old(w.ops) + t.ops
              && panicked == t.panicked
    {
      assert ([JwtAuth] + original)[1..] == original;
      logger.Log(Info(JwtAuthLog));
      var verdict := JwtVerdict(r.authorization, parse);
      if verdict == Proceed {
        panicked := Serve(original, e, w, r, logger, parse);
      } else if verdict == Refuse {
        SendErrorResponse(w, UnauthorizedMessage, Unauthorized);
        panicked := false;
      } else {
        // authHeader[0] on an empty slice: the request panics before writing
        panicked := true;
      }
    }

    /** Serve a request that mux matched to registration `k`. */
    method ServeHTTP(k: nat, w: ResponseWriter, r: Request, logger: Logger, parse: string -> ParsedToken)
      returns (panicked: bool)
      requires router != null && k < |router.routes|
      requires w.Valid()
      modifies w, service, logger
      ensures w.Valid()
      ensures var route := router.routes[k];
              var t := Routing.Serve(Chain(router.middlewares, route), route.endpoint, r,
                                     service.storage, old(service.calls), parse);
              && logger.entries == old(logger.entries) + t.logs
              && service.calls == old(service.calls) + t.calls
              && w.ops == old(w.ops) + t.ops
              && panicked == t.panicked
      ensures old(w.ops) == [] ==>
              if panicked then w.State() == Fresh
              else w.status.Some? && |w.body| == 1
    {
      var route := router.routes[k];
      panicked := Serve(Chain(router.middlewares, route), route.endpoint, w, r, logger, parse);
      OneEnvelopeOrPanic(Chain(router.middlewares, route), route.endpoint, r, service.storage, old(service.calls), parse);
      assert old(w.ops) == [] ==> w.ops == Routing.Serve(Chain(router.middlewares, route), route.endpoint, r,
                                                         service.storage, old(service.calls), parse).ops;
    }
  }
}
