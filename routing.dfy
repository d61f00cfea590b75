/**
 * The route table SetupRoutes builds and what serving one matched route
 * does: the router's middleware (logging) runs first, then the wrapper the
 * route was registered with (if any), then the handler.
 */
module Routing {
  import opened Wrappers
  import opened Api
  import opened NetHttp
  import opened Envelope
  import opened Jwt
  import opened Interceptors
  import opened Comments

  /** The interceptors of the transport layer. */
  datatype Interceptor = Logging | BasicAuth | JwtAuth

  /** The handlers a route can lead to. */
  datatype Endpoint = GetComment | GetAllComments | PostComment | DeleteComment | UpdateComment | Health

  /**
   * One `HandleFunc(template, handler)` registration, restricted by
   * `.Methods(verb)` to one method when `verb` is Some, open to every method
   * when it is None.
   */
  datatype Route = Route(verb: Option<string>, template: string, wrappers: seq<Interceptor>, endpoint: Endpoint)

  const HealthyMessage := "Healthy!"
  const RequestReceivedLog := "Request received"
  const BasicAuthLog := "Basic auth interceptor"
  const JwtAuthLog := "Jwt auth interceptor"

  /** The middleware installed with `h.Router.Use`. */
  const Middlewares: seq<Interceptor> := [Logging]

  /** The registrations of SetupRoutes, in order. */
  const CanonicalRoutes: seq<Route> := [
    Route(Some("GET"), "/api/comment/{id}", [], GetComment),
    Route(Some("GET"), "/api/comment", [], GetAllComments),
    Route(Some("POST"), "/api/comment", [JwtAuth], PostComment),
    Route(Some("DELETE"), "/api/comment/{id}", [], DeleteComment),
    Route(Some("PUT"), "/api/comment/{id}", [], UpdateComment),
    Route(None, "/api/health", [], Health)
  ]

  /** The chain a matched route runs: router middleware outermost, then the route's own wrapper. */
  function Chain(middlewares: seq<Interceptor>, route: Route): seq<Interceptor>
  {
    middlewares + route.wrappers
  }

  /**
   * The health handler's calls: it sets Content-Type and commits 200 itself,
   * then calls sendOkResponse, whose WriteHeader is superfluous.
   */
  function HealthOps(): seq<WriterOp>
  {
    [SetHeader(ContentType, JsonContentType), WriteHeader(StatusOK)]
    + OkOps(Message(Response(HealthyMessage, "")))
  }

  /** Everything one request does: log lines, service calls, writer calls, and whether it panicked. */
  datatype Trace = Trace(logs: seq<LogEntry>, calls: seq<Call>, ops: seq<WriterOp>, panicked: bool)

  function FromFlow(f: Flow): Trace
  {
    Trace([], f.calls, ReplyOps(f.reply), false)
  }

  /** Running a handler. */
  function EndpointTrace(e: Endpoint, r: Request, st: Storage, history: seq<Call>): Trace
  {
    match e
    case GetComment => FromFlow(GetCommentFlow(r, st, history))
    case GetAllComments => FromFlow(GetAllCommentsFlow(st, history))
    case PostComment => FromFlow(PostCommentFlow(r, st, history))
    case DeleteComment => FromFlow(DeleteCommentFlow(r, st, history))
    case UpdateComment => FromFlow(UpdateCommentFlow(r, st, history))
    case Health => Trace([], [], HealthOps(), false)
  }

  function Logged(entry: LogEntry, t: Trace): Trace
  {
    t.(logs := [entry] + t.logs)
  }

  /** An interceptor's refusal: sendErrorResponse(w, "unauthorized", errors.New("unauthorized")). */
  const Refused := Trace([], [], ErrorOps(UnauthorizedMessage, Unauthorized), false)

  /** A panic before anything is written. */
  const Panicked := Trace([], [], [], true)

  /**
   * Serving a request through `chain` (outermost first) around handler `e`.
   * Each interceptor reached logs one line; a panic happens before anything
   * is written or called; the service is called at most once.
   */
  function Serve(chain: seq<Interceptor>, e: Endpoint, r: Request, st: Storage,
                 history: seq<Call>, parse: string -> ParsedToken): (t: Trace)
    decreases |chain|
    ensures |t.logs| <= |chain| && (chain != [] ==> |t.logs| >= 1)
    ensures t.panicked ==> t.calls == [] && t.ops == []
    ensures |t.calls| <= 1
  {
    if chain == [] then EndpointTrace(e, r, st, history)
    else
      match chain[0]
      case Logging =>
        Logged(RequestReceived(r.verb, r.path), Serve(chain[1..], e, r, st, history, parse))
      case BasicAuth =>
        Logged(Info(BasicAuthLog),
          if BasicAuthVerdict(r.basicAuth) == Proceed then Serve(chain[1..], e, r, st, history, parse)
          else Refused)
      case JwtAuth =>
        Logged(Info(JwtAuthLog),
          match JwtVerdict(r.authorization, parse)
          case Proceed => Serve(chain[1..], e, r, st, history, parse)
          case Refuse => Refused
          case IndexPanic => Panicked)
  }

  /**
   * LoggingInterceptor logs method and path, then hands the same request to
   * the rest of the chain exactly once and adds nothing to the response.
   */
  lemma LoggingAlwaysDelegates(rest: seq<Interceptor>, e: Endpoint, r: Request, st: Storage,
                               history: seq<Call>, parse: string -> ParsedToken)
    ensures var inner := Serve(rest, e, r, st, history, parse);
            var t := Serve([Logging] + rest, e, r, st, history, parse);
            && t.logs == [RequestReceived(r.verb, r.path)] + inner.logs
            && t.calls == inner.calls && t.ops == inner.ops && t.panicked == inner.panicked
  {
    assert ([Logging] + rest)[1..] == rest;
  }

  /**
   * JwtAuthInterceptor runs the wrapped handler exactly when the verdict on
   * the Authorization header is Proceed. On Refuse it answers "unauthorized";
   * on IndexPanic (`authHeader[0]` of an empty, non-nil slice) it panics
   * having written nothing. In neither case is the service reached.
   */
  lemma JwtGuards(rest: seq<Interceptor>, e: Endpoint, r: Request, st: Storage,
                  history: seq<Call>, parse: string -> ParsedToken)
    ensures var inner := Serve(rest, e, r, st, history, parse);
            var t := Serve([JwtAuth] + rest, e, r, st, history, parse);
            && t.logs[0] == Info(JwtAuthLog)
            && (JwtVerdict(r.authorization, parse) == Proceed ==>
                  t.logs[1..] == inner.logs && t.calls == inner.calls && t.ops == inner.ops
                  && t.panicked == inner.panicked)
            && (JwtVerdict(r.authorization, parse) == Refuse ==>
                  t.calls == [] && t.ops == ErrorOps("unauthorized", Unauthorized) && !t.panicked)
            && (JwtVerdict(r.authorization, parse) == IndexPanic ==>
                  t.panicked && t.calls == [] && t.ops == [])
  {
    assert ([JwtAuth] + rest)[1..] == rest;
  }

  /** BasicAuthInterceptor: the same gate with the admin / password check. */
  lemma BasicAuthGuards(rest: seq<Interceptor>, e: Endpoint, r: Request, st: Storage,
                        history: seq<Call>, parse: string -> ParsedToken)
    ensures var inner := Serve(rest, e, r, st, history, parse);
            var t := Serve([BasicAuth] + rest, e, r, st, history, parse);
            var c := r.basicAuth;
            && (c.ok && c.user == "admin" && c.pass == "password" ==>
                  t.calls == inner.calls && t.ops == inner.ops && t.panicked == inner.panicked)
            && (!(c.ok && c.user == "admin" && c.pass == "password") ==>
                  t.calls == [] && t.ops == ErrorOps("unauthorized", Unauthorized) && !t.panicked)
  {
    assert ([BasicAuth] + rest)[1..] == rest;
  }

  /** The health handler on a fresh response: 200, "Healthy!", and its Content-Type is sent. */
  lemma HealthOnFreshResponse()
    ensures var w := Run(Fresh, HealthOps());
            && w.status == Some(StatusOK)
            && w.body == [Message(Response("Healthy!", ""))]
            && ContentType in w.sent && w.sent[ContentType] == JsonContentType
  {
    var pre := [SetHeader(ContentType, JsonContentType), WriteHeader(StatusOK)];
    RunAppend(Fresh, pre, OkOps(Message(Response(HealthyMessage, ""))));
    RunAppend(Fresh, [SetHeader(ContentType, JsonContentType)], [WriteHeader(StatusOK)]);
    assert pre == [SetHeader(ContentType, JsonContentType)] + [WriteHeader(StatusOK)];
    RunOne(Fresh, SetHeader(ContentType, JsonContentType));
    var w1 := Step(Fresh, SetHeader(ContentType, JsonContentType));
    RunOne(w1, WriteHeader(StatusOK));
    OkResponseEffect(Run(Fresh, pre), Message(Response(HealthyMessage, "")));
  }

  /** Each handler, on a fresh response, commits a status and encodes exactly one value. */
  lemma EndpointAnswersOnce(e: Endpoint, r: Request, st: Storage, history: seq<Call>)
    ensures var t := EndpointTrace(e, r, st, history);
            && !t.panicked && |t.calls| <= 1
            && Run(Fresh, t.ops).status.Some? && |Run(Fresh, t.ops).body| == 1
  {
    OkOnlyWhenEveryStepSucceeds(r, st, history);
    match e
    case Health => HealthOnFreshResponse();
    case GetComment => ReplyOnFreshResponse(GetCommentFlow(r, st, history).reply);
    case GetAllComments => ReplyOnFreshResponse(GetAllCommentsFlow(st, history).reply);
    case PostComment => ReplyOnFreshResponse(PostCommentFlow(r, st, history).reply);
    case DeleteComment => ReplyOnFreshResponse(DeleteCommentFlow(r, st, history).reply);
    case UpdateComment => ReplyOnFreshResponse(UpdateCommentFlow(r, st, history).reply);
  }

  /**
   * Whatever the chain, a request either panics having written nothing and
   * called nothing, or ends with exactly one envelope on a fresh response;
   * it calls the service at most once.
   */
  lemma {:induction false} OneEnvelopeOrPanic(chain: seq<Interceptor>, e: Endpoint, r: Request, st: Storage,
                                              history: seq<Call>, parse: string -> ParsedToken)
    ensures var t := Serve(chain, e, r, st, history, parse);
            && |t.calls| <= 1
            && (t.panicked ==> t.ops == [] && t.calls == [])
            && (!t.panicked ==> Run(Fresh, t.ops).status.Some? && |Run(Fresh, t.ops).body| == 1)
  {
    if chain == [] {
      EndpointAnswersOnce(e, r, st, history);
    } else {
      var t := Serve(chain, e, r, st, history, parse);
      var inner := Serve(chain[1..], e, r, st, history, parse);
      if !t.panicked {
        if t.ops == inner.ops {
          OneEnvelopeOrPanic(chain[1..], e, r, st, history, parse);
        } else {
          assert t.ops == ErrorOps(UnauthorizedMessage, Unauthorized);
          ReplyOnFreshResponse(ErrorReply(UnauthorizedMessage, Unauthorized));
        }
      }
    }
  }

  /**
   * In the table SetupRoutes builds, logging wraps every route and POST
   * /api/comment is the only route behind the bearer check; no route uses
   * basic auth.
   */
  lemma RoutePolicy()
    ensures forall i :: 0 <= i < |CanonicalRoutes| ==> Chain(Middlewares, CanonicalRoutes[i])[0] == Logging
    ensures forall i :: 0 <= i < |CanonicalRoutes| ==>
              (JwtAuth in CanonicalRoutes[i].wrappers <==>
               CanonicalRoutes[i].verb == Some("POST") && CanonicalRoutes[i].template == "/api/comment")
    ensures forall i :: 0 <= i < |CanonicalRoutes| ==> BasicAuth !in CanonicalRoutes[i].wrappers
  {
  }

  /**
   * GET, PUT and DELETE on /api/comment/{id} are open: what they do does not
   * depend on the Authorization header or the credentials.
   */
  lemma IdRoutesAreOpen(i: nat, r: Request, st: Storage, history: seq<Call>, parse: string -> ParsedToken)
    requires i < |CanonicalRoutes| && CanonicalRoutes[i].template == "/api/comment/{id}"
    ensures var route := CanonicalRoutes[i];
            Serve(Chain(Middlewares, route), route.endpoint, r, st, history, parse)
            == Logged(RequestReceived(r.verb, r.path), EndpointTrace(route.endpoint, r, st, history))
  {
    assert CanonicalRoutes[i].wrappers == [];
    assert Chain(Middlewares, CanonicalRoutes[i]) == [Logging];
  }

  /**
   * /api/health is registered for every method and answers "Healthy!" with
   * status 200 whatever the request,
   * without touching the service.
   */
  lemma HealthIsUnconditional(r: Request, st: Storage, history: seq<Call>, parse: string -> ParsedToken)
    ensures var route := CanonicalRoutes[5];
            var t := Serve(Chain(Middlewares, route), route.endpoint, r, st, history, parse);
            && route.verb == None && route.template == "/api/health"
            && t.calls == [] && !t.panicked && t.ops == HealthOps()
            && Run(Fresh, t.ops).status == Some(StatusOK)
            && Run(Fresh, t.ops).body == [Message(Response("Healthy!", ""))]
  {
    assert Chain(Middlewares, CanonicalRoutes[5]) == [Logging];
    HealthOnFreshResponse();
  }
}
