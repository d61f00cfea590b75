# comments-api transport layer, modelled in Dafny

This project models the HTTP transport layer of the comments API: the
request-decision logic in `internal/transport/http`. It covers:

- the two authentication interceptors (basic auth and the bearer/JWT check)
  and the logging interceptor;
- the route table that `SetupRoutes` builds, including the health route;
- the response envelope written by `sendOkResponse` and `sendErrorResponse`;
- the five comment handlers (get one, list, create, update, delete).

Each handler is a short-circuiting pipeline: decode the body and/or parse the
`id` path variable, call the comment service, then write one envelope.

Layout, one module per component:

| file | module | models |
|---|---|---|
| `wrappers.dfy` | `Wrappers` | Go's `(value, error)` results and nil-able values |
| `gostrings.dfy` | `GoStrings` | `strings.Split` with a one-character separator, `strings.Join`, `strings.ToLower` |
| `strconv.dfy` | `Strconv` | `strconv.ParseUint(id, 10, 64)`: a specification function, a scanning method proved against it, and `FormatUint` for the round trip |
| `api.dfy` | `Api` | comment, `Response`, payloads, error values, service calls, requests |
| `nethttp.dfy` | `NetHttp` | `http.ResponseWriter`. WriteHeader commits the status and takes a snapshot of the header map. Later header changes are not sent. |
| `envelope.dfy` | `Envelope` | `sendOkResponse` / `sendErrorResponse` |
| `jwt.dfy` | `Jwt` | `validateToken` over an abstract token parser |
| `interceptors.dfy` | `Interceptors` | the accept/refuse decisions of the two auth interceptors |
| `comments.dfy` | `Comments` | the five handlers as pure flows: the service calls each makes and its final envelope |
| `routing.dfy` | `Routing` | the route table and what serving a route through its interceptor chain does |
| `transport.dfy` | `Transport` | `Handler`, `Router`, `Service` and `Logger` as classes. Their methods are proved to match the pure flows. |

The comment service (`comment.Service`) is not part of this model. It is a
class that records every call it receives. Its answers come from a `Storage`
value: an arbitrary function of the earlier calls and the arguments. No
storage laws are assumed.

The verifier proves these points:

- the bearer check lets a request through exactly when the first
  `Authorization` value is a six-letter spelling of "bearer" in any case,
  then one space, then a token with no space that validates;
- only the first `Authorization` value is examined;
- a doubled space, or no space at all, is refused;
- the id parse accepts exactly the non-empty digit strings whose value is at
  most 2^64 − 1;
- rendering an id in decimal and parsing it back gives the same id;
- every request panics having written nothing, or writes exactly one
  envelope and calls the service at most once;
- every envelope commits its status before setting Content-Type, so the
  JSON Content-Type the envelope sets never reaches the wire, except on the
  health route, which sets the header itself first.

The model follows the code as written:

- the `Authorization` value is split on a single space (`strings.Split`,
  handler.go:80), not on runs of whitespace;
- every failure, including an authentication refusal, is answered with
  status 500 (handler.go:119);
- the status is committed before Content-Type is set, not after
  (handler.go:113-114).

## Model

| member | source | states |
|---|---|---|
| `GoStrings.Split` | internal/transport/http/handler.go:80 | `strings.Split` on " " yields at least one part and no part contains the separator |
| `GoStrings.JoinSplit` | internal/transport/http/handler.go:80 | joining the parts of a split with the separator gives back the header value |
| `GoStrings.SplitJoin` | internal/transport/http/handler.go:80 | splitting a join of separator-free parts gives back the parts |
| `GoStrings.SplitCount` | internal/transport/http/handler.go:80-81 | the part count is the number of spaces plus one, so "exactly two parts" means exactly one space |
| `GoStrings.ToLower` | internal/transport/http/handler.go:81 | lower-casing keeps the length and maps each character on its own |
| `Strconv.ParseUintSpec` | internal/transport/http/comment.go:15 | `strconv.ParseUint(id, 10, 64)` on the whole string: the empty id is a syntax error; a success is an all-digit id whose value is at most 2^64 − 1 and is the result |
| `Strconv.ParseUint` | internal/transport/http/comment.go:15 | the left-to-right base-10 scan returns exactly what `ParseUintSpec` says: syntax error on empty input or a non-digit, range error once the leading digits exceed 2^64 − 1, else the value |
| `Strconv.ParseUintAccepts` | internal/transport/http/comment.go:15 | the parse succeeds iff the id is non-empty, all ASCII digits, and at most 2^64 − 1; the value is then the decimal value of the digits |
| `Strconv.ParseUintRejectsNonDigit` | internal/transport/http/comment.go:15-19 | any character that is not a digit (a sign, a space, a letter) makes the parse fail |
| `Strconv.ParseUintOverflow` | internal/transport/http/comment.go:15-19 | an all-digit id above 2^64 − 1 fails with a range error |
| `Strconv.FormatUint` | internal/transport/http/comment.go:15 | the decimal rendering of a number is a non-empty digit string without a leading zero (the partner of the parse) |
| `Strconv.ParseFormatRoundTrip` | internal/transport/http/comment.go:15 | for every n ≤ 2^64 − 1, parsing the decimal rendering of n yields n |
| `Strconv.FormatParsedCanonical` | internal/transport/http/comment.go:15 | an accepted id without leading zeros is exactly the decimal rendering of its value |
| `NetHttp.Commit` | internal/transport/http/handler.go:113 | committing a status when one is already committed changes nothing; otherwise it commits the code and sends the header map as it is at that moment |
| `NetHttp.Step` | internal/transport/http/handler.go:113-115 | one writer call: Set changes only the header map; WriteHeader and Encode leave a status committed and never change the map; a committed status and sent header stay; only Encode adds to the body, exactly its value |
| `NetHttp.RunAppend` | internal/transport/http/handler.go:112-124 | performing two sequences of writer calls is performing them one after the other |
| `Envelope.StatusThenHeaderThenBody` | internal/transport/http/handler.go:113-115 | from any state, WriteHeader, Set, Encode commits the code only if nothing was committed, leaves the sent header as it was at commit time, sets Content-Type in the map only, and appends one value |
| `NetHttp.CommittedIsFinal` | internal/transport/http/handler.go:113-114 | once a status is committed, later calls change neither the status nor the header that was sent |
| `NetHttp.BodyGrowsByWrites` | internal/transport/http/handler.go:115 | each encode adds exactly one value to the body and nothing else does |
| `NetHttp.ResponseWriter.constructor` | internal/transport/http/handler.go:112 | a fresh response has no header, no committed status and an empty body |
| `NetHttp.ResponseWriter.SetHeader` | internal/transport/http/handler.go:114 | `Header().Set` changes only the header map, never the committed status or the sent header |
| `NetHttp.ResponseWriter.WriteHeader` | internal/transport/http/handler.go:113 | `WriteHeader` commits the code and snapshots the header only if nothing was committed yet |
| `NetHttp.ResponseWriter.Write` | internal/transport/http/handler.go:115 | encoding commits 200 if nothing was committed, then appends the value |
| `Envelope.SendOkResponse` | internal/transport/http/handler.go:112-116 | makes the calls WriteHeader(200), Set Content-Type, Encode(resp), in that order |
| `Envelope.SendErrorResponse` | internal/transport/http/handler.go:118-124 | makes the calls WriteHeader(500), Set Content-Type, Encode(Response{message, err.Error()}), in that order |
| `Envelope.OkResponseEffect` | internal/transport/http/handler.go:112-116 | status 200 unless already committed; body gains exactly `resp`; the sent header is the one from before the call |
| `Envelope.ErrorResponseEffect` | internal/transport/http/handler.go:118-124 | status 500 unless already committed; body gains exactly `Response{message, err.Error()}` |
| `Envelope.ContentTypeNeverSent` | internal/transport/http/handler.go:113-114 | because WriteHeader precedes the Set, neither envelope puts its JSON Content-Type on the wire of a fresh response |
| `Envelope.ReplyOnFreshResponse` | internal/transport/http/handler.go:112-124 | on a fresh response an envelope commits 200 for ok and 500 for every error and encodes exactly one value |
| `Jwt.ValidateToken` | internal/transport/http/handler.go:58-70 | a token is valid iff it parses, is HMAC-signed, its claims are valid and its signature verifies under "secretsecret" |
| `Jwt.NonHmacRejected` | internal/transport/http/handler.go:61-63 | a token with a non-HMAC signing method is never valid |
| `Interceptors.BasicAuthVerdict` | internal/transport/http/handler.go:47-53 | proceeds iff `ok` and user is "admin" and password is "password"; otherwise refuses |
| `Interceptors.JwtVerdict` | internal/transport/http/handler.go:75-90 | proceeds iff the header exists, its first value is bearer-shaped (split gives 2 parts, the first is "bearer" in any case) and the token validates; panics iff the header slice is empty but not nil; otherwise refuses |
| `Interceptors.BearerSplit` | internal/transport/http/handler.go:80-81 | the split-based check (2 parts, first lower-cases to "bearer") is the same as the bearer shape, and part 1 is the token |
| `Interceptors.JwtMissingHeader` | internal/transport/http/handler.go:76-79 | a nil Authorization header is refused whatever the token parser would say |
| `Interceptors.JwtFirstValueOnly` | internal/transport/http/handler.go:80 | only `authHeader[0]` is examined |
| `Interceptors.JwtNeedsExactlyOneSpace` | internal/transport/http/handler.go:80-84 | a value with no space or with more than one space is refused |
| `Interceptors.JwtDoubleSpaceRefused` | internal/transport/http/handler.go:80-84 | `scheme + "  " + token` (a doubled space) is always refused |
| `Interceptors.JwtSchemeAndToken` | internal/transport/http/handler.go:80-90 | `scheme + " " + token` proceeds iff the scheme is six letters equal to "bearer" up to case, the token has no space, and the token validates |
| `Interceptors.JwtSchemeCaseInsensitive` | internal/transport/http/handler.go:81 | two schemes equal after lower-casing ("Bearer", "BEARER", "bearer") get the same verdict |
| `Api.GoError.Text` | internal/transport/http/comment.go:15-17 | `err.Error()`: "unauthorized" for the interceptors' error (handler.go:51, 77, 82, 88); a parse error's text starts with `strconv.ParseUint: parsing "` followed by the rejected id |
| `Api.NumErrorTextInjective` | internal/transport/http/comment.go:15-17 | two parse errors with the same text were raised for the same id and the same kind of error |
| `Api.Request.IdVar` | internal/transport/http/comment.go:13-14 | `mux.Vars(r)["id"]`: the path variable when the route supplied one, the empty string otherwise |
| `Comments.GetCommentFlow` | internal/transport/http/comment.go:12-28 | GetComment calls the service once exactly when the id parses, answers ok only after that call, and reports failures only as "Could not parse the supplied ID to uint" or "Error retrieving comment by id" |
| `Comments.GetAllCommentsFlow` | internal/transport/http/comment.go:30-39 | GetAllComments always makes one call, answers ok exactly when it succeeds, and otherwise reports "Error retrieving all comments" |
| `Comments.PostCommentFlow` | internal/transport/http/comment.go:41-55 | PostComment calls the service once exactly when the body decodes, answers ok only after that call, and reports failures only as "Failed decoding incoming request" or "Error retrieving all comments" |
| `Comments.UpdateCommentFlow` | internal/transport/http/comment.go:57-78 | UpdateComment calls the service once exactly when the body decodes and the id parses, answers ok only after that call, and reports failures only with the decode, parse or "Error retrieving all comments" messages |
| `Comments.DeleteCommentFlow` | internal/transport/http/comment.go:80-96 | DeleteComment calls the service once exactly when the id parses, answers ok only after that call, and reports failures only as "Could not parse the supplied ID to uint" or "Error retrieving comment by id" |
| `Comments.IdParseFailureShortCircuits` | internal/transport/http/comment.go:13-19 | GetComment, DeleteComment and (with a good body) UpdateComment report "Could not parse the supplied ID to uint" with the parse error and call nothing |
| `Comments.GetCommentOutcome` | internal/transport/http/comment.go:20-27 | one call with the parsed id; a service error gives "Error retrieving comment by id", otherwise the reply carries exactly the comment returned |
| `Comments.UpdateDecodesFirst` | internal/transport/http/comment.go:59-63 | a body that fails to decode gives "Failed decoding incoming request" whatever the id, with no service call |
| `Comments.UpdatePassesIdAndComment` | internal/transport/http/comment.go:64-77 | with a good body and id the service gets the parsed id and the decoded comment, and its answer is what is returned |
| `Comments.PostCommentOutcome` | internal/transport/http/comment.go:41-55 | a decode failure stops before the service; a service failure reports "Error retrieving all comments", the same text UpdateComment uses |
| `Comments.FixedAndPassThroughPayloads` | internal/transport/http/comment.go:30-96 | a successful delete answers `Response{"Comment deleted succesfully", ""}`; GetAllComments returns the service's list unchanged or "Error retrieving all comments" |
| `Comments.OkOnlyWhenEveryStepSucceeds` | internal/transport/http/comment.go:12-96 | each handler answers ok iff every earlier step succeeded, and calls the service exactly when its decode/parse steps succeeded |
| `Routing.Serve` | internal/transport/http/handler.go:33-92 | serving through an interceptor chain: each interceptor reached logs one line, a panic comes before anything is written or called, and the service is called at most once |
| `Routing.LoggingAlwaysDelegates` | internal/transport/http/handler.go:33-42 | logging adds one "Request received" entry and hands the same request to the rest of the chain exactly once, adding nothing to the response |
| `Routing.JwtGuards` | internal/transport/http/handler.go:72-92 | on Proceed the wrapped handler runs and its logs, calls, writes and panic are the request's; on Refuse the answer is the "unauthorized" error; on IndexPanic (empty, non-nil header slice) the request panics having written nothing; only Proceed reaches the service |
| `Routing.BasicAuthGuards` | internal/transport/http/handler.go:44-56 | the wrapped handler runs iff the credentials are the well-formed admin/password pair; otherwise "unauthorized" and no call |
| `Routing.HealthOnFreshResponse` | internal/transport/http/handler.go:103-109 | the health handler commits 200, encodes `Response{"Healthy!", ""}`, and, having set Content-Type first, sends it |
| `Routing.EndpointAnswersOnce` | internal/transport/http/comment.go:12-96 | every handler commits a status, encodes exactly one value and makes at most one service call |
| `Routing.OneEnvelopeOrPanic` | internal/transport/http/handler.go:72-92 | through any interceptor chain a request either panics having written and called nothing, or ends with exactly one envelope |
| `Routing.RoutePolicy` | internal/transport/http/handler.go:97-109 | logging wraps every route; POST /api/comment is the only route behind the bearer check; no route uses basic auth |
| `Routing.IdRoutesAreOpen` | internal/transport/http/handler.go:98-102 | GET, PUT and DELETE on /api/comment/{id} behave the same whatever the Authorization header or credentials |
| `Routing.HealthIsUnconditional` | internal/transport/http/handler.go:103-109 | /api/health is registered for every method and answers 200 "Healthy!" to every request, without calling the service |
| `Transport.Service.GetComment` | internal/transport/http/comment.go:20 | records the call with its id and returns what the storage answers given the earlier calls |
| `Transport.Service.GetAllComments` | internal/transport/http/comment.go:31 | records the call and returns what the storage answers given the earlier calls |
| `Transport.Service.PostComment` | internal/transport/http/comment.go:47 | records the call with its comment and returns what the storage answers given the earlier calls |
| `Transport.Service.UpdateComment` | internal/transport/http/comment.go:70 | records the call with its id and comment and returns what the storage answers given the earlier calls |
| `Transport.Service.DeleteComment` | internal/transport/http/comment.go:88 | records the call with its id and returns the storage's error, if any |
| `Transport.Router.Use` | internal/transport/http/handler.go:97 | appends a middleware and leaves the registrations alone |
| `Transport.Router.HandleFunc` | internal/transport/http/handler.go:98-102 | appends one registration: template, wrappers, handler, and the method it is restricted to (none for a registration without `.Methods`) |
| `Transport.Handler.constructor` | internal/transport/http/handler.go:27-31 | a handler holds the given service and no router yet |
| `Transport.Handler.SetupRoutes` | internal/transport/http/handler.go:94-110 | installs a fresh router whose middleware is [logging] and whose registrations are the six canonical routes, the health route open to every method; logs "Routes setup" |
| `Transport.Handler.HealthCheck` | internal/transport/http/handler.go:103-109 | makes the calls Set Content-Type, WriteHeader(200), then sendOkResponse("Healthy!") |
| `Transport.Handler.GetComment` | internal/transport/http/comment.go:12-28 | service calls and writer calls are exactly those of `GetCommentFlow` |
| `Transport.Handler.GetAllComments` | internal/transport/http/comment.go:30-39 | service calls and writer calls are exactly those of `GetAllCommentsFlow` |
| `Transport.Handler.PostComment` | internal/transport/http/comment.go:41-55 | service calls and writer calls are exactly those of `PostCommentFlow` |
| `Transport.Handler.UpdateComment` | internal/transport/http/comment.go:57-78 | service calls and writer calls are exactly those of `UpdateCommentFlow` |
| `Transport.Handler.DeleteComment` | internal/transport/http/comment.go:80-96 | service calls and writer calls are exactly those of `DeleteCommentFlow` |
| `Transport.Handler.Invoke` | internal/transport/http/handler.go:98-109 | running the handler a route names makes exactly the service and writer calls of that handler's flow |
| `Transport.Handler.Serve` | internal/transport/http/handler.go:33-92 | serving through any interceptor chain makes exactly the log entries, service calls and writer calls `Routing.Serve` gives, and panics exactly when it says |
| `Transport.Handler.LoggingInterceptor` | internal/transport/http/handler.go:33-42 | logs once, then serves the rest of the chain; its effects are those of `Routing.Serve` |
| `Transport.Handler.BasicAuthInterceptor` | internal/transport/http/handler.go:44-56 | runs the rest of the chain or writes the unauthorized error, as `Routing.Serve` says |
| `Transport.Handler.JwtAuthInterceptor` | internal/transport/http/handler.go:72-92 | runs the rest of the chain, writes the unauthorized error, or panics, as `Routing.Serve` says |
| `Transport.Handler.ServeHTTP` | internal/transport/http/handler.go:97-102 | serving a matched route runs router middleware and then the route's wrapper; its effects are those of `Routing.Serve` on the route's chain; on a fresh response it ends with a committed status and exactly one encoded value, or it panicked and wrote nothing |

## Left out

- Process bootstrap (`cmd/server/main.go`) and the database connection (`internal/database/database.go`) are environment reads, network and I/O, and are not modelled.
- gorilla/mux path matching is not modelled: `Transport.Handler.ServeHTTP` receives the index of the route mux matched, and `mux.Vars` is given as a map. So 404/405 answers for unmatched requests are not covered.
- encoding/json is not modelled. The decode outcome is part of the request (`Request.body`). Encoding is taken to succeed, so the `panic` on encode failure and the logged encode error in sendErrorResponse are not modelled. The body is the sequence of encoded values, not bytes.
- `r.BasicAuth()` header parsing is not modelled: its (user, password, ok) result is an independent input, not derived from the Authorization value.
- jwt-go parsing and signature cryptography are not modelled. What the library learns from a token is an abstract `ParsedToken`-valued parameter.
- The comment package (`comment.Service`, `comment.Comment`) is not part of this model. Service answers are arbitrary functions of earlier calls, so storage laws such as "a deleted id is no longer found" are not stated. A comment is an id plus opaque content.
- GoStrings.ToLower: maps ASCII letters only. Go's full Unicode case mapping is not modelled.
- Api.GoError.Text: the strconv error text quotes the id with plain double quotes. strconv.Quote's escaping of special characters is not modelled.
- The header that net/http derives by sniffing the body when no Content-Type was sent is not modelled. Only the header map snapshot taken at commit time is.
- Logging keeps only the message (and, for "Request received", the method and path). logrus levels and formatting are not modelled.
- Concurrent serving of requests is not modelled. Each request is served on its own, and the service's call history stands for everything that happened before.
- `uint` is assumed to be 64 bits wide, so `uint(i)` does not truncate the parsed id.
