# Order API request-decision core, in Dafny

This project models the decision logic of a small FastAPI order service
(PosHub) and proves properties of it. The model covers:

- **The in-memory order store** (`OrderStore`). A process-wide list of
  orders is appended to by `create_order` and scanned in insertion order by
  `get_order`.
- **The order records** (`OrderSchema`). These are the validated input
  `OrderIn` (name length at most 128, non-negative amount, currency
  `[A-Z]{3}`) and the stored `OrderOut`, which is built from keyword
  arguments named by their aliases.
- **The order endpoints** (`OrderRoutes`). Each endpoint runs a scope guard,
  then request validation, then calls the shared service. Success is 201 or
  200; service exceptions become 404/409/400 outcomes.
- **The token service** (`JwtService`). This covers payload construction and
  expiry, the three-way verification outcome, and scope containment.
- **The authentication dependencies** (`AuthDependencies`). These extract
  the identity from a verified token and apply the 403 scope guard.
- **The token-issuing endpoints** (`AuthRoutes`).
- **The error envelope and its pydantic dump** (`ErrorSchema`).
- **The error mapper** (`ErrorHandler`). This covers the status-to-type
  table, `HTTP_<status>` codes, the request-id fallback chain and the
  handlers' JSON responses.
- **The correlation-id middleware** (`CorrelationId`). It selects an id,
  binds it, sets the response header, logs start and end events, and runs
  the log processor that adds the id.
- **The outbound GET** (`HttpClient`). This covers how each attempt's
  outcome is classified, the tenacity retry loop, and the client dependency.

`Base` holds the shared vocabulary:

- `Option` and `Result`;
- clock readings as integer seconds;
- 128-bit UUIDs with their hexadecimal and hyphenated text;
- `str(int)`;
- Python's repr of a list of strings;
- the Python values a JSON encoder receives;
- the framework's `HTTPException`.

Everything non-deterministic is a parameter: clock readings, `uuid4()`
values, what the network does on each attempt, and the outcome of decoding
a presented token. The order store, the correlation context, the event log
and the response headers are objects updated in place by methods. The rest
is functions and lemmas.

Where a Findings row names a bug, the code as written is modelled by its
own member and the rest of the model runs over the corrected definition. In
particular the order routes run over the corrected `create_order`, which
supplies `created_at`; over the service as written, `POST /orders` never
succeeds (`OrderRoutes.CreateOrderRouteAsWritten`).

Elsewhere, where the documented behaviour of the service and its code
disagree, the model follows the code:

- **Retries.** The retry policy is described as retrying timeouts and
  network failures. As written, it never retries (see Findings).
- **JSON error bodies.** Every error response is described as well-formed
  JSON. As written, the custom handlers cannot render their envelope (see
  Findings), and an exception no handler catches becomes the framework's
  plain 500.
- **Correlation header on errors.** The `X-Correlation-ID` header is
  described as set "even on error paths". The code sets it only when the
  downstream application returns a response. An exception that escapes
  passes through `dispatch` with no header and no end event.
  `CorrelationId.CorrelationIdMiddleware.Dispatch` states this.
- **Success log.** The success log is described as carrying the response
  size. The code logs only the URL and the status.

## Model

| member | source | states |
|---|---|---|
| OrderSchema.MatchesUpperRun | src/domain/schemas/order.py:11 | the pattern `^[A-Z]{n}$` holds exactly when the text has n characters, each in A-Z |
| OrderSchema.ValidateOrderIn | src/domain/schemas/order.py:8-15 | an `OrderIn` is accepted, unchanged, iff the name is at most 128 characters, the amount is at least 0 and the currency is exactly three letters A-Z; otherwise the error list is non-empty and names exactly the violated fields |
| OrderSchema.EmptyCustomerNameAccepted | src/domain/schemas/order.py:9 | there is no minimum length: an empty customer name passes validation |
| OrderSchema.SingleViolationRejects | src/domain/schemas/order.py:8-15 | any single violated constraint rejects the whole input and is reported |
| OrderSchema.FieldOfKeyword | src/domain/schemas/order.py:27-36 | with `populate_by_name`, a keyword fills a field iff it is that field's alias or its attribute name; any other keyword fills nothing |
| OrderSchema.KeywordsNameTheirField | src/domain/schemas/order.py:27-36 | each field is recovered from its alias ("order", "created_at", "nom_client", "montant", "devise", "created_by") and from its name ("order_id", "customer_name", "total_amount", "currency"), so no keyword fills two fields |
| OrderSchema.ByKeyword | src/domain/schemas/order.py:27-36 | a field is filled iff its alias or its name is among the keyword arguments, with the alias's value taking precedence |
| OrderSchema.UnknownKeywordIgnored | src/domain/schemas/order.py:27-36 | adding a keyword that names no field leaves the filled fields unchanged |
| OrderSchema.NameActsAsAlias | src/domain/schemas/order.py:36 | giving a field by its name fills exactly what giving it by its alias fills |
| OrderSchema.ModelDump | src/domain/schemas/order.py:26-32 | the dump has exactly the six aliased keys, with order id, creation time, name, amount, currency and creator under "order", "created_at", "nom_client", "montant", "devise" and "created_by" |
| OrderSchema.Construct | src/domain/schemas/order.py:26-32 | strict construction succeeds iff every required field is given with its declared type and `created_by` is absent, None or text; failures list exactly the rejected fields; an omitted `created_by` is absent |
| OrderSchema.ConstructReproducesFields | src/domain/schemas/order.py:26-32 | a constructed order dumps every given field back to the value it was given |
| OrderSchema.DumpConstructRoundTrip | src/domain/schemas/order.py:26-32 | constructing from an order's dump gives the same order back |
| OrderStore.NotFoundMessage | src/domain/services/order_service.py:30 | the not-found message contains the id's hyphenated text and "not found" |
| OrderStore.NotFoundMessageIdentifiesId | src/domain/services/order_service.py:30 | different ids give different not-found messages |
| OrderStore.LookupIsFirstMatch | src/domain/services/order_service.py:27-29 | lookup finds nothing iff no stored order has the id, and otherwise finds the earliest one that has it |
| OrderStore.LookupAfterAppend | src/domain/services/order_service.py:23-29 | appending never hides an earlier match, and the appended order is found under its id when no earlier order has it |
| OrderStore.CreatedOrderIsFound | src/domain/services/order_service.py:15-29 | creating under a fresh id keeps ids unique and makes the order findable under its id |
| OrderStore.CreateOrderAsWrittenRejected | src/domain/services/order_service.py:17-22 | the keyword arguments as written ("order", "nom_client", "montant", "devise") are always rejected, on the missing `created_at` alone |
| OrderStore.CreateOrderFieldsAccepted | src/domain/services/order_service.py:17-22 | with `created_at` supplied, construction succeeds with the input's name, amount and currency, the given id and no creator |
| OrderStore.OrderList.constructor | src/domain/services/order_service.py:11 | the store starts empty |
| OrderStore.OrderService.CreateOrder | src/domain/services/order_service.py:15-24 | appends exactly one order, and earlier entries are unchanged; the order carries the input's fields under the fresh id; the order is then found under that id; unique ids stay unique; no failure path, so `OrderAlreadyExists` is never raised |
| OrderStore.OrderService.GetOrder | src/domain/services/order_service.py:26-30 | changes nothing; succeeds iff some stored order has the id, returning the first in insertion order, which is what `Lookup` finds; otherwise fails with `OrderNotFound` and the message naming the id |
| OrderRoutes.AuthFailureOutcome | src/api/routes/orders.py:27 | a guard's HTTP exception is raised as is; a missing user id escapes unhandled |
| OrderRoutes.CreateErrorOutcome | src/api/routes/orders.py:31-35 | `OrderAlreadyExists` becomes 409 with the exception text; every other exception escapes |
| OrderRoutes.GetErrorOutcome | src/api/routes/orders.py:46-55 | not found becomes 404 with the exception text; `ValueError` becomes 400 "Invalid UUID format" (a branch no request reaches: the service raises only not-found, and a non-UUID path is refused with 422 first) |
| OrderRoutes.CreateOrderRouteAsWritten | src/api/routes/orders.py:23-35 | over the service as written, never 201: a guard failure or an invalid body is reported as usual, and every other request ends unhandled, a plain 500, because the record's validation error is not the caught exception |
| OrderRoutes.OrdersRouter.CreateOrder | src/api/routes/orders.py:23-35 | over the corrected service (first Findings row): an "orders:write" guard failure comes first and stores nothing; then validation errors are reported and nothing is stored; otherwise 201 with the service's order, which is appended and findable |
| OrderRoutes.OrdersRouter.GetOrder | src/api/routes/orders.py:38-55 | an "orders:read" guard failure comes first; then a path that is not a UUID is refused; otherwise 200 with the order `Lookup` finds, or 404 naming the id |
| OrderRoutes.OrdersRouter.CreateThenGet | src/api/routes/orders.py:17-20 | both endpoints share one service: an order created by POST is returned by GET on its id |
| JwtService.ExpiresAt | src/shared/auth/jwt_service.py:33-38 | expiry is issue time plus a non-zero delta; with no delta or a zero one (falsy) it is issue time plus 30 minutes |
| JwtService.CreateAccessToken | src/shared/auth/jwt_service.py:16-48 | the payload holds user_id and scopes unchanged, iat is the issue time, type is "access", and exp is given by `ExpiresAt` |
| JwtService.ZeroDeltaFallsBackToDefault | src/shared/auth/jwt_service.py:33 | a zero delta yields the 1800-second default lifetime |
| JwtService.VerifyToken | src/shared/auth/jwt_service.py:50-91 | succeeds iff the token decodes with type "access", returning the payload unchanged; an expired token gives "Token expiré"; an invalid token or a wrong type gives "Token invalide"; every failure is 401 with `WWW-Authenticate: Bearer` |
| JwtService.IssuedTokenVerifies | src/shared/auth/jwt_service.py:40-78 | a token this service issued, decoded intact, verifies to exactly its payload |
| JwtService.VerifyScopes | src/shared/auth/jwt_service.py:93-104 | true iff every required scope occurs among the token's scopes |
| JwtService.VerifyScopesIsSetContainment | src/shared/auth/jwt_service.py:104 | the check is set containment: order and duplicates are irrelevant |
| JwtService.EmptyRequirementPasses | src/shared/auth/jwt_service.py:104 | an empty requirement always passes |
| JwtService.VerifyScopesMonotonic | src/shared/auth/jwt_service.py:104 | granting more scopes never turns a passing check into a failing one |
| AuthDependencies.GetCurrentUser | src/api/dependencies/auth.py:23-45 | a token that does not verify fails with the verifier's exception; a payload without user_id fails (KeyError); otherwise the user has the payload's id and scopes, or no scopes when the claim is missing |
| AuthDependencies.ForbiddenDetailNamesEachScope | src/api/dependencies/auth.py:74-77 | the 403 detail names every required scope |
| AuthDependencies.RequireScopes | src/api/dependencies/auth.py:47-80 | authentication failures propagate before any scope check; an authenticated user passes iff it holds every required scope, unchanged; otherwise 403 with the scopes detail |
| AuthDependencies.RequireOrdersWrite | src/api/dependencies/auth.py:91 | passes exactly for a verified access token with a user id whose scopes include "orders:write" |
| AuthDependencies.RequireOrdersRead | src/api/dependencies/auth.py:92 | passes exactly for a verified access token with a user id whose scopes include "orders:read" |
| AuthDependencies.MissingScopesClaimIsForbidden | src/api/dependencies/auth.py:44-77 | a token without scopes authenticates with empty scopes and fails every non-empty guard with 403 |
| AuthDependencies.IssuedTokenPassesGuard | src/api/dependencies/auth.py:40-78 | issue, decode, guard: a token issued with the required scopes passes the guard as its user |
| AuthRoutes.GenerateToken | src/api/routes/auth.py:27-52 | the token is for the requested user and scopes; the response repeats the scopes in order, has type "bearer", announces minutes × 60 seconds, and its token verifies |
| AuthRoutes.AnnouncedLifetimeIsExact | src/api/routes/auth.py:45-50 | the announced expires_in is the token's real lifetime iff the minutes are non-zero; with 0 minutes the token lives 1800 s |
| AuthRoutes.GenerateOrdersWriteToken | src/api/routes/auth.py:55-80 | issued to the given user, "test-user" by default; scopes exactly ["orders:write", "orders:read"]; type "bearer"; expires_in 3600, equal to the token's real lifetime |
| AuthRoutes.OrdersWriteTokenDefaultsToTestUser | src/api/routes/auth.py:56 | called without a user id, the token is issued to "test-user" |
| AuthRoutes.OrdersWriteTokenPassesOrderGuards | src/api/routes/auth.py:68-79 | the orders-write token passes both order guards as its user |
| AuthRoutes.DefaultTokenIsRefusedByOrderGuards | src/api/routes/auth.py:14-16 | a token requested with the default (empty) scopes authenticates but fails both order guards |
| ErrorSchema.NewErrorDetail | src/shared/schemas/error.py:7-11 | code and message are the given ones; field defaults to absent |
| ErrorSchema.NewErrorResponse | src/shared/schemas/error.py:14-21 | error is true, timestamp is the clock reading, and the required fields and request id are as given |
| ErrorSchema.RequestIdDefaultsToAbsent | src/shared/schemas/error.py:21 | constructed without a request id, the envelope's request id is absent |
| ErrorSchema.ModelDump | src/shared/schemas/error.py:14-21 | the dump lists the six envelope keys in declaration order, and json.dumps accepts it iff it is a json-mode dump |
| ErrorSchema.JsonDumpRoundTrip | src/shared/schemas/error.py:14-21 | loading a json-mode dump gives the envelope back |
| ErrorHandler.ErrorTypeFor | src/api/middleware/error_handler.py:39-51 | the mapping is 400/422 VALIDATION_ERROR, 401 AUTHENTICATION_ERROR, 403 AUTHORIZATION_ERROR, 404 NOT_FOUND, 409 CONFLICT, 500 INTERNAL_SERVER_ERROR, 502 EXTERNAL_SERVICE_ERROR and 504 TIMEOUT_ERROR; UNKNOWN_ERROR iff the status is not in the table |
| ErrorHandler.HttpCode | src/api/middleware/error_handler.py:56 | the code is "HTTP_" followed by the status in decimal, which parses back to the status |
| ErrorHandler.HttpCodeInjective | src/api/middleware/error_handler.py:56 | the code determines the status |
| ErrorHandler.ResolveRequestId | src/api/middleware/error_handler.py:17-19 | the explicit id if given; else the bound correlation id if non-empty; else "req_" followed by 8 hex digits |
| ErrorHandler.ErrorEnvelope | src/api/middleware/error_handler.py:21-26 | error is true; exactly one detail, with the given code and message and no field; the resolved request id |
| ErrorHandler.CreateErrorResponseAsWritten | src/api/middleware/error_handler.py:13-28 | the python-mode dump has the envelope keys but is not JSON-serializable |
| ErrorHandler.CreateErrorResponse | src/api/middleware/error_handler.py:13-28 | the json-mode dump is serializable and loads back to the envelope |
| ErrorHandler.RenderJson | src/api/middleware/error_handler.py:61 | a JSON response with the given status and body exists iff the body is JSON-serializable |
| ErrorHandler.HttpExceptionHandlerAsWritten | src/api/middleware/error_handler.py:31-61 | as written, every HTTP exception fails to render |
| ErrorHandler.HttpExceptionHandler | src/api/middleware/error_handler.py:31-61 | the response status, envelope status and exception status are equal; the error type comes from the table; the one detail is `HTTP_<status>` with the exception's detail; the request id is the bound one or a generated one |
| ErrorHandler.ExternalServiceHandler | src/api/middleware/error_handler.py:64-103 | timeout gives 504 TIMEOUT_ERROR REQUEST_TIMEOUT; network gives 502 NETWORK_ERROR NETWORK_FAILURE; server gives 502 EXTERNAL_SERVICE_ERROR SERVER_ERROR; each carries the exception text |
| ErrorHandler.ExternalErrorTypesAgainstTable | src/api/middleware/error_handler.py:80-91 | the external handlers agree with the status table except network failures, which the table would call EXTERNAL_SERVICE_ERROR |
| ErrorHandler.ExternalServiceHandlerAsWrittenFails | src/api/middleware/error_handler.py:64-103 | as written, none of the three handlers produces a JSON body |
| CorrelationId.SelectCorrelationId | src/api/middleware/correlation_id.py:22-24 | a non-empty header is used verbatim; otherwise the id is "req_" followed by 12 hex digits, 16 characters in all; never empty |
| CorrelationId.SelectionIsStable | src/api/middleware/correlation_id.py:22-23 | an id passed on in the header is kept unchanged by the next selection |
| CorrelationId.CorrelationContext.constructor | src/api/middleware/correlation_id.py:10 | no id is bound initially |
| CorrelationId.CorrelationContext.Get | src/api/middleware/correlation_id.py:58-60 | returns the bound id |
| CorrelationId.CorrelationContext.Set | src/api/middleware/correlation_id.py:27 | binds the id |
| CorrelationId.Response.SetHeader | src/api/middleware/correlation_id.py:44 | sets the header, replacing any earlier value under that name |
| CorrelationId.Trace | src/api/middleware/correlation_id.py:30-53 | one start event first; an end event with the handler's status second iff the handler returned; every event carries the id |
| CorrelationId.CorrelationIdMiddleware.Dispatch | src/api/middleware/correlation_id.py:20-55 | binds the selected id, which the application sees; the log grows by exactly `Trace`; a returned response gets the handler's status and headers, with the correlation header overwritten by the id; an escaping exception yields no response |
| CorrelationId.Annotated | src/api/middleware/correlation_id.py:66-71 | with a non-empty bound id, correlation_id is set to it and all other fields are kept; otherwise the fields are unchanged |
| CorrelationId.AnnotatedIdempotent | src/api/middleware/correlation_id.py:66-71 | running the processor twice equals running it once |
| CorrelationId.AddCorrelationId | src/api/middleware/correlation_id.py:66-71 | changes the event dict in place to its `Annotated` fields and returns the same dict |
| CorrelationId.EventsDuringRequestCarryId | src/api/middleware/correlation_id.py:27-70 | while a request's id is bound, every log event carries it |
| HttpClient.ServerErrorMessage | src/shared/http/client.py:69 | the server-error message contains the status code |
| HttpClient.Attempt | src/shared/http/client.py:30-76 | 2xx returns the parsed JSON, or fails on an unparsable body; a timeout gives TimeoutError("Request timed out"); a network failure gives NetworkError("Network error occurred"); status ≥ 500 gives ServerError naming the status; other non-2xx statuses re-raise the status error; other httpx errors escape |
| HttpClient.AttemptLog | src/shared/http/client.py:31-75 | each attempt logs a start event, then the outcome's event: success for 2xx, timeout, network_error, server_error for 500 and above, client_error for other statuses, and none for other httpx errors |
| HttpClient.Run | src/shared/http/client.py:15-20 | a retried call makes between 1 and 2 attempts |
| HttpClient.RetryingGet | src/shared/http/client.py:15-20 | the loop returns the result, the number of GETs and the log that `Run` defines; 1 to 2 GETs; a success is the last GET's body |
| HttpClient.AsWrittenPredicateNeverHolds | src/shared/http/client.py:18-60 | no exception leaving an attempt is an httpx timeout or network error |
| HttpClient.AsWrittenMakesOneAttempt | src/shared/http/client.py:15-20 | as written, every call makes exactly one GET and ends with that GET's result and log |
| HttpClient.TransientFailureIsRetried | src/shared/http/client.py:15-20 | with the intended predicate, a first timeout or network failure is retried once and the second GET decides the call; any other first result is final |
| HttpClient.TransientMeansTimeoutOrNetwork | src/shared/http/client.py:46-60 | an attempt fails transiently iff the transport timed out or failed at the network level |
| HttpClient.TimeoutBecomesGatewayTimeout | src/shared/http/client.py:46-52 | a call whose GET times out makes one GET and raises `TimeoutError("Request timed out")`; the timeout handler, with the json-mode dump, answers it with 504 and an envelope carrying that message |
| HttpClient.GetHttpClient | src/shared/http/client.py:79-85 | returns the stored client; fails with "HTTP client not initialized" iff none is stored |
| Base.GeneratedId | src/api/middleware/correlation_id.py:24 | a generated id is "req_" followed by n lower-case hexadecimal digits |
| Base.ListReprMentions | src/api/dependencies/auth.py:76 | the repr of a list of strings contains every element |

## Left out

- JWT signing and decoding, including the library's own expiry comparison. A presented token is modelled by its decode outcome (`JwtService.DecodeResult`), and an issued token by its payload.
- Clock readings (`datetime.utcnow`) and randomness (`uuid4`). Both are parameters. Order-id freshness is a precondition of order creation.
- The ISO text of timestamps, and the characters of `repr` for strings containing quotes, backslashes or unprintable characters.
- `HTTPBearer` header parsing. A request without valid `Authorization: Bearer` credentials is refused with an HTTP exception before `get_current_user` runs. That exception passes through the correlation-id middleware and reaches the HTTP exception handler like any other (`ErrorHandler.HttpExceptionHandler`, or `ErrorHandler.HttpExceptionHandlerAsWritten` as written); the credential parsing itself is not modelled.
- FastAPI routing and dependency resolution, and the default 422 response body. The routes model the order in which guards and validation apply.
- Strict type checking of the request body. `OrderIn` arrives with typed fields; only the three constraints are checked.
- AuthDependencies.GetCurrentUser: a payload whose `user_id` or `scopes` claims have non-string types is not modelled; pydantic would reject it.
- The JSON encoding of successful responses. The by-alias dump that `response_model` produces is `OrderSchema.ModelDump`; the encoding of its UUID, datetime and float values as JSON text is left out.
- Header names with upper-case letters in the application's response. Starlette stores header names in lower case, and `CorrelationId.HandlerResult` assumes they arrive that way.
- The HTTP exception handler ignores the exception's own headers, so a 401 response carries no `WWW-Authenticate`. No header field is modelled on `ErrorHandler.Rendered`.
- Concurrency. The correlation context is passed explicitly as an object rather than being coroutine-local. Interleaving of requests is not modelled.
- Log events other than the fields listed: query parameters, user agent and client address of `request.start`; URL, params and error text of the client's events. structlog configuration and rendering are also left out.
- Tenacity's exponential waits (4 to 10 seconds), the 10-second request timeout and the network itself. The transport's behaviour on each attempt is an input.
- Floating point. Amounts are real numbers; only their sign is checked.
- `timedelta` overflow for very large `expires_in_minutes`.
- Signature checking. Its algorithm and configuration are kept only as constants (30 minutes, "HS256").
- The app lifespan, AWS parameter retrieval, the `/external-demo` and `/health` routes, and the scripts. These are I/O and wiring.

## Findings

| source | as written | input that shows it | evidently intended | confidence | as-written member | corrected member |
|---|---|---|---|---|---|---|
| src/domain/services/order_service.py:17-22 | `OrderOut(...)` is built without `created_at`, which src/domain/schemas/order.py:28 declares required, so construction always raises a validation error and nothing is stored | any valid order, e.g. nom_client "John Doe", montant 99.99, devise "EUR" | pass the creation time as `created_at`, so that the order is stored and returned | high; not executed | OrderStore.CreateOrderAsWrittenRejected | OrderStore.OrderService.CreateOrder |
| src/shared/http/client.py:15-20 | the retry predicate tests for httpx timeout and network exceptions, but the body has already converted those into the repository's `TimeoutError`/`NetworkError`, so it never holds and every call makes one GET | a first GET that times out, then a second that would succeed | retry a timeout or network failure once | high; not executed | HttpClient.AsWrittenMakesOneAttempt | HttpClient.TransientFailureIsRetried |
| src/api/middleware/error_handler.py:28 | `model_dump()` keeps the timestamp a `datetime`, and `JSONResponse` renders with `json.dumps`, which rejects it, so every custom error handler fails and the client gets a plain 500 | GET /orders/{id} for an unknown id with a valid read token (a 404) | dump in json mode so the envelope renders | high; not executed | ErrorHandler.HttpExceptionHandlerAsWritten | ErrorHandler.HttpExceptionHandler |
