/**
 * The exception handlers of src/api/middleware/error_handler.py: the status
 * to error-type table, the request-id fallback chain, the single-detail
 * envelope and the JSON response each handler builds from it.
 *
 * The bound correlation id, the UUID drawn for a generated id and the clock
 * reading for the timestamp are parameters.
 */
module ErrorHandler {
  import opened Base
  import opened ErrorSchema

  /** `error_type_mapping` in `http_exception_handler`. */
  const ErrorTypes: map<int, string> := map[
    400 := "VALIDATION_ERROR",
    401 := "AUTHENTICATION_ERROR",
    403 := "AUTHORIZATION_ERROR",
    404 := "NOT_FOUND",
    409 := "CONFLICT",
    422 := "VALIDATION_ERROR",
    500 := "INTERNAL_SERVER_ERROR",
    502 := "EXTERNAL_SERVICE_ERROR",
    504 := "TIMEOUT_ERROR"
  ]

  const UnknownError: string := "UNKNOWN_ERROR"

  /** `error_type_mapping.get(status, "UNKNOWN_ERROR")`. */
  function ErrorTypeFor(status: int): (t: string)
    ensures status == 400 || status == 422 ==> t == "VALIDATION_ERROR"
    ensures status == 401 ==> t == "AUTHENTICATION_ERROR"
    ensures status == 403 ==> t == "AUTHORIZATION_ERROR"
    ensures status == 404 ==> t == "NOT_FOUND"
    ensures status == 409 ==> t == "CONFLICT"
    ensures status == 500 ==> t == "INTERNAL_SERVER_ERROR"
    ensures status == 502 ==> t == "EXTERNAL_SERVICE_ERROR"
    ensures status == 504 ==> t == "TIMEOUT_ERROR"
    ensures t == "UNKNOWN_ERROR" <==> status !in ErrorTypes
  {
    if status in ErrorTypes then ErrorTypes[status] else UnknownError
  }

  /** `f"HTTP_{status}"`. */
  function HttpCode(status: int): (code: string)
    ensures |code| > 5 && code[..5] == "HTTP_"
    ensures code[5..] == IntToString(status) && ParseInt(code[5..]) == status
  {
    IntToStringRoundTrip(status);
    "HTTP_" + IntToString(status)
  }

  /** Distinct statuses get distinct codes, so the code identifies the status. */
  lemma HttpCodeInjective(a: int, b: int)
    requires HttpCode(a) == HttpCode(b)
    ensures a == b
  {
    assert ParseInt(HttpCode(a)[5..]) == a;
    assert ParseInt(HttpCode(b)[5..]) == b;
  }

  /**
   * The request id an envelope carries: the explicit argument when given,
   * else the bound correlation id when it is non-empty, else
   * `"req_"` followed by 8 hexadecimal digits of a fresh UUID.
   */
  function ResolveRequestId(explicit: Option<string>, bound: Option<string>, entropy: Uuid): (id: string)
    ensures explicit.Some? ==> id == explicit.value
    ensures explicit.None? && bound.Some? && bound.value != "" ==> id == bound.value
    ensures explicit.None? && (bound.None? || bound.value == "") ==> IsGeneratedId(id, 8) && id == GeneratedId(entropy, 8)
  {
    if explicit.Some? then explicit.value
    else if bound.Some? && bound.value != "" then bound.value
    else GeneratedId(entropy, 8)
  }

  /** The envelope `create_error_response` builds: one detail, no field, the resolved request id. */
  function ErrorEnvelope(statusCode: int, errorType: string, code: string, message: string,
                         requestId: Option<string>, bound: Option<string>, entropy: Uuid, now: Instant): (e: ErrorResponse)
    ensures e.error && e.timestamp == now && e.statusCode == statusCode && e.errorType == errorType
    ensures |e.details| == 1 && e.details[0] == ErrorDetail(code, message, None)
    ensures e.requestId == Some(ResolveRequestId(requestId, bound, entropy))
  {
    NewErrorResponse(statusCode, errorType, [NewErrorDetail(code, message)],
                     now, Some(ResolveRequestId(requestId, bound, entropy)))
  }

  /** `create_error_response` as written: the python-mode dump, which keeps the timestamp a `datetime`. */
  function CreateErrorResponseAsWritten(statusCode: int, errorType: string, code: string, message: string,
                                        requestId: Option<string>, bound: Option<string>, entropy: Uuid, now: Instant): (v: PyValue)
    ensures v.PyDict? && DictKeys(v.entries) == EnvelopeKeys
    ensures !JsonSerializable(v)
  {
    ModelDump(ErrorEnvelope(statusCode, errorType, code, message, requestId, bound, entropy, now), PythonMode)
  }

  /** `create_error_response` with a json-mode dump: the envelope in JSON types, nothing lost. */
  function CreateErrorResponse(statusCode: int, errorType: string, code: string, message: string,
                               requestId: Option<string>, bound: Option<string>, entropy: Uuid, now: Instant): (v: PyValue)
    ensures JsonSerializable(v)
    ensures LoadEnvelope(v) == Some(ErrorEnvelope(statusCode, errorType, code, message, requestId, bound, entropy, now))
  {
    var e := ErrorEnvelope(statusCode, errorType, code, message, requestId, bound, entropy, now);
    JsonDumpRoundTrip(e);
    ModelDump(e, JsonMode)
  }

  /** What `JSONResponse(status_code, content)` produces once it renders its body. */
  datatype Rendered =
    | JsonResponse(statusCode: int, content: PyValue)
    | RenderFailed   // `json.dumps` raised `TypeError`: the client gets a plain 500

  /** The body is rendered with `json.dumps`, which refuses values JSON cannot represent. */
  function RenderJson(statusCode: int, content: PyValue): (r: Rendered)
    ensures r.JsonResponse? <==> JsonSerializable(content)
    ensures r.JsonResponse? ==> r.statusCode == statusCode && r.content == content
  {
    if JsonSerializable(content) then JsonResponse(statusCode, content) else RenderFailed
  }

  /** The envelope `http_exception_handler` builds for `exc`; the request id is resolved before the call. */
  function HttpExceptionEnvelope(exc: HttpException, bound: Option<string>, entropy: Uuid, now: Instant): ErrorResponse {
    ErrorEnvelope(exc.statusCode, ErrorTypeFor(exc.statusCode), HttpCode(exc.statusCode), exc.detail,
                  Some(ResolveRequestId(None, bound, entropy)), bound, entropy, now)
  }

  /** `http_exception_handler` as written: every HTTP exception ends in a failed render. */
  function HttpExceptionHandlerAsWritten(exc: HttpException, bound: Option<string>, entropy: Uuid, now: Instant): (r: Rendered)
    ensures r == RenderFailed
  {
    var requestId := ResolveRequestId(None, bound, entropy);
    RenderJson(exc.statusCode,
      CreateErrorResponseAsWritten(exc.statusCode, ErrorTypeFor(exc.statusCode), HttpCode(exc.statusCode),
                                   exc.detail, Some(requestId), bound, entropy, now))
  }

  /**
   * `http_exception_handler` with a json-mode dump: the response status and
   * the envelope status are the exception's, the error type comes from the
   * table, the one detail is `HTTP_<status>` with the exception's detail,
   * and the request id is the bound correlation id or a generated one.
   * The exception's own headers are not copied onto the response.
   */
  function HttpExceptionHandler(exc: HttpException, bound: Option<string>, entropy: Uuid, now: Instant): (r: Rendered)
    ensures r.JsonResponse? && r.statusCode == exc.statusCode
    ensures LoadEnvelope(r.content) == Some(HttpExceptionEnvelope(exc, bound, entropy, now))
    ensures var e := HttpExceptionEnvelope(exc, bound, entropy, now);
            && e.statusCode == exc.statusCode && e.errorType == ErrorTypeFor(exc.statusCode)
            && e.details == [ErrorDetail(HttpCode(exc.statusCode), exc.detail, None)]
            && e.requestId == Some(ResolveRequestId(None, bound, entropy))
  {
    var requestId := ResolveRequestId(None, bound, entropy);
    RenderJson(exc.statusCode,
      CreateErrorResponse(exc.statusCode, ErrorTypeFor(exc.statusCode), HttpCode(exc.statusCode),
                          exc.detail, Some(requestId), bound, entropy, now))
  }

  /** The outbound-call exceptions of src/shared/http/exceptions.py, with the text `str(exc)` gives. */
  datatype ExternalServiceError =
    | TimeoutError(message: string)
    | NetworkError(message: string)
    | ServerError(message: string)

  /** The status, error type and code each external-service handler answers with. */
  function ExternalStatus(exc: ExternalServiceError): int {
    match exc
    case TimeoutError(_) => 504
    case NetworkError(_) => 502
    case ServerError(_) => 502
  }

  function ExternalErrorType(exc: ExternalServiceError): string {
    match exc
    case TimeoutError(_) => "TIMEOUT_ERROR"
    case NetworkError(_) => "NETWORK_ERROR"
    case ServerError(_) => "EXTERNAL_SERVICE_ERROR"
  }

  function ExternalCode(exc: ExternalServiceError): string {
    match exc
    case TimeoutError(_) => "REQUEST_TIMEOUT"
    case NetworkError(_) => "NETWORK_FAILURE"
    case ServerError(_) => "SERVER_ERROR"
  }

  /**
   * `timeout_exception_handler`, `network_exception_handler` and
   * `server_exception_handler`, with a json-mode dump: 504 TIMEOUT_ERROR
   * REQUEST_TIMEOUT, 502 NETWORK_ERROR NETWORK_FAILURE and 502
   * EXTERNAL_SERVICE_ERROR SERVER_ERROR, each with the exception's text
   * and the bound or a generated request id.
   */
  function ExternalServiceHandler(exc: ExternalServiceError, bound: Option<string>, entropy: Uuid, now: Instant): (r: Rendered)
    ensures r.JsonResponse? && r.statusCode == ExternalStatus(exc)
    ensures exc.TimeoutError? ==> r.statusCode == 504
    ensures exc.NetworkError? || exc.ServerError? ==> r.statusCode == 502
    ensures LoadEnvelope(r.content) == Some(ErrorEnvelope(ExternalStatus(exc), ExternalErrorType(exc), ExternalCode(exc),
                                                          exc.message, None, bound, entropy, now))
  {
    RenderJson(ExternalStatus(exc),
      CreateErrorResponse(ExternalStatus(exc), ExternalErrorType(exc), ExternalCode(exc), exc.message, None, bound, entropy, now))
  }

  /**
   * The external-service error types agree with the status table except
   * for network failures, which the table would call EXTERNAL_SERVICE_ERROR.
   */
  lemma ExternalErrorTypesAgainstTable(exc: ExternalServiceError)
    ensures ExternalErrorType(exc) == ErrorTypeFor(ExternalStatus(exc)) <==> !exc.NetworkError?
  {
  }

  /** Whatever the exception, the as-written handlers never produce a JSON body. */
  lemma ExternalServiceHandlerAsWrittenFails(exc: ExternalServiceError, bound: Option<string>, entropy: Uuid, now: Instant)
    ensures RenderJson(ExternalStatus(exc),
              CreateErrorResponseAsWritten(ExternalStatus(exc), ExternalErrorType(exc), ExternalCode(exc),
                                           exc.message, None, bound, entropy, now)) == RenderFailed
  {
  }
}
