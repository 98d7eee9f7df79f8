/**
 * The outbound GET of src/shared/http/client.py: how one attempt's outcome
 * is classified into a returned body or a raised exception, the retry
 * decorator around it, and the dependency that hands out the shared client.
 *
 * What the network does on the n-th attempt is an input (`transport(n)`);
 * the waits between attempts are not modelled.
 */
module HttpClient {
  import opened Base
  import opened ErrorSchema
  import opened ErrorHandler

  /** What one `client.get(...)` call does. */
  datatype Transport =
    | Answered(statusCode: int, body: Option<PyValue>)  // a response; `body` is `None` when it is not JSON
    | TimedOut                                           // an `httpx.TimeoutException`
    | NetworkFailed                                      // an `httpx.NetworkError`
    | OtherTransportError                                // any other httpx error, e.g. a protocol error

  /** The httpx exception classes that matter here. */
  datatype HttpxError =
    | HttpxTimeout
    | HttpxNetworkError
    | HttpxStatusError(statusCode: int)
    | HttpxOther

  /** What leaves one attempt: one of this repository's exceptions, an httpx one, or a JSON decoding error. */
  datatype Raised =
    | Converted(error: ExternalServiceError)
    | Httpx(kind: HttpxError)
    | JsonDecodeError

  predicate IsSuccessStatus(code: int) {
    200 <= code < 300
  }

  /** `f"External service error: {status}"`. */
  function ServerErrorMessage(code: int): (m: string)
    ensures Contains(m, IntToString(code))
  {
    ContainsMiddle("External service error: ", IntToString(code), "");
    assert "External service error: " + IntToString(code) + "" == "External service error: " + IntToString(code);
    "External service error: " + IntToString(code)
  }

  /**
   * One pass through `safe_get`'s body: a 2xx response yields its parsed
   * body, timeouts and network failures are converted, a status of 500 or
   * more becomes a `ServerError` naming the status, any other non-2xx
   * status re-raises httpx's status error, and everything else escapes as is.
   */
  function Attempt(o: Transport): (r: Result<PyValue, Raised>)
    ensures o.TimedOut? ==> r == Failure(Converted(TimeoutError("Request timed out")))
    ensures o.NetworkFailed? ==> r == Failure(Converted(NetworkError("Network error occurred")))
    ensures o.OtherTransportError? ==> r == Failure(Httpx(HttpxOther))
    ensures o.Answered? && IsSuccessStatus(o.statusCode) ==>
      r == if o.body.Some? then Success(o.body.value) else Failure(JsonDecodeError)
    ensures o.Answered? && o.statusCode >= 500 ==>
      r.Failure? && r.error.Converted? && r.error.error.ServerError?
      && Contains(r.error.error.message, IntToString(o.statusCode))
    ensures o.Answered? && !IsSuccessStatus(o.statusCode) && o.statusCode < 500 ==>
      r == Failure(Httpx(HttpxStatusError(o.statusCode)))
    ensures r.Success? <==> o.Answered? && IsSuccessStatus(o.statusCode) && o.body.Some?
  {
    match o
    case TimedOut => Failure(Converted(TimeoutError("Request timed out")))
    case NetworkFailed => Failure(Converted(NetworkError("Network error occurred")))
    case OtherTransportError => Failure(Httpx(HttpxOther))
    case Answered(code, body) =>
      if !IsSuccessStatus(code) then
        if code >= 500 then Failure(Converted(ServerError(ServerErrorMessage(code))))
        else Failure(Httpx(HttpxStatusError(code)))
      else if body.None? then Failure(JsonDecodeError)
      else Success(body.value)
  }

  /**
   * The events one attempt logs, by name: the start, then one event naming
   * the outcome, except for an httpx error the body does not catch.
   */
  function AttemptLog(o: Transport): (events: seq<string>)
    ensures |events| >= 1 && events[0] == "external_request.start"
    ensures o.TimedOut? ==> events[1..] == ["external_request.timeout"]
    ensures o.NetworkFailed? ==> events[1..] == ["external_request.network_error"]
    ensures o.OtherTransportError? ==> events[1..] == []
    ensures o.Answered? && IsSuccessStatus(o.statusCode) ==> events[1..] == ["external_request.success"]
    ensures o.Answered? && o.statusCode >= 500 ==> events[1..] == ["external_request.server_error"]
    ensures o.Answered? && !IsSuccessStatus(o.statusCode) && o.statusCode < 500 ==> events[1..] == ["external_request.client_error"]
  {
    match o
    case TimedOut => ["external_request.start", "external_request.timeout"]
    case NetworkFailed => ["external_request.start", "external_request.network_error"]
    case OtherTransportError => ["external_request.start"]
    case Answered(code, _) =>
      if IsSuccessStatus(code) then ["external_request.start", "external_request.success"]
      else if code >= 500 then ["external_request.start", "external_request.server_error"]
      else ["external_request.start", "external_request.client_error"]
  }

  /** `stop_after_attempt(2)`. */
  const MaxAttempts: nat := 2

  /** The retry predicate as written: the raised exception is an httpx timeout or network error. */
  predicate RetryOnAsWritten(r: Raised) {
    r.Httpx? && (r.kind.HttpxTimeout? || r.kind.HttpxNetworkError?)
  }

  /** The evidently intended predicate: the attempt failed with a timeout or a network failure. */
  predicate RetryOnTransient(r: Raised) {
    r.Converted? && (r.error.TimeoutError? || r.error.NetworkError?)
  }

  /** The result of a retried call, how many GETs it made and the events it logged. */
  datatype RetryOutcome = RetryOutcome(result: Result<PyValue, Raised>, attempts: nat, log: seq<string>)

  /**
   * Tenacity's decision from attempt `n` on, given that attempt's result:
   * stop on success, on an exception the predicate refuses, or at the last
   * attempt (re-raising its exception); otherwise try again.
   */
  function Continue(transport: nat -> Transport, retryOn: Raised -> bool,
                    r: Result<PyValue, Raised>, n: nat, log: seq<string>): (out: RetryOutcome)
    requires 1 <= n <= MaxAttempts
    decreases MaxAttempts - n, 0
    ensures n <= out.attempts <= MaxAttempts
  {
    if r.Success? || !retryOn(r.error) || n == MaxAttempts then RetryOutcome(r, n, log)
    else Run(transport, retryOn, n + 1, log)
  }

  /** Attempts `n` onward, after the events in `log`. */
  function Run(transport: nat -> Transport, retryOn: Raised -> bool, n: nat, log: seq<string>): (out: RetryOutcome)
    requires 1 <= n <= MaxAttempts
    decreases MaxAttempts - n, 1
    ensures n <= out.attempts <= MaxAttempts
  {
    Continue(transport, retryOn, Attempt(transport(n - 1)), n, log + AttemptLog(transport(n - 1)))
  }

  /**
   * The decorated `safe_get`: makes the first GET, then repeats while the
   * attempt failed, the predicate accepts the exception and attempts remain.
   * The result, the number of GETs and the log are those `Run` describes.
   */
  method RetryingGet(transport: nat -> Transport, retryOn: Raised -> bool)
    returns (r: Result<PyValue, Raised>, attempts: nat, log: seq<string>)
    ensures RetryOutcome(r, attempts, log) == Run(transport, retryOn, 1, [])
    ensures 1 <= attempts <= MaxAttempts
    ensures r.Success? ==> r == Attempt(transport(attempts - 1))
  {
    attempts := 1;
    r := Attempt(transport(0));
    log := AttemptLog(transport(0));
    while attempts < MaxAttempts && r.Failure? && retryOn(r.error)
      invariant 1 <= attempts <= MaxAttempts
      invariant r == Attempt(transport(attempts - 1))
      invariant Run(transport, retryOn, 1, []) == Continue(transport, retryOn, r, attempts, log)
      decreases MaxAttempts - attempts
    {
      attempts := attempts + 1;
      r := Attempt(transport(attempts - 1));
      log := log + AttemptLog(transport(attempts - 1));
    }
  }

  /** No attempt's exception satisfies the predicate as written: the body has already converted or re-raised it. */
  lemma AsWrittenPredicateNeverHolds(o: Transport)
    ensures Attempt(o).Failure? ==> !RetryOnAsWritten(Attempt(o).error)
  {
  }

  /** So as written every call makes exactly one GET and ends with that GET's result. */
  lemma AsWrittenMakesOneAttempt(transport: nat -> Transport)
    ensures var out := Run(transport, RetryOnAsWritten, 1, []);
            out.attempts == 1 && out.result == Attempt(transport(0)) && out.log == AttemptLog(transport(0))
  {
    AsWrittenPredicateNeverHolds(transport(0));
  }

  /**
   * With the intended predicate a first timeout or network failure is
   * retried once and the second GET decides the call; any other first
   * result is final.
   */
  lemma TransientFailureIsRetried(transport: nat -> Transport)
    ensures var out := Run(transport, RetryOnTransient, 1, []);
            var first := Attempt(transport(0));
            && (first.Failure? && RetryOnTransient(first.error) ==>
                  out.attempts == 2 && out.result == Attempt(transport(1))
                  && out.log == AttemptLog(transport(0)) + AttemptLog(transport(1)))
            && (first.Success? || !RetryOnTransient(first.error) ==> out.attempts == 1 && out.result == first)
  {
    var first := Attempt(transport(0));
    if first.Failure? && RetryOnTransient(first.error) {
      assert [] + AttemptLog(transport(0)) == AttemptLog(transport(0));
    }
  }

  /** A transient failure is exactly a timeout or a network failure of the transport. */
  lemma TransientMeansTimeoutOrNetwork(o: Transport)
    ensures Attempt(o).Failure? && RetryOnTransient(Attempt(o).error) <==> o.TimedOut? || o.NetworkFailed?
  {
  }

  /** A call that times out ends, through the timeout handler, as a 504 envelope saying so. */
  lemma TimeoutBecomesGatewayTimeout(transport: nat -> Transport, bound: Option<string>, entropy: Uuid, now: Instant)
    requires transport(0).TimedOut?
    ensures var out := Run(transport, RetryOnAsWritten, 1, []);
            && out.result == Failure(Converted(TimeoutError("Request timed out")))
            && var resp := ExternalServiceHandler(out.result.error.error, bound, entropy, now);
               && resp.statusCode == 504
               && LoadEnvelope(resp.content) == Some(ErrorEnvelope(504, "TIMEOUT_ERROR", "REQUEST_TIMEOUT",
                                                                  "Request timed out", None, bound, entropy, now))
  {
    AsWrittenMakesOneAttempt(transport);
  }

  /** `request.app.state`, which may or may not hold the shared client. */
  datatype AppState<C> = AppState(http: Option<C>)

  /** `get_http_client`: the stored client, or a `RuntimeError` saying none was initialised. */
  function GetHttpClient<C>(state: AppState<C>): (r: Result<C, string>)
    ensures r.Success? <==> state.http.Some?
    ensures r.Success? ==> r.value == state.http.value
    ensures r.Failure? ==> r.error == "HTTP client not initialized"
  {
    if state.http.None? then Failure("HTTP client not initialized") else Success(state.http.value)
  }
}
