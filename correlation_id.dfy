/**
 * The correlation-id middleware of src/api/middleware/correlation_id.py:
 * choosing the request's id, binding it for the rest of the request,
 * stamping it on the response and logging the request's start and end.
 *
 * The context variable is an object threaded explicitly; the downstream
 * application is a function from the request and the id it can observe to
 * what it returns; log events are kept as an ordered trace.
 */
module CorrelationId {
  import opened Base

  /** The response header, in the lower case the header list stores names in. */
  const HeaderName: string := "x-correlation-id"
  /** The key the log processor adds. */
  const LogKey: string := "correlation_id"

  /**
   * The id for a request: the inbound `X-Correlation-ID` value when present
   * and non-empty, otherwise `"req_"` and 12 hexadecimal digits of a fresh UUID.
   */
  function SelectCorrelationId(header: Option<string>, entropy: Uuid): (id: string)
    ensures header.Some? && header.value != "" ==> id == header.value
    ensures header.None? || header.value == "" ==> id == GeneratedId(entropy, 12) && IsGeneratedId(id, 12) && |id| == 16
    ensures id != ""
  {
    if header.Some? && header.value != "" then header.value else GeneratedId(entropy, 12)
  }

  /** An id handed on to the next service in its header is kept there unchanged, whatever that service draws. */
  lemma SelectionIsStable(header: Option<string>, e1: Uuid, e2: Uuid)
    ensures SelectCorrelationId(Some(SelectCorrelationId(header, e1)), e2) == SelectCorrelationId(header, e1)
  {
  }

  /** `correlation_id_context`: unset (`None`) until a request binds an id. */
  class CorrelationContext {
    var current: Option<string>

    constructor ()
      ensures current == None
    {
      current := None;
    }

    /** `get_correlation_id`. */
    function Get(): (id: Option<string>)
      reads this
      ensures id == current
    {
      current
    }

    method Set(id: string)
      modifies this
      ensures current == Some(id)
    {
      current := Some(id);
    }
  }

  /** The parts of a request the middleware reads. */
  datatype Request = Request(verb: string, path: string, correlationHeader: Option<string>)

  /** The two events the middleware logs, with the fields that matter here. */
  datatype LogEvent =
    | RequestStart(verb: string, path: string, correlationId: string)
    | RequestEnd(verb: string, path: string, statusCode: int, correlationId: string)

  /** The structured logger's output, as an ordered trace. */
  class EventLog {
    var events: seq<LogEvent>

    constructor ()
      ensures events == []
    {
      events := [];
    }

    method Info(e: LogEvent)
      modifies this
      ensures events == old(events) + [e]
    {
      events := events + [e];
    }
  }

  /** The response `call_next` returns; its header list is changed in place. */
  class Response {
    const statusCode: int
    var headers: map<string, string>

    constructor (statusCode: int, headers: map<string, string>)
      ensures this.statusCode == statusCode && this.headers == headers
    {
      this.statusCode := statusCode;
      this.headers := headers;
    }

    /** `response.headers[name] = value`: replaces any value already set under the name. */
    method SetHeader(name: string, value: string)
      modifies this
      ensures headers == old(headers)[name := value]
    {
      headers := headers[name := value];
    }
  }

  /**
   * What the downstream application does with a request: a response, or an
   * exception. Header names are given as Starlette stores them, in lower
   * case, so setting `HeaderName` replaces any correlation header already there.
   */
  datatype HandlerResult =
    | Returned(statusCode: int, headers: map<string, string>)
    | Crashed

  /** The events one request adds to the log: a start, then an end carrying the status if the application returned. */
  function Trace(request: Request, id: string, handled: HandlerResult): (t: seq<LogEvent>)
    ensures |t| >= 1 && t[0] == RequestStart(request.verb, request.path, id)
    ensures |t| == 2 <==> handled.Returned?
    ensures |t| == 2 ==> t[1] == RequestEnd(request.verb, request.path, handled.statusCode, id)
    ensures forall i | 0 <= i < |t| :: t[i].correlationId == id
  {
    var start := RequestStart(request.verb, request.path, id);
    if handled.Returned? then [start, RequestEnd(request.verb, request.path, handled.statusCode, id)]
    else [start]
  }

  /** `CorrelationIdMiddleware`. */
  class CorrelationIdMiddleware {
    const context: CorrelationContext
    const log: EventLog

    constructor (context: CorrelationContext, log: EventLog)
      ensures this.context == context && this.log == log
    {
      this.context := context;
      this.log := log;
    }

    /**
     * `dispatch`: chooses and binds the id, logs the start, runs the
     * application, which sees the bound id, then overwrites the response's
     * correlation header with the id and logs the end. When the application
     * raises, the exception passes through: no header, no end event.
     */
    method Dispatch(request: Request, entropy: Uuid, callNext: (Request, Option<string>) -> HandlerResult)
      returns (response: Option<Response>)
      modifies context, log
      ensures var id := SelectCorrelationId(request.correlationHeader, entropy);
              && context.current == Some(id)
              && log.events == old(log.events) + Trace(request, id, callNext(request, Some(id)))
      ensures var id := SelectCorrelationId(request.correlationHeader, entropy);
              var handled := callNext(request, Some(id));
              && (response.Some? <==> handled.Returned?)
              && (response.Some? ==>
                    && fresh(response.value)
                    && response.value.statusCode == handled.statusCode
                    && response.value.headers == handled.headers[HeaderName := id])
    {
      var id := SelectCorrelationId(request.correlationHeader, entropy);
      context.Set(id);
      log.Info(RequestStart(request.verb, request.path, id));
      var handled := callNext(request, context.Get());
      if handled.Crashed? {
        return None;
      }
      var r := new Response(handled.statusCode, handled.headers);
      r.SetHeader(HeaderName, id);
      log.Info(RequestEnd(request.verb, request.path, r.statusCode, id));
      response := Some(r);
    }
  }

  /** A log event's fields. */
  class EventDict {
    var entries: map<string, PyValue>

    constructor (entries: map<string, PyValue>)
      ensures this.entries == entries
    {
      this.entries := entries;
    }
  }

  /** The processor's effect on the fields: `correlation_id` is added only when a non-empty id is bound. */
  function Annotated(bound: Option<string>, entries: map<string, PyValue>): (r: map<string, PyValue>)
    ensures bound.Some? && bound.value != "" ==> LogKey in r && r[LogKey] == PyStr(bound.value)
    ensures bound.Some? && bound.value != "" ==> forall k | k in entries && k != LogKey :: k in r && r[k] == entries[k]
    ensures bound.Some? && bound.value != "" ==> r.Keys == entries.Keys + {LogKey}
    ensures bound.None? || bound.value == "" ==> r == entries
  {
    if bound.Some? && bound.value != "" then entries[LogKey := PyStr(bound.value)] else entries
  }

  /** Running the processor twice adds nothing the first run did not. */
  lemma AnnotatedIdempotent(bound: Option<string>, entries: map<string, PyValue>)
    ensures Annotated(bound, Annotated(bound, entries)) == Annotated(bound, entries)
  {
  }

  /** `add_correlation_id`: changes the event's fields in place and returns the same event. */
  method AddCorrelationId(context: CorrelationContext, eventDict: EventDict) returns (result: EventDict)
    modifies eventDict
    ensures result == eventDict
    ensures eventDict.entries == Annotated(context.current, old(eventDict.entries))
  {
    var id := context.Get();
    if id.Some? && id.value != "" {
      eventDict.entries := eventDict.entries[LogKey := PyStr(id.value)];
    }
    result := eventDict;
  }

  /** During a request every log event carries the request's id, whatever the event held under the key. */
  lemma EventsDuringRequestCarryId(header: Option<string>, entropy: Uuid, entries: map<string, PyValue>)
    ensures var id := SelectCorrelationId(header, entropy);
            var r := Annotated(Some(id), entries);
            LogKey in r && r[LogKey] == PyStr(id)
  {
  }
}
