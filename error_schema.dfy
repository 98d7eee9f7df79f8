/**
 * The error envelope of src/shared/schemas/error.py and its pydantic dump.
 * The dump is a Python dictionary; in the default ("python") mode the
 * timestamp stays a `datetime`, in "json" mode it becomes ISO text.
 */
module ErrorSchema {
  import opened Base

  /** `ErrorDetail`: `code` and `message` are required, `field` defaults to absent. */
  datatype ErrorDetail = ErrorDetail(code: string, message: string, field: Option<string>)

  /** `ErrorDetail(code=..., message=...)`. */
  function NewErrorDetail(code: string, message: string): (d: ErrorDetail)
    ensures d.code == code && d.message == message && d.field.None?
  {
    ErrorDetail(code, message, None)
  }

  /**
   * `ErrorResponse`, fields in declaration order. `error` defaults to true,
   * `timestamp` to the clock reading at construction, `request_id` to absent.
   */
  datatype ErrorResponse = ErrorResponse(
    error: bool,
    timestamp: Instant,
    statusCode: int,
    errorType: string,
    details: seq<ErrorDetail>,
    requestId: Option<string>)

  /**
   * `ErrorResponse(status_code=..., error_type=..., details=...)`, with
   * `request_id=...` optional; `now` is the reading of the default factory.
   */
  function NewErrorResponse(statusCode: int, errorType: string, details: seq<ErrorDetail>,
                            now: Instant, requestId: Option<string> := None): (e: ErrorResponse)
    ensures e.error && e.timestamp == now
    ensures e.statusCode == statusCode && e.errorType == errorType && e.details == details && e.requestId == requestId
  {
    ErrorResponse(true, now, statusCode, errorType, details, requestId)
  }

  /** Constructed without a request id, the envelope has none. */
  lemma RequestIdDefaultsToAbsent(statusCode: int, errorType: string, details: seq<ErrorDetail>, now: Instant)
    ensures NewErrorResponse(statusCode, errorType, details, now).requestId == None
    ensures NewErrorResponse(statusCode, errorType, details, now) == NewErrorResponse(statusCode, errorType, details, now, None)
  {
  }

  /** `model_dump()` defaults to python mode; `model_dump(mode="json")` converts to JSON types. */
  datatype DumpMode = PythonMode | JsonMode

  function OptionalText(s: Option<string>): PyValue {
    if s.Some? then PyStr(s.value) else PyNone
  }

  function DumpDetail(d: ErrorDetail): (v: PyValue)
    ensures v.PyDict? && DictKeys(v.entries) == DetailKeys
    ensures JsonSerializable(v)
  {
    var v := PyDict([("code", PyStr(d.code)), ("message", PyStr(d.message)), ("field", OptionalText(d.field))]);
    assert DictKeys(v.entries) == DetailKeys;
    v
  }

  function DumpDetails(ds: seq<ErrorDetail>): (items: seq<PyValue>)
    ensures |items| == |ds|
    ensures forall i | 0 <= i < |ds| :: items[i] == DumpDetail(ds[i])
  {
    seq(|ds|, i requires 0 <= i < |ds| => DumpDetail(ds[i]))
  }

  function DumpTimestamp(t: Instant, mode: DumpMode): PyValue {
    match mode
    case PythonMode => PyDatetime(t)
    case JsonMode => PyIsoText(t)
  }

  /** The envelope's keys in the order the dump lists them. */
  const EnvelopeKeys: seq<string> := ["error", "timestamp", "status_code", "error_type", "details", "request_id"]

  /**
   * `model_dump(mode)`: every field under its name, in declaration order.
   * Only the json-mode dump can be handed to `json.dumps`: the python-mode
   * dump keeps the timestamp as a `datetime`.
   */
  function ModelDump(e: ErrorResponse, mode: DumpMode): (v: PyValue)
    ensures v.PyDict? && DictKeys(v.entries) == EnvelopeKeys
    ensures JsonSerializable(v) <==> mode == JsonMode
  {
    var details := DumpDetails(e.details);
    var v := PyDict([
      ("error", PyBool(e.error)),
      ("timestamp", DumpTimestamp(e.timestamp, mode)),
      ("status_code", PyInt(e.statusCode)),
      ("error_type", PyStr(e.errorType)),
      ("details", PyList(details)),
      ("request_id", OptionalText(e.requestId))]);
    assert DictKeys(v.entries) == EnvelopeKeys;
    assert JsonSerializable(PyList(details));
    assert v.entries[1].1 == DumpTimestamp(e.timestamp, mode);
    v
  }

  const DetailKeys: seq<string> := ["code", "message", "field"]

  /** Parses a dumped detail, a dictionary with the keys of `ErrorDetail` in order, back into an `ErrorDetail`. */
  function LoadDetail(v: PyValue): Option<ErrorDetail> {
    if !v.PyDict? || DictKeys(v.entries) != DetailKeys then None
    else match (v.entries[0].1, v.entries[1].1, v.entries[2].1)
      case (PyStr(c), PyStr(m), PyNone) => Some(ErrorDetail(c, m, None))
      case (PyStr(c), PyStr(m), PyStr(f)) => Some(ErrorDetail(c, m, Some(f)))
      case _ => None
  }

  /** Parses a json-mode dump, a dictionary with the envelope keys in order, back into an `ErrorResponse`. */
  function LoadEnvelope(v: PyValue): Option<ErrorResponse> {
    if !v.PyDict? || DictKeys(v.entries) != EnvelopeKeys then None
    else
      var r := v.entries[5].1;
      match (v.entries[0].1, v.entries[1].1, v.entries[2].1, v.entries[3].1, v.entries[4].1)
      case (PyBool(b), PyIsoText(t), PyInt(s), PyStr(ty), PyList(items)) =>
        var details := LoadDetails(items);
        if details.None? then None
        else if r.PyNone? then Some(ErrorResponse(b, t, s, ty, details.value, None))
        else if r.PyStr? then Some(ErrorResponse(b, t, s, ty, details.value, Some(r.s)))
        else None
      case _ => None
  }

  function LoadDetails(items: seq<PyValue>): Option<seq<ErrorDetail>> {
    if items == [] then Some([])
    else
      var first := LoadDetail(items[0]);
      var rest := LoadDetails(items[1..]);
      if first.None? || rest.None? then None else Some([first.value] + rest.value)
  }

  lemma LoadDumpedDetail(d: ErrorDetail)
    ensures LoadDetail(DumpDetail(d)) == Some(d)
  {
  }

  lemma {:induction false} LoadDumpedDetails(ds: seq<ErrorDetail>)
    ensures LoadDetails(DumpDetails(ds)) == Some(ds)
  {
    if ds != [] {
      LoadDumpedDetail(ds[0]);
      assert DumpDetails(ds)[1..] == DumpDetails(ds[1..]);
      LoadDumpedDetails(ds[1..]);
      assert [ds[0]] + ds[1..] == ds;
    }
  }

  /** A json-mode dump loses nothing: loading it gives the envelope back. */
  lemma JsonDumpRoundTrip(e: ErrorResponse)
    ensures LoadEnvelope(ModelDump(e, JsonMode)) == Some(e)
  {
    LoadDumpedDetails(e.details);
  }
}
