/**
 * Shared vocabulary of the order API model: optional values and results,
 * clock readings, UUIDs and their text forms, decimal text of integers,
 * Python's list repr of strings, Python values as they reach a JSON
 * encoder, and the web framework's HTTP exception.
 */
module Base {

  datatype Option<+T> = None | Some(value: T) {
    /** The wrapped value, or `default` when there is none (Python's `dict.get(k, default)`). */
    function GetOr(default: T): T {
      match this
      case Some(v) => v
      case None => default
    }
  }

  datatype Result<+R, +E> = Success(value: R) | Failure(error: E)

  /** A clock reading (`datetime.utcnow()`), in seconds; only differences and sums are used. */
  type Instant = int

  /** The HTTP exception of the web framework: status, detail text and extra headers. */
  datatype HttpException = HttpException(statusCode: int, detail: string, headers: map<string, string>)

  // ---------------------------------------------------------------------------
  // Substrings

  /** `t in s` for Python strings. */
  ghost predicate Contains(s: string, t: string) {
    exists i :: OccursAt(s, t, i)
  }

  predicate OccursAt(s: string, t: string, i: int) {
    0 <= i <= |s| - |t| && s[i..i + |t|] == t
  }

  lemma ContainsMiddle(a: string, t: string, b: string)
    ensures Contains(a + t + b, t)
  {
    var s := a + t + b;
    assert OccursAt(s, t, |a|);
  }

  lemma ContainsExtend(a: string, s: string, b: string, t: string)
    requires Contains(s, t)
    ensures Contains(a + s + b, t)
  {
    var i :| OccursAt(s, t, i);
    var w := a + s + b;
    assert w[|a| + i..|a| + i + |t|] == s[i..i + |t|];
    assert OccursAt(w, t, |a| + i);
  }

  // ---------------------------------------------------------------------------
  // Lower-case hexadecimal text (`uuid.UUID.hex`)

  predicate IsLowerHexDigit(c: char) {
    '0' <= c <= '9' || 'a' <= c <= 'f'
  }

  predicate IsLowerHex(s: string) {
    forall i | 0 <= i < |s| :: IsLowerHexDigit(s[i])
  }

  function DigitValue(c: char): (d: nat)
    requires IsLowerHexDigit(c)
    ensures d < 16
  {
    if c <= '9' then c as int - '0' as int else c as int - 'a' as int + 10
  }

  function HexDigit(d: nat): (c: char)
    requires d < 16
    ensures IsLowerHexDigit(c) && DigitValue(c) == d
  {
    if d < 10 then ('0' as int + d) as char else ('a' as int + d - 10) as char
  }

  function Pow16(n: nat): (p: nat)
    ensures p >= 1
  {
    if n == 0 then 1 else 16 * Pow16(n - 1)
  }

  /** The `n` low-order hexadecimal digits of `x`, most significant first, zero padded. */
  function Hex(x: nat, n: nat): (s: string)
    ensures |s| == n && IsLowerHex(s)
  {
    if n == 0 then [] else Hex(x / 16, n - 1) + [HexDigit(x % 16)]
  }

  /** The number a lower-case hexadecimal text denotes. */
  function HexValue(s: string): nat
    requires IsLowerHex(s)
  {
    if s == [] then 0 else HexValue(s[..|s| - 1]) * 16 + DigitValue(s[|s| - 1])
  }

  lemma {:induction false} HexRoundTrip(x: nat, n: nat)
    requires x < Pow16(n)
    ensures HexValue(Hex(x, n)) == x
  {
    if n > 0 {
      var s := Hex(x, n);
      assert s[..|s| - 1] == Hex(x / 16, n - 1);
      assert x / 16 < Pow16(n - 1);
      HexRoundTrip(x / 16, n - 1);
    }
  }

  // ---------------------------------------------------------------------------
  // UUIDs

  /** 2^128. */
  const UuidBound: nat := Pow16(32)

  /** A 128-bit UUID value; where it comes from (`uuid4()`) is left to the caller. */
  type Uuid = x: nat | x < UuidBound

  /** `uuid.hex`: 32 lower-case hexadecimal digits. */
  function UuidHex(u: Uuid): (h: string)
    ensures |h| == 32 && IsLowerHex(h)
  {
    Hex(u, 32)
  }

  /** `str(uuid)`: the 8-4-4-4-12 hyphenated form. */
  function UuidText(u: Uuid): (t: string)
    ensures |t| == 36
  {
    var h := UuidHex(u);
    h[..8] + "-" + h[8..12] + "-" + h[12..16] + "-" + h[16..20] + "-" + h[20..]
  }

  /** Reads a UUID back from the hyphenated form, ignoring the hyphens. */
  function UuidFromText(t: string): nat
    requires |t| == 36
    requires IsLowerHex(t[..8] + t[9..13] + t[14..18] + t[19..23] + t[24..])
  {
    HexValue(t[..8] + t[9..13] + t[14..18] + t[19..23] + t[24..])
  }

  lemma UuidTextRoundTrip(u: Uuid)
    ensures var t := UuidText(u);
            IsLowerHex(t[..8] + t[9..13] + t[14..18] + t[19..23] + t[24..]) && UuidFromText(t) == u
  {
    var h := UuidHex(u);
    var t := UuidText(u);
    assert t[..8] == h[..8];
    assert t[9..13] == h[8..12];
    assert t[14..18] == h[12..16];
    assert t[19..23] == h[16..20];
    assert t[24..] == h[20..];
    assert h[..8] + h[8..12] + h[12..16] + h[16..20] + h[20..] == h;
    HexRoundTrip(u, 32);
  }

  /** Distinct UUIDs have distinct text forms. */
  lemma UuidTextInjective(a: Uuid, b: Uuid)
    requires UuidText(a) == UuidText(b)
    ensures a == b
  {
    UuidTextRoundTrip(a);
    UuidTextRoundTrip(b);
  }

  /** `f"req_{uuid.uuid4().hex[:n]}"`: a generated request identifier. */
  function GeneratedId(u: Uuid, n: nat): (id: string)
    requires n <= 32
    ensures IsGeneratedId(id, n)
  {
    "req_" + UuidHex(u)[..n]
  }

  predicate IsGeneratedId(id: string, n: nat) {
    |id| == 4 + n && id[..4] == "req_" && IsLowerHex(id[4..])
  }

  // ---------------------------------------------------------------------------
  // Decimal text (`str(int)`)

  predicate IsDecimalDigit(c: char) {
    '0' <= c <= '9'
  }

  predicate IsDecimal(s: string) {
    forall i | 0 <= i < |s| :: IsDecimalDigit(s[i])
  }

  function DecimalDigits(n: nat): (s: string)
    ensures |s| >= 1 && IsDecimal(s)
  {
    if n < 10 then [('0' as int + n) as char]
    else DecimalDigits(n / 10) + [('0' as int + n % 10) as char]
  }

  function DecimalValue(s: string): nat
    requires IsDecimal(s)
  {
    if s == [] then 0 else DecimalValue(s[..|s| - 1]) * 10 + (s[|s| - 1] as int - '0' as int)
  }

  lemma {:induction false} DecimalRoundTrip(n: nat)
    ensures DecimalValue(DecimalDigits(n)) == n
  {
    if n >= 10 {
      var s := DecimalDigits(n);
      assert s[..|s| - 1] == DecimalDigits(n / 10);
      DecimalRoundTrip(n / 10);
    }
  }

  /** Python's `str(i)` of an `int`. */
  function IntToString(i: int): (s: string)
    ensures |s| >= 1
  {
    if i < 0 then "-" + DecimalDigits(-i) else DecimalDigits(i)
  }

  /** Python's `int(s)` on the texts `IntToString` produces. */
  function ParseInt(s: string): int
    requires |s| >= 1
  {
    if s[0] == '-' && IsDecimal(s[1..]) then -(DecimalValue(s[1..]) as int)
    else if IsDecimal(s) then DecimalValue(s)
    else 0
  }

  lemma IntToStringRoundTrip(i: int)
    ensures ParseInt(IntToString(i)) == i
  {
    if i < 0 {
      var s := IntToString(i);
      assert s[1..] == DecimalDigits(-i);
      DecimalRoundTrip(-i);
    } else {
      DecimalRoundTrip(i);
    }
  }

  // ---------------------------------------------------------------------------
  // Python's repr of a list of strings, as an f-string shows it

  /** `repr(s)` for a string without quotes, backslashes or unprintable characters. */
  function PyStrRepr(s: string): string {
    "'" + s + "'"
  }

  function JoinReprs(xs: seq<string>): string {
    if |xs| == 0 then ""
    else if |xs| == 1 then PyStrRepr(xs[0])
    else PyStrRepr(xs[0]) + ", " + JoinReprs(xs[1..])
  }

  /** `str(xs)` for a list of strings. */
  function PyListRepr(xs: seq<string>): string {
    "[" + JoinReprs(xs) + "]"
  }

  lemma {:induction false} JoinReprsMentions(xs: seq<string>, k: nat)
    requires k < |xs|
    ensures Contains(JoinReprs(xs), xs[k])
  {
    if k == 0 {
      ContainsMiddle("'", xs[0], "'");
      if |xs| > 1 {
        ContainsExtend("", PyStrRepr(xs[0]), ", " + JoinReprs(xs[1..]), xs[0]);
        assert "" + PyStrRepr(xs[0]) + (", " + JoinReprs(xs[1..])) == JoinReprs(xs);
      }
    } else {
      JoinReprsMentions(xs[1..], k - 1);
      ContainsExtend(PyStrRepr(xs[0]) + ", ", JoinReprs(xs[1..]), "", xs[k]);
      assert PyStrRepr(xs[0]) + ", " + JoinReprs(xs[1..]) + "" == JoinReprs(xs);
    }
  }

  /** Every element of the list appears in its repr. */
  lemma ListReprMentions(xs: seq<string>, k: nat)
    requires k < |xs|
    ensures Contains(PyListRepr(xs), xs[k])
  {
    JoinReprsMentions(xs, k);
    ContainsExtend("[", JoinReprs(xs), "]", xs[k]);
  }

  // ---------------------------------------------------------------------------
  // Python values handed to a JSON encoder

  /**
   * The Python values a pydantic dump or a parsed JSON body is made of.
   * `PyIsoText(t)` stands for the `str` that `t.isoformat()` returns; the
   * characters of that rendering are not modelled.
   */
  datatype PyValue =
    | PyNone
    | PyBool(b: bool)
    | PyInt(i: int)
    | PyFloat(r: real)
    | PyStr(s: string)
    | PyIsoText(when: Instant)
    | PyDatetime(at: Instant)
    | PyList(items: seq<PyValue>)
    | PyDict(entries: seq<(string, PyValue)>)

  /** Whether `json.dumps` accepts the value: it rejects `datetime` objects. */
  predicate JsonSerializable(v: PyValue) {
    match v
    case PyDatetime(_) => false
    case PyList(items) => forall i | 0 <= i < |items| :: JsonSerializable(items[i])
    case PyDict(entries) => forall i | 0 <= i < |entries| :: JsonSerializable(entries[i].1)
    case _ => true
  }

  function DictKeys(entries: seq<(string, PyValue)>): seq<string> {
    seq(|entries|, i requires 0 <= i < |entries| => entries[i].0)
  }
}
