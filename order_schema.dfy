/**
 * The order records of src/domain/schemas/order.py: the validated input
 * `OrderIn` with its three field constraints, and the stored/returned
 * `OrderOut`, which is built from keyword arguments naming its fields by
 * alias or by name.
 */
module OrderSchema {
  import opened Base

  const MaxCustomerNameLength: nat := 128
  const CurrencyLength: nat := 3

  /** An order request: `nom_client`, `montant`, `devise`. The amount is a real number. */
  datatype OrderIn = OrderIn(customerName: string, totalAmount: real, currency: string)

  /** The fields of `OrderIn` a validation error can name. */
  datatype OrderField = CustomerName | TotalAmount | Currency

  predicate IsUpperLetter(c: char) {
    'A' <= c <= 'Z'
  }

  /** The pattern `^[A-Z]{n}$`: exactly `n` characters, each in A-Z. */
  function MatchesUpperRun(s: string, n: nat): (r: bool)
    ensures r <==> |s| == n && forall i | 0 <= i < |s| :: IsUpperLetter(s[i])
  {
    if n == 0 then s == []
    else |s| > 0 && IsUpperLetter(s[0]) && MatchesUpperRun(s[1..], n - 1)
  }

  /** Whether the value given for `field` breaks that field's constraint. */
  predicate Violates(field: OrderField, candidate: OrderIn) {
    match field
    case CustomerName => |candidate.customerName| > MaxCustomerNameLength
    case TotalAmount => candidate.totalAmount < 0.0
    case Currency => !MatchesUpperRun(candidate.currency, CurrencyLength)
  }

  /**
   * Field validation of `OrderIn`: the candidate is accepted unchanged when
   * every constraint holds, and otherwise every violated field is reported.
   */
  function ValidateOrderIn(candidate: OrderIn): (r: Result<OrderIn, seq<OrderField>>)
    ensures r.Success? <==>
      && |candidate.customerName| <= 128
      && candidate.totalAmount >= 0.0
      && |candidate.currency| == 3
      && forall i | 0 <= i < |candidate.currency| :: IsUpperLetter(candidate.currency[i])
    ensures r.Success? ==> r.value == candidate
    ensures r.Failure? ==> r.error != [] && forall f :: f in r.error <==> Violates(f, candidate)
  {
    var errors :=
      (if Violates(CustomerName, candidate) then [CustomerName] else [])
      + (if Violates(TotalAmount, candidate) then [TotalAmount] else [])
      + (if Violates(Currency, candidate) then [Currency] else []);
    if errors == [] then Success(candidate) else Failure(errors)
  }

  /** No minimum length: the empty customer name passes. */
  lemma EmptyCustomerNameAccepted(amount: real, currency: string)
    requires amount >= 0.0 && MatchesUpperRun(currency, 3)
    ensures ValidateOrderIn(OrderIn("", amount, currency)).Success?
  {
  }

  /** Any single violated constraint rejects the whole input. */
  lemma SingleViolationRejects(candidate: OrderIn, f: OrderField)
    requires Violates(f, candidate)
    ensures ValidateOrderIn(candidate).Failure?
    ensures f in ValidateOrderIn(candidate).error
  {
  }

  // ---------------------------------------------------------------------------
  // OrderOut

  /**
   * A stored order. `createdAt` is an opaque clock reading; `createdBy`
   * defaults to absent.
   */
  datatype OrderOut = OrderOut(
    orderId: Uuid,
    createdAt: Instant,
    customerName: string,
    totalAmount: real,
    currency: string,
    createdBy: Option<string>)

  /** Values as pydantic receives or dumps them for the `OrderOut` fields. */
  datatype FieldValue =
    | UuidValue(u: Uuid)
    | TimeValue(t: Instant)
    | StrValue(s: string)
    | FloatValue(r: real)
    | NoneValue

  /** The `OrderOut` fields, in declaration order, each named after the key it is passed and dumped under. */
  datatype OrderOutKey = Order | CreatedAt | NomClient | Montant | Devise | CreatedBy

  /** The key text: `order_id` is exposed as "order" and the French aliases replace the English names. */
  function Alias(k: OrderOutKey): string {
    match k
    case Order => "order"
    case CreatedAt => "created_at"
    case NomClient => "nom_client"
    case Montant => "montant"
    case Devise => "devise"
    case CreatedBy => "created_by"
  }

  /** The Python attribute name of each field, under which `populate_by_name` also accepts it. */
  function FieldName(k: OrderOutKey): string {
    match k
    case Order => "order_id"
    case CreatedAt => "created_at"
    case NomClient => "customer_name"
    case Montant => "total_amount"
    case Devise => "currency"
    case CreatedBy => "created_by"
  }

  /**
   * The field a keyword argument fills: with `populate_by_name` a field is
   * filled from its alias or from its own name; any other keyword is ignored.
   */
  function FieldOfKeyword(name: string): (k: Option<OrderOutKey>)
    ensures forall key :: k == Some(key) <==> name == Alias(key) || name == FieldName(key)
    ensures k.None? <==> forall key :: name != Alias(key) && name != FieldName(key)
  {
    if name == "order" || name == "order_id" then Some(Order)
    else if name == "created_at" then Some(CreatedAt)
    else if name == "nom_client" || name == "customer_name" then Some(NomClient)
    else if name == "montant" || name == "total_amount" then Some(Montant)
    else if name == "devise" || name == "currency" then Some(Devise)
    else if name == "created_by" then Some(CreatedBy)
    else None
  }

  /** Each field is found again from its alias and from its name, so no keyword fills two fields. */
  lemma KeywordsNameTheirField(k: OrderOutKey)
    ensures FieldOfKeyword(Alias(k)) == Some(k) && FieldOfKeyword(FieldName(k)) == Some(k)
  {
  }

  /** Keyword arguments or a dump, keyed by field. */
  type Fields = map<OrderOutKey, FieldValue>

  const OrderOutKeys: set<OrderOutKey> := {Order, CreatedAt, NomClient, Montant, Devise, CreatedBy}

  /** Keyword arguments as written at a call `OrderOut(name=value, ...)`. */
  type Keywords = map<string, FieldValue>

  /** The value a call gives for field `k`: under its alias, or failing that under its name. */
  function GivenValue(kw: Keywords, k: OrderOutKey): Option<FieldValue> {
    if Alias(k) in kw then Some(kw[Alias(k)])
    else if FieldName(k) in kw then Some(kw[FieldName(k)])
    else None
  }

  /** The fields a call's keyword arguments fill; keywords that name no field are dropped. */
  function ByKeyword(kw: Keywords): (f: Fields)
    ensures forall k :: k in f <==> Alias(k) in kw || FieldName(k) in kw
    ensures forall k | k in f && Alias(k) in kw :: f[k] == kw[Alias(k)]
    ensures forall k | k in f && Alias(k) !in kw :: f[k] == kw[FieldName(k)]
  {
    map k | k in OrderOutKeys && GivenValue(kw, k).Some? :: GivenValue(kw, k).value
  }

  /** A keyword that names no field changes nothing about the call. */
  lemma UnknownKeywordIgnored(kw: Keywords, name: string, v: FieldValue)
    requires FieldOfKeyword(name).None?
    ensures ByKeyword(kw[name := v]) == ByKeyword(kw)
  {
    var extended := kw[name := v];
    forall k ensures GivenValue(extended, k) == GivenValue(kw, k) {
      assert name != Alias(k) && name != FieldName(k);
    }
  }

  /** A field given by its name alone fills the same field as when given by its alias. */
  lemma NameActsAsAlias(kw: Keywords, k: OrderOutKey, v: FieldValue)
    requires Alias(k) !in kw && FieldName(k) !in kw
    ensures ByKeyword(kw[FieldName(k) := v]) == ByKeyword(kw[Alias(k) := v])
  {
    var byName, byAlias := kw[FieldName(k) := v], kw[Alias(k) := v];
    forall j ensures GivenValue(byName, j) == GivenValue(byAlias, j) {
      KeywordsNameTheirField(j);
      KeywordsNameTheirField(k);
    }
  }

  /** `model_dump(by_alias=True)`: one entry per field, keyed by alias. */
  function ModelDump(o: OrderOut): (m: Fields)
    ensures m.Keys == OrderOutKeys
    ensures m[Order] == UuidValue(o.orderId) && m[CreatedAt] == TimeValue(o.createdAt) && m[NomClient] == StrValue(o.customerName)
    ensures m[Montant] == FloatValue(o.totalAmount) && m[Devise] == StrValue(o.currency)
    ensures m[CreatedBy] == if o.createdBy.Some? then StrValue(o.createdBy.value) else NoneValue
  {
    map[
      Order := UuidValue(o.orderId),
      CreatedAt := TimeValue(o.createdAt),
      NomClient := StrValue(o.customerName),
      Montant := FloatValue(o.totalAmount),
      Devise := StrValue(o.currency),
      CreatedBy := if o.createdBy.Some? then StrValue(o.createdBy.value) else NoneValue
    ]
  }

  /** Whether `v` has the strict type the field `key` declares. */
  predicate WellTyped(key: OrderOutKey, v: FieldValue) {
    match key
    case Order => v.UuidValue?
    case CreatedAt => v.TimeValue?
    case NomClient => v.StrValue?
    case Montant => v.FloatValue?
    case Devise => v.StrValue?
    case CreatedBy => v.StrValue? || v.NoneValue?
  }

  /** A required field must be given and well typed; `created_by` may be omitted. */
  predicate FieldAccepted(f: Fields, key: OrderOutKey) {
    if key == CreatedBy then key !in f || WellTyped(key, f[key])
    else key in f && WellTyped(key, f[key])
  }

  function Check(f: Fields, key: OrderOutKey): seq<OrderOutKey> {
    if FieldAccepted(f, key) then [] else [key]
  }

  /**
   * `OrderOut(**f)`: strict validation of keyword arguments given by alias.
   * Every rejected field is reported, in declaration order. On success every
   * given field is reproduced by the dump, and an omitted `created_by` is absent.
   */
  function Construct(f: Fields): (r: Result<OrderOut, seq<OrderOutKey>>)
    ensures r.Success? <==> forall k: OrderOutKey :: FieldAccepted(f, k)
    ensures r.Failure? ==> r.error != [] && forall k :: k in r.error <==> !FieldAccepted(f, k)
    ensures r.Success? && CreatedBy !in f ==> r.value.createdBy == None
  {
    var errors := Check(f, Order) + Check(f, CreatedAt) + Check(f, NomClient)
      + Check(f, Montant) + Check(f, Devise) + Check(f, CreatedBy);
    if errors != [] then Failure(errors)
    else
      Success(OrderOut(
        f[Order].u,
        f[CreatedAt].t,
        f[NomClient].s,
        f[Montant].r,
        f[Devise].s,
        if CreatedBy in f && f[CreatedBy].StrValue? then Some(f[CreatedBy].s) else None))
  }

  /** A constructed order dumps every given field back to the value it was given. */
  lemma ConstructReproducesFields(f: Fields, k: OrderOutKey)
    requires Construct(f).Success? && k in f
    ensures ModelDump(Construct(f).value)[k] == f[k]
  {
    assert FieldAccepted(f, k);
  }

  /** Dumping and re-constructing an order gives the same order back. */
  lemma DumpConstructRoundTrip(o: OrderOut)
    ensures Construct(ModelDump(o)) == Success(o)
  {
  }
}
