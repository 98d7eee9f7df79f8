/**
 * The in-memory order store of src/domain/services/order_service.py: a
 * process-wide list of orders that `create_order` appends to and
 * `get_order` scans in insertion order.
 */
module OrderStore {
  import opened Base
  import opened OrderSchema

  /** The exceptions the service layer can raise (src/domain/exceptions/order_exceptions.py, and `ValueError`). */
  datatype OrderError =
    | OrderAlreadyExists(message: string)
    | OrderNotFound(message: string)
    | InvalidValue(message: string)

  /** `f"Order {order_id} not found"`. */
  function NotFoundMessage(id: Uuid): (m: string)
    ensures Contains(m, UuidText(id)) && Contains(m, "not found")
  {
    ContainsMiddle("Order ", UuidText(id), " not found");
    ContainsMiddle("Order " + UuidText(id) + " ", "not found", "");
    assert "Order " + UuidText(id) + " " + "not found" + "" == "Order " + UuidText(id) + " not found";
    "Order " + UuidText(id) + " not found"
  }

  /** Different ids give different messages, so a 404 detail identifies the order that was asked for. */
  lemma NotFoundMessageIdentifiesId(a: Uuid, b: Uuid)
    requires NotFoundMessage(a) == NotFoundMessage(b)
    ensures a == b
  {
    var prefix := "Order ";
    assert NotFoundMessage(a)[|prefix|..|prefix| + |UuidText(a)|] == UuidText(a);
    assert NotFoundMessage(b)[|prefix|..|prefix| + |UuidText(b)|] == UuidText(b);
    UuidTextInjective(a, b);
  }

  /** The first order, in insertion order, whose id is `id`. */
  function Lookup(orders: seq<OrderOut>, id: Uuid): Option<OrderOut> {
    if orders == [] then None
    else if orders[0].orderId == id then Some(orders[0])
    else Lookup(orders[1..], id)
  }

  predicate FirstMatchAt(orders: seq<OrderOut>, id: Uuid, i: int) {
    0 <= i < |orders| && orders[i].orderId == id && forall j | 0 <= j < i :: orders[j].orderId != id
  }

  /** `Lookup` finds the earliest order with the id, and finds nothing only when no order has it. */
  lemma {:induction false} LookupIsFirstMatch(orders: seq<OrderOut>, id: Uuid)
    ensures Lookup(orders, id).None? <==> forall j | 0 <= j < |orders| :: orders[j].orderId != id
    ensures Lookup(orders, id).Some? ==>
      exists i :: FirstMatchAt(orders, id, i) && Lookup(orders, id).value == orders[i]
  {
    if orders != [] {
      LookupIsFirstMatch(orders[1..], id);
      if orders[0].orderId != id {
        if Lookup(orders, id).Some? {
          var i :| FirstMatchAt(orders[1..], id, i) && Lookup(orders[1..], id).value == orders[1..][i];
          assert FirstMatchAt(orders, id, i + 1);
        } else {
          forall j | 0 <= j < |orders| ensures orders[j].orderId != id {
            if j > 0 { assert orders[j] == orders[1..][j - 1]; }
          }
        }
      } else {
        assert FirstMatchAt(orders, id, 0);
      }
    }
  }

  /** Appending an order never hides an earlier match, and the new order is found when its id is new. */
  lemma {:induction false} LookupAfterAppend(orders: seq<OrderOut>, o: OrderOut, id: Uuid)
    ensures Lookup(orders + [o], id) ==
      if Lookup(orders, id).Some? then Lookup(orders, id)
      else if o.orderId == id then Some(o)
      else None
  {
    if orders != [] {
      assert (orders + [o])[1..] == orders[1..] + [o];
      LookupAfterAppend(orders[1..], o, id);
    }
  }

  /** No two stored orders share an id. */
  ghost predicate UniqueIds(orders: seq<OrderOut>) {
    forall i, j | 0 <= i < j < |orders| :: orders[i].orderId != orders[j].orderId
  }

  predicate IsFreshId(orders: seq<OrderOut>, id: Uuid) {
    forall i | 0 <= i < |orders| :: orders[i].orderId != id
  }

  /** Creating an order under a fresh id keeps ids unique and makes the order findable under it. */
  lemma CreatedOrderIsFound(orders: seq<OrderOut>, o: OrderOut)
    requires UniqueIds(orders) && IsFreshId(orders, o.orderId)
    ensures UniqueIds(orders + [o])
    ensures Lookup(orders + [o], o.orderId) == Some(o)
  {
    LookupIsFirstMatch(orders, o.orderId);
    LookupAfterAppend(orders, o, o.orderId);
  }

  // ---------------------------------------------------------------------------
  // Building the stored record

  /** The keyword arguments `create_order` passes to `OrderOut(...)`, by alias: no `created_at`. */
  function CreateOrderKeywordsAsWritten(id: Uuid, order: OrderIn): Keywords {
    map[
      "order" := UuidValue(id),
      "nom_client" := StrValue(order.customerName),
      "montant" := FloatValue(order.totalAmount),
      "devise" := StrValue(order.currency)
    ]
  }

  /** The fields those keywords fill. */
  function CreateOrderFieldsAsWritten(id: Uuid, order: OrderIn): Fields {
    ByKeyword(CreateOrderKeywordsAsWritten(id, order))
  }

  /** Neither the timestamp nor the creator is among those keywords, by alias or by name. */
  lemma AsWrittenOmitsTimestampAndCreator(id: Uuid, order: OrderIn)
    ensures GivenValue(CreateOrderKeywordsAsWritten(id, order), CreatedAt) == None
    ensures GivenValue(CreateOrderKeywordsAsWritten(id, order), CreatedBy) == None
  {
    var kw := CreateOrderKeywordsAsWritten(id, order);
    assert "created_at"[0] == 'c' && "created_at"[1] == 'r';
    assert "created_by"[0] == 'c' && "created_by"[1] == 'r';
    assert forall key | key in kw :: key[0] != 'c';
  }

  /** Those keywords fill the order id, name, amount and currency, and neither timestamp nor creator. */
  lemma AsWrittenFieldsFilled(id: Uuid, order: OrderIn)
    ensures CreateOrderFieldsAsWritten(id, order) == map[
      Order := UuidValue(id),
      NomClient := StrValue(order.customerName),
      Montant := FloatValue(order.totalAmount),
      Devise := StrValue(order.currency)]
  {
    AsWrittenOmitsTimestampAndCreator(id, order);
    var kw := CreateOrderKeywordsAsWritten(id, order);
    var expected := map[
      Order := UuidValue(id),
      NomClient := StrValue(order.customerName),
      Montant := FloatValue(order.totalAmount),
      Devise := StrValue(order.currency)];
    forall k ensures GivenValue(kw, k) == if k in expected then Some(expected[k]) else None {
    }
  }

  /** Fields without a timestamp are rejected on that field alone. */
  lemma MissingTimestampRejected(id: Uuid, order: OrderIn)
    ensures Construct(map[
      Order := UuidValue(id),
      NomClient := StrValue(order.customerName),
      Montant := FloatValue(order.totalAmount),
      Devise := StrValue(order.currency)]) == Failure([CreatedAt])
  {
    var f := map[
      Order := UuidValue(id),
      NomClient := StrValue(order.customerName),
      Montant := FloatValue(order.totalAmount),
      Devise := StrValue(order.currency)];
    assert CreatedAt !in f && CreatedBy !in f;
    assert Check(f, Order) == [] && Check(f, NomClient) == [] && Check(f, Montant) == [];
    assert Check(f, Devise) == [] && Check(f, CreatedBy) == [] && Check(f, CreatedAt) == [CreatedAt];
    var errors := Check(f, Order) + Check(f, CreatedAt) + Check(f, NomClient)
      + Check(f, Montant) + Check(f, Devise) + Check(f, CreatedBy);
    assert errors == [CreatedAt];
  }

  /** As written, building the record fails on the missing required `created_at`, so nothing is ever appended. */
  lemma CreateOrderAsWrittenRejected(id: Uuid, order: OrderIn)
    ensures Construct(CreateOrderFieldsAsWritten(id, order)) == Failure([CreatedAt])
  {
    AsWrittenFieldsFilled(id, order);
    MissingTimestampRejected(id, order);
  }

  /** The same keyword arguments with the creation time supplied. */
  function CreateOrderFields(id: Uuid, order: OrderIn, createdAt: Instant): Fields {
    ByKeyword(CreateOrderKeywordsAsWritten(id, order)["created_at" := TimeValue(createdAt)])
  }

  /** With `created_at` supplied the record is built, carrying the input unchanged and no creator. */
  lemma CreateOrderFieldsAccepted(id: Uuid, order: OrderIn, createdAt: Instant)
    ensures Construct(CreateOrderFields(id, order, createdAt))
      == Success(OrderOut(id, createdAt, order.customerName, order.totalAmount, order.currency, None))
  {
  }

  // ---------------------------------------------------------------------------
  // The store

  /** The module-level `orders` list. */
  class OrderList {
    var items: seq<OrderOut>

    constructor ()
      ensures items == []
    {
      items := [];
    }
  }

  /** `OrderService`: stateless itself, it works on the shared `orders` list. */
  class OrderService {
    const orders: OrderList

    constructor (orders: OrderList)
      ensures this.orders == orders
    {
      this.orders := orders;
    }

    /**
     * `create_order`: appends exactly one order, built from the input under
     * the caller-supplied fresh id and creation time. There is no duplicate
     * check, so `OrderAlreadyExists` is never raised.
     */
    method CreateOrder(order: OrderIn, id: Uuid, createdAt: Instant) returns (created: OrderOut)
      requires IsFreshId(orders.items, id)
      modifies orders
      ensures orders.items == old(orders.items) + [created]
      ensures created == OrderOut(id, createdAt, order.customerName, order.totalAmount, order.currency, None)
      ensures Lookup(orders.items, id) == Some(created)
      ensures UniqueIds(old(orders.items)) ==> UniqueIds(orders.items)
    {
      CreateOrderFieldsAccepted(id, order, createdAt);
      LookupIsFirstMatch(orders.items, id);
      LookupAfterAppend(orders.items, Construct(CreateOrderFields(id, order, createdAt)).value, id);
      var built := Construct(CreateOrderFields(id, order, createdAt));
      created := built.value;
      orders.items := orders.items + [created];
    }

    /**
     * `get_order`: scans the list in insertion order and returns the first
     * order with the id, or fails with `OrderNotFound` naming the id.
     * It changes nothing.
     */
    method GetOrder(id: Uuid) returns (r: Result<OrderOut, OrderError>)
      ensures r.Success? <==> exists i :: FirstMatchAt(orders.items, id, i)
      ensures r.Success? ==> exists i :: FirstMatchAt(orders.items, id, i) && r.value == orders.items[i]
      ensures r.Failure? ==> r.error == OrderNotFound(NotFoundMessage(id))
      ensures r.Success? ==> Lookup(orders.items, id) == Some(r.value)
    {
      var items := orders.items;
      LookupIsFirstMatch(items, id);
      for i := 0 to |items|
        invariant forall j | 0 <= j < i :: items[j].orderId != id
      {
        if items[i].orderId == id {
          assert FirstMatchAt(items, id, i);
          return Success(items[i]);
        }
      }
      return Failure(OrderNotFound(NotFoundMessage(id)));
    }
  }
}
