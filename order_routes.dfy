/**
 * The order endpoints of src/api/routes/orders.py: authorisation by scope,
 * request validation, the call into the shared order service and the
 * translation of service exceptions into HTTP exceptions.
 */
module OrderRoutes {
  import opened Base
  import opened OrderSchema
  import opened OrderStore
  import opened JwtService
  import opened AuthDependencies

  /** Why the framework refused a request before the handler ran (422 with its default body). */
  datatype Invalid =
    | BodyInvalid(fields: seq<OrderField>)   // `OrderIn` validation errors
    | PathNotUuid                            // the `{order_id}` segment is not a UUID

  /** What a route call ends in. */
  datatype RouteOutcome =
    | Responded(statusCode: int, order: OrderOut)
    | Raised(exc: HttpException)             // handled by the registered HTTP exception handler
    | RequestInvalid(reason: Invalid)
    | Unhandled                              // an exception no handler catches: a plain 500

  /** A failed guard: its HTTP exception is raised, a `KeyError` escapes unhandled. */
  function AuthFailureOutcome(f: AuthFailure): (o: RouteOutcome)
    ensures o.Raised? <==> f.Rejected?
    ensures f.Rejected? ==> o.exc == f.exc
    ensures f.MissingUserId? ==> o == Unhandled
  {
    match f
    case Rejected(exc) => Raised(exc)
    case MissingUserId => Unhandled
  }

  /** `create_order`'s handler: `OrderAlreadyExists` becomes 409 with its text; anything else escapes. */
  function CreateErrorOutcome(e: OrderError): (o: RouteOutcome)
    ensures o.Raised? <==> e.OrderAlreadyExists?
    ensures o.Raised? ==> o.exc.statusCode == 409 && o.exc.detail == e.message && o.exc.headers == map[]
    ensures !o.Raised? ==> o == Unhandled
  {
    match e
    case OrderAlreadyExists(message) => Raised(HttpException(409, message, map[]))
    case _ => Unhandled
  }

  /**
   * `get_order`'s handler: not found becomes 404 with its text, a `ValueError`
   * 400 "Invalid UUID format". The 400 branch is never reached: the service
   * raises only not-found, and a path that is not a UUID is refused with 422
   * before the handler runs (`PathNotUuid`).
   */
  function GetErrorOutcome(e: OrderError): (o: RouteOutcome)
    ensures e.OrderNotFound? ==> o == Raised(HttpException(404, e.message, map[]))
    ensures e.InvalidValue? ==> o == Raised(HttpException(400, "Invalid UUID format", map[]))
    ensures e.OrderAlreadyExists? ==> o == Unhandled
  {
    match e
    case OrderNotFound(message) => Raised(HttpException(404, message, map[]))
    case InvalidValue(_) => Raised(HttpException(400, "Invalid UUID format", map[]))
    case OrderAlreadyExists(_) => Unhandled
  }

  /**
   * `POST /orders` over the service as written: once the guard and the body
   * validation pass, building the stored record raises pydantic's
   * validation error, which the handler's `except` does not catch, so every
   * valid request ends in a plain 500 and nothing is stored.
   */
  function CreateOrderRouteAsWritten(token: DecodeResult, body: OrderIn, id: Uuid): (o: RouteOutcome)
    ensures !o.Responded?
    ensures RequireOrdersWrite(token).Failure? ==> o == AuthFailureOutcome(RequireOrdersWrite(token).error)
    ensures RequireOrdersWrite(token).Success? && ValidateOrderIn(body).Failure? ==>
      o == RequestInvalid(BodyInvalid(ValidateOrderIn(body).error))
    ensures RequireOrdersWrite(token).Success? && ValidateOrderIn(body).Success? ==> o == Unhandled
  {
    var user := RequireOrdersWrite(token);
    if user.Failure? then AuthFailureOutcome(user.error)
    else
      var valid := ValidateOrderIn(body);
      if valid.Failure? then RequestInvalid(BodyInvalid(valid.error))
      else
        CreateOrderAsWrittenRejected(id, valid.value);
        match Construct(CreateOrderFieldsAsWritten(id, valid.value))
        case Success(created) => Responded(201, created)
        case Failure(_) => Unhandled
  }

  /** The `/orders` router over the one module-level service both endpoints share. */
  class OrdersRouter {
    const service: OrderService

    constructor (service: OrderService)
      ensures this.service == service
    {
      this.service := service;
    }

    /**
     * `POST /orders`: the "orders:write" guard runs first, then the body is
     * validated, then the order is stored and returned with 201. This runs
     * over the corrected service, which supplies `created_at`. The service
     * has no failure path, so the 409 translation is never reached.
     */
    method CreateOrder(token: DecodeResult, body: OrderIn, id: Uuid, createdAt: Instant) returns (outcome: RouteOutcome)
      requires IsFreshId(service.orders.items, id)
      modifies service.orders
      ensures RequireOrdersWrite(token).Failure? ==>
        outcome == AuthFailureOutcome(RequireOrdersWrite(token).error) && service.orders.items == old(service.orders.items)
      ensures RequireOrdersWrite(token).Success? && ValidateOrderIn(body).Failure? ==>
        outcome == RequestInvalid(BodyInvalid(ValidateOrderIn(body).error)) && service.orders.items == old(service.orders.items)
      ensures outcome.Responded? <==> RequireOrdersWrite(token).Success? && ValidateOrderIn(body).Success?
      ensures outcome.Responded? ==>
        && outcome.statusCode == 201
        && outcome.order == OrderOut(id, createdAt, body.customerName, body.totalAmount, body.currency, None)
        && service.orders.items == old(service.orders.items) + [outcome.order]
        && Lookup(service.orders.items, id) == Some(outcome.order)
    {
      var user := RequireOrdersWrite(token);
      if user.Failure? {
        return AuthFailureOutcome(user.error);
      }
      var valid := ValidateOrderIn(body);
      if valid.Failure? {
        return RequestInvalid(BodyInvalid(valid.error));
      }
      var created := service.CreateOrder(valid.value, id, createdAt);
      outcome := Responded(201, created);
    }

    /**
     * `GET /orders/{order_id}`: the "orders:read" guard runs first, then the
     * path must be a UUID; the stored order is returned with 200, or the
     * service's not-found error becomes a 404 naming the id.
     */
    method GetOrder(token: DecodeResult, orderId: Option<Uuid>) returns (outcome: RouteOutcome)
      ensures RequireOrdersRead(token).Failure? ==> outcome == AuthFailureOutcome(RequireOrdersRead(token).error)
      ensures RequireOrdersRead(token).Success? && orderId.None? ==> outcome == RequestInvalid(PathNotUuid)
      ensures RequireOrdersRead(token).Success? && orderId.Some? ==>
        outcome == match Lookup(service.orders.items, orderId.value)
                   case Some(o) => Responded(200, o)
                   case None => Raised(HttpException(404, NotFoundMessage(orderId.value), map[]))
    {
      var user := RequireOrdersRead(token);
      if user.Failure? {
        return AuthFailureOutcome(user.error);
      }
      if orderId.None? {
        return RequestInvalid(PathNotUuid);
      }
      var found := service.GetOrder(orderId.value);
      LookupIsFirstMatch(service.orders.items, orderId.value);
      if found.Success? {
        outcome := Responded(200, found.value);
      } else {
        outcome := GetErrorOutcome(found.error);
      }
    }

    /** An order created through POST is returned by GET on its id: both go through the same store. */
    method CreateThenGet(writer: DecodeResult, reader: DecodeResult, body: OrderIn, id: Uuid, createdAt: Instant)
      returns (created: RouteOutcome, fetched: RouteOutcome)
      requires IsFreshId(service.orders.items, id)
      requires RequireOrdersWrite(writer).Success? && RequireOrdersRead(reader).Success?
      requires ValidateOrderIn(body).Success?
      modifies service.orders
      ensures created.Responded? && created.statusCode == 201
      ensures fetched == Responded(200, created.order)
    {
      created := CreateOrder(writer, body, id, createdAt);
      fetched := GetOrder(reader, Some(id));
    }
  }
}
