/**
 * The FastAPI dependencies of src/api/dependencies/auth.py: resolving the
 * bearer token to an authenticated user, and the scope guards built on it.
 * The bearer credentials arrive already decoded (`DecodeResult`).
 */
module AuthDependencies {
  import opened Base
  import opened JwtService

  /** `AuthenticatedUser`: the user id and the scopes the token grants. */
  datatype AuthenticatedUser = AuthenticatedUser(userId: string, scopes: seq<string>)

  /** Why a dependency did not produce a user. */
  datatype AuthFailure =
    | Rejected(exc: HttpException)  // an `HTTPException` the framework turns into a response
    | MissingUserId                 // `payload["user_id"]` raises `KeyError`: an unhandled error

  /**
   * `get_current_user`: a token that does not verify is rejected with the
   * verifier's exception; a verified payload without `user_id` fails with a
   * `KeyError`; otherwise the user carries the payload's id and its scopes,
   * or no scopes when the claim is missing.
   */
  function GetCurrentUser(d: DecodeResult): (r: Result<AuthenticatedUser, AuthFailure>)
    ensures VerifyToken(d).Failure? ==> r == Failure(Rejected(VerifyToken(d).error))
    ensures VerifyToken(d).Success? && d.payload.userId.None? ==> r == Failure(MissingUserId)
    ensures r.Success? <==> VerifyToken(d).Success? && d.payload.userId.Some?
    ensures r.Success? ==> r.value.userId == d.payload.userId.value
    ensures r.Success? ==> r.value.scopes == if d.payload.scopes.Some? then d.payload.scopes.value else []
  {
    match VerifyToken(d)
    case Failure(exc) => Failure(Rejected(exc))
    case Success(payload) =>
      if payload.userId.None? then Failure(MissingUserId)
      else Success(AuthenticatedUser(payload.userId.value, payload.scopes.GetOr([])))
  }

  /** `f"Scopes insuffisants. Requis: {required_scopes}"`. */
  function ForbiddenDetail(required: seq<string>): string {
    "Scopes insuffisants. Requis: " + PyListRepr(required)
  }

  /** The 403 detail names every required scope. */
  lemma ForbiddenDetailNamesEachScope(required: seq<string>, k: nat)
    requires k < |required|
    ensures Contains(ForbiddenDetail(required), required[k])
  {
    ListReprMentions(required, k);
    ContainsExtend("Scopes insuffisants. Requis: ", PyListRepr(required), "", required[k]);
    assert "Scopes insuffisants. Requis: " + PyListRepr(required) + "" == ForbiddenDetail(required);
  }

  /**
   * The dependency `require_scopes(required)` returns: authentication first,
   * so a bad token fails exactly as `get_current_user` does; an
   * authenticated user lacking a required scope gets a 403 without extra
   * headers; otherwise the user passes through unchanged.
   */
  function RequireScopes(required: seq<string>, d: DecodeResult): (r: Result<AuthenticatedUser, AuthFailure>)
    ensures GetCurrentUser(d).Failure? ==> r == GetCurrentUser(d)
    ensures r.Success? ==> r == GetCurrentUser(d)
    ensures GetCurrentUser(d).Success? ==>
      (r.Success? <==> forall s | s in required :: s in GetCurrentUser(d).value.scopes)
    ensures GetCurrentUser(d).Success? && r.Failure? ==>
      r.error == Rejected(HttpException(403, ForbiddenDetail(required), map[]))
  {
    match GetCurrentUser(d)
    case Failure(e) => Failure(e)
    case Success(user) =>
      if !VerifyScopes(user.scopes, required) then
        Failure(Rejected(HttpException(403, ForbiddenDetail(required), map[])))
      else Success(user)
  }

  const OrdersWriteScope: string := "orders:write"
  const OrdersReadScope: string := "orders:read"

  /** `RequireOrdersWrite`: a verified token with a user id and the "orders:write" scope. */
  function RequireOrdersWrite(d: DecodeResult): (r: Result<AuthenticatedUser, AuthFailure>)
    ensures r.Success? <==>
      d.Decoded? && d.payload.tokenType == Some("access") && d.payload.userId.Some?
      && d.payload.scopes.Some? && "orders:write" in d.payload.scopes.value
    ensures r.Success? ==> r.value == AuthenticatedUser(d.payload.userId.value, d.payload.scopes.value)
  {
    RequireScopes([OrdersWriteScope], d)
  }

  /** `RequireOrdersRead`: a verified token with a user id and the "orders:read" scope. */
  function RequireOrdersRead(d: DecodeResult): (r: Result<AuthenticatedUser, AuthFailure>)
    ensures r.Success? <==>
      d.Decoded? && d.payload.tokenType == Some("access") && d.payload.userId.Some?
      && d.payload.scopes.Some? && "orders:read" in d.payload.scopes.value
    ensures r.Success? ==> r.value == AuthenticatedUser(d.payload.userId.value, d.payload.scopes.value)
  {
    RequireScopes([OrdersReadScope], d)
  }

  /** A token without a `scopes` claim authenticates but passes no guard that requires a scope. */
  lemma MissingScopesClaimIsForbidden(required: seq<string>, d: DecodeResult)
    requires required != []
    requires d.Decoded? && d.payload.tokenType == Some("access") && d.payload.userId.Some?
    requires d.payload.scopes.None?
    ensures GetCurrentUser(d) == Success(AuthenticatedUser(d.payload.userId.value, []))
    ensures RequireScopes(required, d) == Failure(Rejected(HttpException(403, ForbiddenDetail(required), map[])))
  {
    assert required[0] in required;
  }

  /**
   * Issue, decode, guard: a token this service issued, presented intact,
   * passes every guard whose scopes it was issued with, and yields its user.
   */
  lemma IssuedTokenPassesGuard(userId: string, scopes: seq<string>, required: seq<string>,
                               delta: Delta, t1: Instant, t2: Instant)
    requires forall s | s in required :: s in scopes
    ensures RequireScopes(required, Decoded(CreateAccessToken(userId, scopes, delta, t1, t2).payload))
      == Success(AuthenticatedUser(userId, scopes))
  {
  }
}
