/**
 * The development token endpoints of src/api/routes/auth.py. The two clock
 * readings taken while issuing the token are parameters.
 */
module AuthRoutes {
  import opened Base
  import opened JwtService
  import opened AuthDependencies

  /** `TokenRequest`; `scopes` defaults to none and `expires_in_minutes` to 30. */
  datatype TokenRequest = TokenRequest(userId: string, scopes: seq<string>, expiresInMinutes: int)

  function DefaultTokenRequest(userId: string): TokenRequest {
    TokenRequest(userId, [], 30)
  }

  /** `TokenResponse`: the token, its type, the announced lifetime in seconds and the scopes. */
  datatype TokenResponse = TokenResponse(accessToken: Token, tokenType: string, expiresIn: int, scopes: seq<string>)

  /** The true lifetime of an issued token, measured from the clock reading its `exp` is based on. */
  function Lifetime(t: Token, clockForExp: Instant): int {
    if t.payload.exp.Some? then t.payload.exp.value - clockForExp else 0
  }

  /**
   * `POST /auth/token`: issues a token for the requested user and scopes,
   * valid for the requested number of minutes, and announces that many
   * minutes in seconds.
   */
  function GenerateToken(req: TokenRequest, clockForExp: Instant, clockForIat: Instant): (resp: TokenResponse)
    ensures resp.accessToken.payload.userId == Some(req.userId)
    ensures resp.accessToken.payload.scopes == Some(resp.scopes) && resp.scopes == req.scopes
    ensures resp.tokenType == "bearer" && resp.expiresIn == 60 * req.expiresInMinutes
    ensures VerifyToken(Decoded(resp.accessToken.payload)) == Success(resp.accessToken.payload)
  {
    var token := CreateAccessToken(req.userId, req.scopes, Some(req.expiresInMinutes * 60), clockForExp, clockForIat);
    TokenResponse(token, "bearer", req.expiresInMinutes * 60, req.scopes)
  }

  /**
   * The announced `expires_in` is the token's real lifetime exactly when the
   * requested minutes are not zero: a zero `timedelta` is falsy, so such a
   * token lives the default 30 minutes while 0 seconds are announced.
   */
  lemma AnnouncedLifetimeIsExact(req: TokenRequest, t1: Instant, t2: Instant)
    ensures var resp := GenerateToken(req, t1, t2);
            Lifetime(resp.accessToken, t1) == resp.expiresIn <==> req.expiresInMinutes != 0
    ensures req.expiresInMinutes == 0 ==> Lifetime(GenerateToken(req, t1, t2).accessToken, t1) == 1800
  {
    var resp := GenerateToken(req, t1, t2);
    assert resp.accessToken == CreateAccessToken(req.userId, req.scopes, Some(req.expiresInMinutes * 60), t1, t2);
  }

  const TestUser: string := "test-user"
  const OrdersScopes: seq<string> := ["orders:write", "orders:read"]

  /** `POST /auth/token/orders-write`: a one-hour token with both order scopes, for `userId` (default "test-user"). */
  function GenerateOrdersWriteToken(clockForExp: Instant, clockForIat: Instant, userId: string := TestUser): (resp: TokenResponse)
    ensures resp.accessToken.payload.userId == Some(userId)
    ensures resp.scopes == ["orders:write", "orders:read"] && resp.accessToken.payload.scopes == Some(resp.scopes)
    ensures resp.tokenType == "bearer" && resp.expiresIn == 3600
    ensures Lifetime(resp.accessToken, clockForExp) == resp.expiresIn
  {
    var token := CreateAccessToken(userId, OrdersScopes, Some(60 * 60), clockForExp, clockForIat);
    TokenResponse(token, "bearer", 3600, OrdersScopes)
  }

  /** Called without a user id, the endpoint issues the token to "test-user". */
  lemma OrdersWriteTokenDefaultsToTestUser(t1: Instant, t2: Instant)
    ensures GenerateOrdersWriteToken(t1, t2).accessToken.payload.userId == Some("test-user")
    ensures GenerateOrdersWriteToken(t1, t2) == GenerateOrdersWriteToken(t1, t2, "test-user")
  {
  }

  /** The orders-write token, presented intact, passes both order guards as its user. */
  lemma OrdersWriteTokenPassesOrderGuards(userId: string, t1: Instant, t2: Instant)
    ensures var d := Decoded(GenerateOrdersWriteToken(t1, t2, userId).accessToken.payload);
            && RequireOrdersWrite(d) == Success(AuthenticatedUser(userId, ["orders:write", "orders:read"]))
            && RequireOrdersRead(d) == Success(AuthenticatedUser(userId, ["orders:write", "orders:read"]))
  {
    var d := Decoded(GenerateOrdersWriteToken(t1, t2, userId).accessToken.payload);
    assert "orders:write" in OrdersScopes && "orders:read" in OrdersScopes;
  }

  /** A token requested with the default scopes authenticates but is refused by both order guards. */
  lemma DefaultTokenIsRefusedByOrderGuards(userId: string, t1: Instant, t2: Instant)
    ensures var d := Decoded(GenerateToken(DefaultTokenRequest(userId), t1, t2).accessToken.payload);
            && GetCurrentUser(d) == Success(AuthenticatedUser(userId, []))
            && RequireOrdersWrite(d).Failure? && RequireOrdersRead(d).Failure?
  {
  }
}
