/**
 * The token decisions of src/shared/auth/jwt_service.py: the payload an
 * access token carries, its expiry, the three-way outcome of verification
 * and scope containment. Signing and decoding stay in the library: a token
 * is the payload it was issued with, and decoding is an input outcome.
 */
module JwtService {
  import opened Base

  /** `access_token_expire_minutes` (src/shared/config/jwt_config.py). */
  const AccessTokenExpireMinutes: int := 30
  /** The signing algorithm identifier; signing itself is not modelled. */
  const Algorithm: string := "HS256"
  const AccessType: string := "access"

  /**
   * A token payload as a dictionary: each claim may be missing from a
   * decoded token; `exp`, `iat` are clock readings.
   */
  datatype Claims = Claims(
    userId: Option<string>,
    scopes: Option<seq<string>>,
    exp: Option<Instant>,
    iat: Option<Instant>,
    tokenType: Option<string>)

  /** An issued token: the payload it was signed with. */
  datatype Token = Token(payload: Claims)

  /** What the library's decode does with a presented token. */
  datatype DecodeResult =
    | ExpiredSignature            // `jwt.ExpiredSignatureError`
    | InvalidToken                // any other `jwt.InvalidTokenError`
    | Decoded(payload: Claims)

  /** A `timedelta` in seconds; `None` when the caller gave none. */
  type Delta = Option<int>

  /** Python truthiness of an optional `timedelta`: `None` and a zero delta are both false. */
  predicate IsTruthy(delta: Delta) {
    delta.Some? && delta.value != 0
  }

  /** `exp`: the issue time plus the given delta, or plus the configured default when the delta is falsy. */
  function ExpiresAt(now: Instant, delta: Delta): (exp: Instant)
    ensures delta.Some? && delta.value != 0 ==> exp - now == delta.value
    ensures delta.None? || delta.value == 0 ==> exp - now == 30 * 60
  {
    if IsTruthy(delta) then now + delta.value
    else now + AccessTokenExpireMinutes * 60
  }

  /**
   * `create_access_token`. The clock is read twice: once for `exp`
   * (`clockForExp`) and once for `iat` (`clockForIat`).
   */
  function CreateAccessToken(userId: string, scopes: seq<string>, delta: Delta, clockForExp: Instant, clockForIat: Instant): (t: Token)
    ensures t.payload.userId == Some(userId) && t.payload.scopes == Some(scopes)
    ensures t.payload.iat == Some(clockForIat) && t.payload.tokenType == Some("access")
    ensures t.payload.exp.Some? && t.payload.exp.value == ExpiresAt(clockForExp, delta)
  {
    Token(Claims(
      userId := Some(userId),
      scopes := Some(scopes),
      exp := Some(ExpiresAt(clockForExp, delta)),
      iat := Some(clockForIat),
      tokenType := Some(AccessType)))
  }

  /** A zero delta is falsy, so the token gets the 30-minute default lifetime. */
  lemma ZeroDeltaFallsBackToDefault(userId: string, scopes: seq<string>, now: Instant, later: Instant)
    ensures CreateAccessToken(userId, scopes, Some(0), now, later).payload.exp == Some(now + 1800)
  {
  }

  const BearerChallenge: map<string, string> := map["WWW-Authenticate" := "Bearer"]

  function Unauthorized(detail: string): HttpException {
    HttpException(401, detail, BearerChallenge)
  }

  /**
   * `verify_token`: an expired token fails with "Token expiré", an
   * undecodable one or a payload whose `type` is not "access" with
   * "Token invalide"; otherwise the payload is returned unchanged.
   */
  function VerifyToken(d: DecodeResult): (r: Result<Claims, HttpException>)
    ensures r.Success? <==> d.Decoded? && d.payload.tokenType == Some("access")
    ensures r.Success? ==> r.value == d.payload
    ensures r.Failure? ==> r.error.statusCode == 401 && r.error.headers == map["WWW-Authenticate" := "Bearer"]
    ensures r.Failure? ==> r.error.detail == if d.ExpiredSignature? then "Token expiré" else "Token invalide"
  {
    match d
    case ExpiredSignature => Failure(Unauthorized("Token expiré"))
    case InvalidToken => Failure(Unauthorized("Token invalide"))
    case Decoded(payload) =>
      if payload.tokenType != Some(AccessType) then Failure(Unauthorized("Token invalide"))
      else Success(payload)
  }

  /** A token this service issued, decoded intact, verifies to exactly its payload. */
  lemma IssuedTokenVerifies(userId: string, scopes: seq<string>, delta: Delta, t1: Instant, t2: Instant)
    ensures var t := CreateAccessToken(userId, scopes, delta, t1, t2);
            VerifyToken(Decoded(t.payload)) == Success(t.payload)
  {
  }

  /** `verify_scopes`: every required scope occurs among the token's scopes. */
  function VerifyScopes(tokenScopes: seq<string>, required: seq<string>): (ok: bool)
    ensures ok <==> forall s | s in required :: s in tokenScopes
  {
    if required == [] then true
    else required[0] in tokenScopes && VerifyScopes(tokenScopes, required[1..])
  }

  /** Only the sets of scopes matter: order and repetition are irrelevant. */
  lemma VerifyScopesIsSetContainment(tokenScopes: seq<string>, required: seq<string>)
    ensures VerifyScopes(tokenScopes, required) <==> (set s | s in required) <= (set s | s in tokenScopes)
  {
    if !VerifyScopes(tokenScopes, required) {
      var s :| s in required && s !in tokenScopes;
      var wanted := set x | x in required;
      var held := set x | x in tokenScopes;
      assert s in wanted && s !in held;
      assert !(wanted <= held);
    }
  }

  /** An empty requirement always passes. */
  lemma EmptyRequirementPasses(tokenScopes: seq<string>)
    ensures VerifyScopes(tokenScopes, [])
  {
  }

  /** Granting more scopes never turns a passing check into a failing one. */
  lemma VerifyScopesMonotonic(held: seq<string>, more: seq<string>, required: seq<string>)
    requires VerifyScopes(held, required)
    requires forall s | s in held :: s in more
    ensures VerifyScopes(more, required)
  {
  }
}
