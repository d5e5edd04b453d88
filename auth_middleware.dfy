/**
 * `verifyJWT`, the gate in front of the protected handlers: choose where
 * the access token comes from, verify it with the access secret, look the
 * user up, and turn every failure into a 401. It only reads the table.
 */
module AuthMiddleware {
  import opened Wrappers
  import opened Strings
  import opened Crypto
  import opened Responses
  import opened UserModel

  const BearerPrefix := "Bearer "

  /**
   * `req.cookies?.accessToken || req.header("Authorization")?.replace("Bearer ", "")`:
   * a truthy cookie wins; otherwise the header with its first "Bearer "
   * removed; otherwise nothing.
   */
  function PresentedToken(cookie: Option<string>, authorization: Option<string>): (t: Option<string>)
    ensures Truthy(cookie) ==> t == cookie
    ensures !Truthy(cookie) ==> (t.Some? <==> authorization.Some?)
    ensures forall i: nat ::
              !Truthy(cookie) && authorization.Some? && OccursAt(authorization.value, BearerPrefix, i) &&
              (forall j: nat :: j < i ==> !OccursAt(authorization.value, BearerPrefix, j)) ==>
              t == Some(authorization.value[..i] + authorization.value[i + |BearerPrefix|..])
    ensures !Truthy(cookie) && authorization.Some? && (forall j: nat :: !OccursAt(authorization.value, BearerPrefix, j)) ==>
              t == authorization
  {
    if Truthy(cookie) then cookie
    else if authorization.Some? then
      ReplaceFirstByEmpty(authorization.value, BearerPrefix);
      Some(ReplaceFirst(authorization.value, BearerPrefix, ""))
    else None
  }

  /**
   * The gate's decision: the sanitized user to attach as `req.user`, or the
   * 401 it throws. A missing token gives "Unauthorized request"; a failed
   * verification gives the library's message; an id naming no user gives
   * "Invalid access token".
   */
  function VerifyJwt(cfg: Config, records: map<UserId, UserRecord>,
                     cookie: Option<string>, authorization: Option<string>): (r: Result<PublicUser, ApiError>)
    ensures r.Failure? ==> r.error.status == 401
    ensures !Truthy(PresentedToken(cookie, authorization)) ==> r == Failure(ApiError(401, "Unauthorized request"))
    ensures r.Success? <==>
      && Truthy(PresentedToken(cookie, authorization))
      && cfg.crypto.verify(PresentedToken(cookie, authorization).value, cfg.accessSecret).Success?
      && cfg.crypto.verify(PresentedToken(cookie, authorization).value, cfg.accessSecret).value.id in records
    ensures r.Success? ==> r.value.id in records && r.value == Sanitize(r.value.id, records[r.value.id])
    ensures r.Success? ==>
      r.value.id == cfg.crypto.verify(PresentedToken(cookie, authorization).value, cfg.accessSecret).value.id
  {
    var token := PresentedToken(cookie, authorization);
    if !Truthy(token) then
      Failure(ApiError(401, "Unauthorized request"))
    else
      match cfg.crypto.verify(token.value, cfg.accessSecret)
      case Failure(message) => Failure(Rethrow401(message, "Invalid access token"))
      case Success(claims) =>
        if claims.id in records then Success(Sanitize(claims.id, records[claims.id]))
        else Failure(ApiError(401, "Invalid access token"))
  }

  /** Without a truthy cookie, an `Authorization: Bearer <t>` header yields exactly `<t>`. */
  lemma BearerHeaderStripped(cookie: Option<string>, t: string)
    requires !Truthy(cookie)
    ensures PresentedToken(cookie, Some(BearerPrefix + t)) == Some(t)
  {
    ReplaceLeadingPattern(BearerPrefix, t);
  }

  /** The access token issued for a stored user admits that user, from the cookie or from a Bearer header. */
  lemma AccessTokenAdmitted(cfg: Config, records: map<UserId, UserRecord>, id: UserId, now: NumericDate,
                            authorization: Option<string>)
    requires Sound(cfg.crypto) && id in records
    ensures var t := GenerateAccessToken(cfg, id, records[id], now);
      && VerifyJwt(cfg, records, Some(t), authorization) == Success(Sanitize(id, records[id]))
      && VerifyJwt(cfg, records, None, Some(BearerPrefix + t)) == Success(Sanitize(id, records[id]))
  {
    var t := GenerateAccessToken(cfg, id, records[id], now);
    AccessTokenClaims(cfg, id, records[id], now);
    BearerHeaderStripped(None, t);
  }

  /** A refresh token does not pass the gate when the two secrets differ. */
  lemma RefreshTokenRefused(cfg: Config, records: map<UserId, UserRecord>, id: UserId, now: NumericDate,
                            authorization: Option<string>)
    requires Sound(cfg.crypto) && cfg.accessSecret != cfg.refreshSecret
    ensures VerifyJwt(cfg, records, Some(GenerateRefreshToken(cfg, id, now)), authorization).Failure?
  {
    RefreshTokenClaims(cfg, id, now);
  }

  /** A verified token whose `_id` names no stored user is refused with "Invalid access token". */
  lemma UnknownUserRefused(cfg: Config, records: map<UserId, UserRecord>, token: string, claims: Claims)
    requires token != "" && cfg.crypto.verify(token, cfg.accessSecret) == Success(claims)
    requires claims.id !in records
    ensures VerifyJwt(cfg, records, Some(token), None) == Failure(ApiError(401, "Invalid access token"))
  {
  }
}
