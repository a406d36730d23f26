/**
 * The JWT plugin: issuing an access/refresh token pair, exchanging a refresh
 * token for a new access token, and authenticating a request.
 *
 * A token is an abstract signed record: the key it was signed with, its
 * private claims, and the registered claims `iat`, `exp`, `iss` and `aud` of
 * section 4.1 of RFC 7519. Verifying checks the key, then expiry, then
 * audience, then issuer; a forged or unreadable token is `Garbage`.
 * Times are whole seconds.
 */
module Tokens {
  import opened Common
  import opened Users

  datatype Config = Config(accessKey: string, refreshKey: string, issuer: string, audience: string,
                           accessTtl: nat, refreshTtl: nat)

  const DefaultAccessKey := "your-secret-key"
  const DefaultRefreshKey := "refresh-secret-key"
  const DefaultIssuer := "barber-core-api"
  const DefaultAudience := "milkyano-barber-web"
  const OneDay := 86400
  const NinetyDays := 90 * OneDay

  /** The seconds the issue result reports, whatever lifetime the access token really has. */
  const ReportedExpiresIn := 86400

  /**
   * The configuration the environment gives: each string setting falls back
   * to its default when unset or empty; a lifetime is given already converted
   * to seconds, `None` meaning unset.
   */
  function ConfigFrom(jwtSecret: Option<string>, refreshSecret: Option<string>, issuer: Option<string>,
                      audience: Option<string>, accessTtl: Option<nat>, refreshTtl: Option<nat>): (c: Config)
    ensures c.accessKey == (if Truthy(jwtSecret).Some? then jwtSecret.value else DefaultAccessKey)
    ensures c.refreshKey == (if Truthy(refreshSecret).Some? then refreshSecret.value else DefaultRefreshKey)
    ensures c.issuer == (if Truthy(issuer).Some? then issuer.value else DefaultIssuer)
    ensures c.audience == (if Truthy(audience).Some? then audience.value else DefaultAudience)
    ensures c.accessTtl == (if accessTtl.Some? then accessTtl.value else OneDay)
    ensures c.refreshTtl == (if refreshTtl.Some? then refreshTtl.value else NinetyDays)
    ensures jwtSecret.None? && refreshSecret.None? ==> c.accessKey != c.refreshKey
  {
    Config(
      match Truthy(jwtSecret) case Some(k) => k case None => DefaultAccessKey,
      match Truthy(refreshSecret) case Some(k) => k case None => DefaultRefreshKey,
      match Truthy(issuer) case Some(i) => i case None => DefaultIssuer,
      match Truthy(audience) case Some(a) => a case None => DefaultAudience,
      match accessTtl case Some(t) => t case None => OneDay,
      match refreshTtl case Some(t) => t case None => NinetyDays)
  }

  type Claims = map<string, Json>

  datatype Token =
    | Signed(key: string, claims: Claims, iat: int, exp: int, iss: string, aud: string)
    | Garbage

  /** Signing with the configured issuer and audience, valid for `ttl` seconds from `now`. */
  function Sign(cfg: Config, key: string, claims: Claims, now: int, ttl: nat): (t: Token)
    ensures t.Signed? && t.key == key && t.claims == claims
    ensures t.iat == now && t.exp == now + ttl && t.iss == cfg.issuer && t.aud == cfg.audience
  {
    Signed(key, claims, now, now + ttl, cfg.issuer, cfg.audience)
  }

  datatype VerifyError = BadSignature | Expired | WrongAudience | WrongIssuer

  /** Verification under `key` with the configured issuer and audience, at time `now`. */
  function Verify(cfg: Config, key: string, t: Token, now: int): (r: Result<Claims, VerifyError>)
    ensures r.Ok? <==> t.Signed? && t.key == key && now < t.exp && t.aud == cfg.audience && t.iss == cfg.issuer
    ensures r.Ok? ==> r.value == t.claims
    ensures r == Err(Expired) <==> t.Signed? && t.key == key && t.exp <= now
    ensures r == Err(BadSignature) <==> !(t.Signed? && t.key == key)
  {
    if !t.Signed? || t.key != key then Err(BadSignature)
    else if t.exp <= now then Err(Expired)
    else if t.aud != cfg.audience then Err(WrongAudience)
    else if t.iss != cfg.issuer then Err(WrongIssuer)
    else Ok(t.claims)
  }

  /** A string column as JSON, `null` when absent. */
  function NullableString(s: Option<string>): Json {
    match s
    case Some(v) => JStr(v)
    case None => JNull
  }

  /** The private claims of an access token. */
  function AccessClaims(u: User): (c: Claims)
    ensures c.Keys == {"sub", "role", "phoneNumber", "email", "firstName", "lastName", "isVerified"}
    ensures c["sub"] == JStr(u.id) && c["role"] == JStr(RoleName(u.role))
    ensures c["isVerified"] == JBool(u.isVerified) && c["phoneNumber"] == JStr(u.phoneNumber)
    ensures c["email"] == NullableString(u.email)
    ensures c["firstName"] == JStr(u.firstName) && c["lastName"] == JStr(u.lastName)
  {
    map["sub" := JStr(u.id), "role" := JStr(RoleName(u.role)), "phoneNumber" := JStr(u.phoneNumber),
        "email" := NullableString(u.email), "firstName" := JStr(u.firstName), "lastName" := JStr(u.lastName),
        "isVerified" := JBool(u.isVerified)]
  }

  /** The private claims of a refresh token: only the subject and the token type. */
  function RefreshClaims(u: User): (c: Claims)
    ensures c.Keys == {"sub", "type"} && c["sub"] == JStr(u.id) && c["type"] == JStr("refresh")
  {
    map["sub" := JStr(u.id), "type" := JStr("refresh")]
  }

  /** The `sub` claim as a user id, when it is a string. */
  function Subject(c: Claims): (id: Option<Id>)
    ensures id.Some? <==> "sub" in c && c["sub"].JStr?
    ensures id.Some? ==> c["sub"] == JStr(id.value)
  {
    if "sub" in c && c["sub"].JStr? then Some(c["sub"].s) else None
  }

  datatype TokenPair = TokenPair(accessToken: Token, refreshToken: Token, expiresIn: int, tokenType: string)

  /** `generateTokens(user)`. */
  function GenerateTokens(cfg: Config, u: User, now: int): (p: TokenPair)
    ensures p.accessToken == Sign(cfg, cfg.accessKey, AccessClaims(u), now, cfg.accessTtl)
    ensures p.refreshToken == Sign(cfg, cfg.refreshKey, RefreshClaims(u), now, cfg.refreshTtl)
    ensures p.expiresIn == ReportedExpiresIn && p.tokenType == "Bearer"
  {
    TokenPair(Sign(cfg, cfg.accessKey, AccessClaims(u), now, cfg.accessTtl),
              Sign(cfg, cfg.refreshKey, RefreshClaims(u), now, cfg.refreshTtl),
              ReportedExpiresIn, "Bearer")
  }

  /** With the default lifetime the reported `expiresIn` is the access token's real lifetime. */
  lemma {:induction false} DefaultLifetimeReported(cfg: Config, u: User, now: int)
    requires cfg.accessTtl == OneDay
    ensures var t := GenerateTokens(cfg, u, now).accessToken; t.exp - t.iat == GenerateTokens(cfg, u, now).expiresIn
  {
  }

  /** The result of a refresh: a new access token and no new refresh token. */
  datatype AccessGrant = AccessGrant(accessToken: Token, expiresIn: int, tokenType: string)

  const ExpiredRefreshMessage := "Refresh token has expired"
  const InvalidRefreshMessage := "Invalid refresh token"

  /** The `try` block of `refreshAccessToken`: the grant, or the error raised on the way. */
  function RefreshAttempt(cfg: Config, users: Table, token: Token, now: int): Result<AccessGrant, Option<VerifyError>> {
    match Verify(cfg, cfg.refreshKey, token, now)
    case Err(e) => Err(Some(e))
    case Ok(claims) =>
      if "type" !in claims || claims["type"] != JStr("refresh") then Err(None)
      else
        match Subject(claims)
        case None => Err(None)
        case Some(id) =>
          if id !in users then Err(None)
          else Ok(AccessGrant(Sign(cfg, cfg.accessKey, AccessClaims(users[id]), now, cfg.accessTtl),
                              ReportedExpiresIn, "Bearer"))
  }

  /** `refreshAccessToken(token)`: every failure collapses to one of two messages. */
  function RefreshAccessToken(cfg: Config, users: Table, token: Token, now: int): (r: Result<AccessGrant, string>)
    ensures r.Err? ==> r.error == ExpiredRefreshMessage || r.error == InvalidRefreshMessage
    ensures r == Err(ExpiredRefreshMessage) <==> Verify(cfg, cfg.refreshKey, token, now) == Err(Expired)
    ensures r.Ok? <==>
      Verify(cfg, cfg.refreshKey, token, now).Ok? && "type" in token.claims && token.claims["type"] == JStr("refresh")
      && Subject(token.claims).Some? && Subject(token.claims).value in users
    ensures r.Ok? ==>
      r.value.accessToken == Sign(cfg, cfg.accessKey, AccessClaims(users[Subject(token.claims).value]), now, cfg.accessTtl)
      && r.value.expiresIn == ReportedExpiresIn && r.value.tokenType == "Bearer"
  {
    match RefreshAttempt(cfg, users, token, now)
    case Ok(g) => Ok(g)
    case Err(e) => if e == Some(Expired) then Err(ExpiredRefreshMessage) else Err(InvalidRefreshMessage)
  }

  /**
   * A refresh token issued for a user still in the store, presented before it
   * expires, yields an access token built from the store's current record.
   */
  lemma {:induction false} RefreshUsesCurrentRecord(cfg: Config, issuedFor: User, users: Table, issuedAt: int, now: int)
    requires issuedFor.id in users
    requires issuedAt <= now < issuedAt + cfg.refreshTtl
    ensures var g := RefreshAccessToken(cfg, users, GenerateTokens(cfg, issuedFor, issuedAt).refreshToken, now);
            g.Ok? && g.value.accessToken.claims == AccessClaims(users[issuedFor.id])
  {
    var t := GenerateTokens(cfg, issuedFor, issuedAt).refreshToken;
    assert Verify(cfg, cfg.refreshKey, t, now).Ok?;
    assert Subject(t.claims) == Some(issuedFor.id);
  }

  /** An expired refresh token is reported as expired, whatever the store holds. */
  lemma {:induction false} ExpiredRefreshReported(cfg: Config, issuedFor: User, users: Table, issuedAt: int, now: int)
    requires issuedAt + cfg.refreshTtl <= now
    ensures RefreshAccessToken(cfg, users, GenerateTokens(cfg, issuedFor, issuedAt).refreshToken, now)
            == Err(ExpiredRefreshMessage)
  {
    assert Verify(cfg, cfg.refreshKey, GenerateTokens(cfg, issuedFor, issuedAt).refreshToken, now) == Err(Expired);
  }

  /** An access token is never accepted as a refresh token, even when the two keys coincide. */
  lemma {:induction false} AccessTokenIsNotARefreshToken(cfg: Config, u: User, users: Table, issuedAt: int, now: int)
    ensures RefreshAccessToken(cfg, users, GenerateTokens(cfg, u, issuedAt).accessToken, now).Err?
  {
    var t := GenerateTokens(cfg, u, issuedAt).accessToken;
    assert "type" !in t.claims;
  }

  /** A refresh token is never accepted for authentication when the keys differ. */
  lemma {:induction false} RefreshTokenDoesNotAuthenticate(cfg: Config, u: User, users: Table, issuedAt: int, now: int)
    requires cfg.accessKey != cfg.refreshKey
    ensures Authenticated(cfg, users, Some(GenerateTokens(cfg, u, issuedAt).refreshToken), now)
            == Err(TokenRejected(BadSignature))
  {
  }

  /**
   * Authentication never looks at the `type` claim, so with one secret for
   * both keys a refresh token authenticates for as long as it lives.
   */
  lemma {:induction false} SharedSecretRefreshAuthenticates(cfg: Config, u: User, users: Table, issuedAt: int, now: int)
    requires cfg.accessKey == cfg.refreshKey
    requires u.id in users && issuedAt <= now < issuedAt + cfg.refreshTtl
    ensures Authenticated(cfg, users, Some(GenerateTokens(cfg, u, issuedAt).refreshToken), now).Ok?
  {
  }

  /** The token payload as the verifier decodes it: private and registered claims together. */
  function Payload(t: Token): (p: Claims)
    requires t.Signed?
    ensures p.Keys == t.claims.Keys + {"iat", "exp", "iss", "aud"}
    ensures forall k :: k in t.claims && k !in {"iat", "exp", "iss", "aud"} ==> p[k] == t.claims[k]
  {
    t.claims + map["iat" := JNum(t.iat), "exp" := JNum(t.exp), "iss" := JStr(t.iss), "aud" := JStr(t.aud)]
  }

  /** The stored user row as an object. */
  function UserRecord(u: User): (m: Claims)
    ensures m.Keys == {"id", "phoneNumber", "email", "firstName", "lastName", "password", "role", "isVerified", "squareupId"}
    ensures m["id"] == JStr(u.id) && m["role"] == JStr(RoleName(u.role))
    ensures m["isVerified"] == JBool(u.isVerified)
  {
    map["id" := JStr(u.id), "phoneNumber" := JStr(u.phoneNumber), "email" := NullableString(u.email),
        "firstName" := JStr(u.firstName), "lastName" := JStr(u.lastName),
        "password" := (match u.password case Some(h) => JStr(h.secret) case None => JNull),
        "role" := JStr(RoleName(u.role)), "isVerified" := JBool(u.isVerified),
        "squareupId" := NullableString(u.squareupId)]
  }

  /** `{ ...payload, ...user }`: the stored row wins wherever both have a field. */
  function Merge(payload: Claims, u: User): (m: Claims)
    ensures m.Keys == payload.Keys + UserRecord(u).Keys
    ensures m["role"] == JStr(RoleName(u.role)) && m["id"] == JStr(u.id)
    ensures "sub" in payload ==> m["sub"] == payload["sub"]
  {
    var rec := UserRecord(u);
    assert "sub" !in rec;
    payload + rec
  }

  datatype AuthFailure =
    | NoToken                           // no bearer token on the request
    | TokenRejected(reason: VerifyError)
    | UserGone                          // the token's subject is not in the store

  /** What `authenticate` leaves in `request.user` when it succeeds, or why it fails. */
  function Authenticated(cfg: Config, users: Table, header: Option<Token>, now: int): (r: Result<Claims, AuthFailure>)
    ensures r.Ok? <==>
      header.Some? && Verify(cfg, cfg.accessKey, header.value, now).Ok?
      && Subject(header.value.claims).Some? && Subject(header.value.claims).value in users
    ensures r.Ok? ==>
      var u := users[Subject(header.value.claims).value];
      r.value == Merge(Payload(header.value), u)
      && r.value["role"] == JStr(RoleName(u.role)) && r.value["sub"] == header.value.claims["sub"]
    ensures header.None? ==> r == Err(NoToken)
    ensures header.Some? && Verify(cfg, cfg.accessKey, header.value, now).Err? ==>
      r == Err(TokenRejected(Verify(cfg, cfg.accessKey, header.value, now).error))
  {
    match header
    case None => Err(NoToken)
    case Some(t) =>
      match Verify(cfg, cfg.accessKey, t, now)
      case Err(e) => Err(TokenRejected(e))
      case Ok(claims) =>
        match Subject(claims)
        case None => Err(UserGone)
        case Some(id) =>
          assert "sub" !in {"iat", "exp", "iss", "aud"} && Payload(t)["sub"] == claims["sub"];
          if id in users then Ok(Merge(Payload(t), users[id])) else Err(UserGone)
  }

  /** A token issued to a user who is still stored authenticates as that user, with the store's role. */
  lemma {:induction false} IssuedTokenAuthenticates(cfg: Config, u: User, users: Table, issuedAt: int, now: int)
    requires u.id in users
    requires issuedAt <= now < issuedAt + cfg.accessTtl
    ensures var r := Authenticated(cfg, users, Some(GenerateTokens(cfg, u, issuedAt).accessToken), now);
            r.Ok? && r.value["sub"] == JStr(u.id) && r.value["role"] == JStr(RoleName(users[u.id].role))
  {
    var t := GenerateTokens(cfg, u, issuedAt).accessToken;
    assert Verify(cfg, cfg.accessKey, t, now) == Ok(AccessClaims(u));
    assert Subject(t.claims) == Some(u.id);
  }

  /** An incoming request, whose `user` the authentication hook fills in. */
  class Request {
    const authorization: Option<Token>
    var user: Option<Claims>

    constructor (authorization: Option<Token>)
      ensures this.authorization == authorization && user == None
    {
      this.authorization := authorization;
      user := None;
    }

    /**
     * `authenticate`: on success `user` is the token payload with the stored
     * row spread over it. A failure is answered with 401; when only the user
     * lookup failed, `user` already holds the payload.
     */
    method Authenticate(cfg: Config, users: Table, now: int) returns (failure: Option<AuthFailure>)
      modifies this
      ensures failure.None? <==> Authenticated(cfg, users, authorization, now).Ok?
      ensures failure.None? ==> user == Some(Authenticated(cfg, users, authorization, now).value)
      ensures failure.Some? ==> failure.value == Authenticated(cfg, users, authorization, now).error
      ensures failure == Some(UserGone) ==> user == Some(Payload(authorization.value))
      ensures failure.Some? && failure != Some(UserGone) ==> user == old(user)
    {
      if authorization.None? {
        return Some(NoToken);
      }
      var token := authorization.value;
      var verified := Verify(cfg, cfg.accessKey, token, now);
      if verified.Err? {
        return Some(TokenRejected(verified.error));
      }
      user := Some(Payload(token));
      var sub := Subject(verified.value);
      if sub.None? || sub.value !in users {
        return Some(UserGone);
      }
      user := Some(Merge(user.value, users[sub.value]));
      return None;
    }
  }
}
