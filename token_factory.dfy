/**
  The JWT factory: typed claim sets with an issue time and an expiry.

  The two token modules of the repository carry the same factory (the
  fastapi-app copy adds only the token-store insert, see TokenHandlers), so
  it is modelled once. The token type, the identity claims and the window
  are combined by small specification functions; the factory's own methods
  build the claim dictionary step by step as the source does and are proved
  equal to them.
*/
module TokenFactory {
  import opened Results
  import opened Codec
  import opened Config

  const TokenTypeField := "type"
  const AccessTokenType := "access"
  const RefreshTokenType := "refresh"
  const IssuedAtField := "iat"
  const SubjectField := "sub"
  const UserIdField := "user_id"
  const LoginField := "login"

  const SecondsPerMinute := 60
  const SecondsPerDay := 86400

  /** A `timedelta` is false when it is None or zero. */
  predicate Truthy(delta: Option<int>)
  {
    delta.Some? && delta.value != 0
  }

  /** Expiry time: the explicit delta when it is truthy, else the minutes window. */
  function Expiry(now: int, expireMinutes: int, expireDelta: Option<int>): int
  {
    if Truthy(expireDelta) then now + expireDelta.value else now + expireMinutes * SecondsPerMinute
  }

  /** The claims `encode_jwt` signs: a copy of the payload with `iat` and
      `exp` set, everything else as it was. */
  function Stamped(payload: Claims, iat: int, exp: int): (r: Claims)
    ensures r.Keys == payload.Keys + {IssuedAtField, ExpField}
    ensures r[IssuedAtField] == Int(iat) && r[ExpField] == Int(exp)
    ensures forall k :: k in payload && k != IssuedAtField && k != ExpField ==> r[k] == payload[k]
  {
    payload[IssuedAtField := Int(iat)][ExpField := Int(exp)]
  }

  /** The payload `create_jwt` hands on: the type field first, then
      `tokenData`, whose keys win on a clash. */
  function Typed(tokenType: string, tokenData: Claims): (r: Claims)
    ensures r.Keys == tokenData.Keys + {TokenTypeField}
    ensures forall k :: k in tokenData ==> r[k] == tokenData[k]
    ensures TokenTypeField !in tokenData ==> r[TokenTypeField] == Str(tokenType)
  {
    map[TokenTypeField := Str(tokenType)] + tokenData
  }

  /** Identity claims of an access token. */
  function AccessData(user: Claims): Claims
  {
    map[SubjectField := Get(user, UserIdField), UserIdField := Get(user, UserIdField), LoginField := Get(user, LoginField)]
  }

  /** Identity claims of a refresh token: no login. */
  function RefreshData(user: Claims): Claims
  {
    map[SubjectField := Get(user, UserIdField), UserIdField := Get(user, UserIdField)]
  }

  /** The delta `create_refresh_token` passes: the refresh window in days. */
  function RefreshDelta(s: Settings): Option<int>
  {
    Some(s.refreshTokenExpireDays * SecondsPerDay)
  }

  /** Everything an access token issued at `now` carries. */
  function AccessClaims(user: Claims, s: Settings, now: int): Claims
  {
    Stamped(Typed(AccessTokenType, AccessData(user)), now, Expiry(now, s.accessTokenExpireMinutes, None))
  }

  /** Everything a refresh token issued at `now` carries. */
  function RefreshClaims(user: Claims, s: Settings, now: int): Claims
  {
    Stamped(Typed(RefreshTokenType, RefreshData(user)), now, Expiry(now, s.accessTokenExpireMinutes, RefreshDelta(s)))
  }

  /** `encode_jwt`: copy the payload, add `iat` = now and `exp`, sign. */
  method EncodeJwt(payload: Claims, privateKey: PrivateKey, algorithm: string, now: int,
                   expireMinutes: int, expireDelta: Option<int>)
    returns (token: Jwt)
    ensures token == Sign(Stamped(payload, now, Expiry(now, expireMinutes, expireDelta)), privateKey, algorithm)
  {
    var toEncode := payload;
    var expire: int;
    if expireDelta.Some? && expireDelta.value != 0 {
      expire := now + expireDelta.value;
    } else {
      expire := now + expireMinutes * SecondsPerMinute;
    }
    toEncode := toEncode[IssuedAtField := Int(now)];
    toEncode := toEncode[ExpField := Int(expire)];
    token := Sign(toEncode, privateKey, algorithm);
  }

  /** `decode_jwt` with the configured public key and algorithm. */
  function DecodeJwt(token: Jwt, s: Settings, now: int): Result<Claims, DecodeError>
  {
    Decode(token, s.publicKey, s.algorithm, now)
  }

  /** `create_jwt`: put the type first, merge the token data over it, and
      encode with the configured key and algorithm. */
  method CreateJwt(tokenType: string, tokenData: Claims, s: Settings, now: int,
                   expireMinutes: int, expireDelta: Option<int>)
    returns (token: Jwt)
    ensures token == Sign(Stamped(Typed(tokenType, tokenData), now, Expiry(now, expireMinutes, expireDelta)),
                          s.privateKey, s.algorithm)
  {
    var jwtPayload: Claims := map[TokenTypeField := Str(tokenType)];
    jwtPayload := jwtPayload + tokenData;
    token := EncodeJwt(jwtPayload, s.privateKey, s.algorithm, now, expireMinutes, expireDelta);
  }

  /** `create_access_token`: sub, user_id and login, the minutes window. */
  method CreateAccessToken(user: Claims, s: Settings, now: int) returns (token: Jwt)
    ensures token == Sign(AccessClaims(user, s, now), s.privateKey, s.algorithm)
  {
    var jwtPayload := map[SubjectField := Get(user, UserIdField), UserIdField := Get(user, UserIdField),
                          LoginField := Get(user, LoginField)];
    token := CreateJwt(AccessTokenType, jwtPayload, s, now, s.accessTokenExpireMinutes, None);
  }

  /** `create_refresh_token`: sub and user_id, the days window. */
  method CreateRefreshToken(user: Claims, s: Settings, now: int) returns (token: Jwt)
    ensures token == Sign(RefreshClaims(user, s, now), s.privateKey, s.algorithm)
  {
    var jwtPayload := map[SubjectField := Get(user, UserIdField), UserIdField := Get(user, UserIdField)];
    token := CreateJwt(RefreshTokenType, jwtPayload, s, now, s.accessTokenExpireMinutes, RefreshDelta(s));
  }

  // Properties of the factory

  /** The expiry is `iat` plus the delta when the delta is truthy, and `iat`
      plus the minutes window otherwise; a zero delta falls back to minutes. */
  lemma ExpirySelection(payload: Claims, now: int, expireMinutes: int, expireDelta: Option<int>)
    ensures var c := Stamped(payload, now, Expiry(now, expireMinutes, expireDelta));
            c[ExpField].i - c[IssuedAtField].i ==
              (if expireDelta.Some? && expireDelta.value != 0 then expireDelta.value else 60 * expireMinutes)
    ensures Expiry(now, expireMinutes, Some(0)) == Expiry(now, expireMinutes, None)
  {
  }

  /** Whatever `tokenData` holds, the merged payload keeps all of it, and it
      carries the requested type unless `tokenData` overrides `type` itself. */
  lemma TypeThenData(tokenType: string, tokenData: Claims)
    ensures var p := Typed(tokenType, tokenData);
            TokenTypeField in p &&
            p[TokenTypeField] == (if TokenTypeField in tokenData then tokenData[TokenTypeField] else Str(tokenType))
  {
  }

  /** The access claim set, key by key. */
  lemma AccessClaimsShape(user: Claims, s: Settings, now: int)
    ensures AccessClaims(user, s, now).Keys == {TokenTypeField, SubjectField, UserIdField, LoginField, IssuedAtField, ExpField}
    ensures var c := AccessClaims(user, s, now);
            c[TokenTypeField] == Str(AccessTokenType) && c[SubjectField] == c[UserIdField] == Get(user, UserIdField) &&
            c[LoginField] == Get(user, LoginField) && c[IssuedAtField] == Int(now) &&
            c[ExpField] == Int(now + 60 * s.accessTokenExpireMinutes)
  {
  }

  /** The refresh claim set, key by key; a zero days window falls back to the
      access minutes window. */
  lemma RefreshClaimsShape(user: Claims, s: Settings, now: int)
    ensures RefreshClaims(user, s, now).Keys == {TokenTypeField, SubjectField, UserIdField, IssuedAtField, ExpField}
    ensures var c := RefreshClaims(user, s, now);
            c[TokenTypeField] == Str(RefreshTokenType) && c[SubjectField] == c[UserIdField] == Get(user, UserIdField) &&
            c[IssuedAtField] == Int(now) &&
            c[ExpField] == Int(if s.refreshTokenExpireDays != 0 then now + SecondsPerDay * s.refreshTokenExpireDays
                               else now + 60 * s.accessTokenExpireMinutes)
  {
  }

  /** Access and refresh tokens issued for one user share the user id and
      differ in type, and only the access token names the login. */
  lemma AccessAndRefreshDiffer(user: Claims, s: Settings, now: int)
    ensures var a, r := AccessClaims(user, s, now), RefreshClaims(user, s, now);
            a[UserIdField] == r[UserIdField] && a[SubjectField] == r[SubjectField] &&
            a[TokenTypeField] != r[TokenTypeField] &&
            LoginField in a && LoginField !in r
  {
  }

  /** With the default windows, the access token lives 30 minutes and the
      refresh token 14 days. */
  lemma DefaultWindows(user: Claims, alg: string, priv: PrivateKey, pub: PublicKey, now: int)
    ensures var s := WithDefaultWindows(alg, priv, pub);
            AccessClaims(user, s, now)[ExpField] == Int(now + 1800) &&
            RefreshClaims(user, s, now)[ExpField] == Int(now + 1209600)
  {
  }
}
