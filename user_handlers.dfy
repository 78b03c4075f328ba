/**
  The user handlers: the bearer-token guard, the login decision, user
  creation and the salary lookup.
*/
module UserHandlers {
  import opened Results
  import opened Codec
  import opened Config
  import opened Password
  import opened TokenFactory
  import opened Models
  import opened Http
  import opened TokenHandlers

  /** Request body of user creation; `nextRaiseDate` may be omitted. */
  datatype UserCreate = UserCreate(login: string, password: string, fullName: string, salary: int, nextRaiseDate: Option<int>)

  /** The created user as returned: ids, login and employee fields. */
  datatype UserView = UserView(employeeId: Uuid, userId: Uuid, login: string, fullName: string, salary: int, nextRaiseDate: int)

  /** Request body of login. */
  datatype UserAuth = UserAuth(login: string, password: string)

  /** Response body of login. */
  datatype TokenPair = TokenPair(accessToken: Jwt, refreshToken: Jwt)

  /** Response body of the salary lookup. */
  datatype UserSalary = UserSalary(userId: Uuid, employeeId: Uuid, salary: int, nextRaiseDate: int)

  // The guard

  /** `validate_current_token`: no effect when the types agree, a 401 naming
      both types when they do not. */
  function ValidateCurrentToken(tokenType: string, currentTokenType: Value): (r: Option<Failure>)
    ensures r.None? <==> currentTokenType == Str(tokenType)
    ensures r.Some? ==> r.value == Unauthorized(InvalidTokenType(currentTokenType, tokenType), false)
  {
    if currentTokenType != Str(tokenType) then
      Some(Unauthorized(InvalidTokenType(currentTokenType, tokenType), false))
    else
      None
  }

  /** `get_current_user`: decode the bearer token, then check its type. A
      decode failure becomes the generic "Invalid token error"; a type
      mismatch keeps its own detail, since it is not a token error. */
  function GetCurrentUser(tokenType: string, credentials: Jwt, s: Settings, now: int): (r: Result<Claims, Failure>)
    ensures DecodeJwt(credentials, s, now).Err? ==> r == Err(Unauthorized(InvalidToken, false))
    ensures DecodeJwt(credentials, s, now).Ok? ==>
      var payload := DecodeJwt(credentials, s, now).value;
      if Get(payload, TokenTypeField) == Str(tokenType) then r == Ok(payload)
      else r == Err(Unauthorized(InvalidTokenType(Get(payload, TokenTypeField), tokenType), false))
  {
    match DecodeJwt(credentials, s, now)
    case Err(_) => Err(Unauthorized(InvalidToken, false))
    case Ok(payload) =>
      match ValidateCurrentToken(tokenType, Get(payload, TokenTypeField))
      case Some(failure) => Err(failure)
      case None => Ok(payload)
  }

  /** `protected_access`: the guard that demands an access token. */
  function ProtectedAccess(credentials: Jwt, s: Settings, now: int): (r: Result<Claims, Failure>)
    ensures r.Ok? ==> TokenTypeField in r.value && r.value[TokenTypeField] == Str(AccessTokenType)
    ensures r.Ok? <==> credentials.Signed? && DecodeJwt(credentials, s, now) == Ok(credentials.claims) &&
                       Get(credentials.claims, TokenTypeField) == Str(AccessTokenType)
  {
    GetCurrentUser(AccessTokenType, credentials, s, now)
  }

  /** `protected_refresh`: the guard that demands a refresh token. */
  function ProtectedRefresh(credentials: Jwt, s: Settings, now: int): (r: Result<Claims, Failure>)
    ensures r.Ok? ==> TokenTypeField in r.value && r.value[TokenTypeField] == Str(RefreshTokenType)
    ensures r.Ok? <==> credentials.Signed? && DecodeJwt(credentials, s, now) == Ok(credentials.claims) &&
                       Get(credentials.claims, TokenTypeField) == Str(RefreshTokenType)
  {
    GetCurrentUser(RefreshTokenType, credentials, s, now)
  }

  /** `login_required`: a non-empty payload passes unchanged; an empty one is
      a 401 "Not authenticated" with a Bearer challenge. */
  function LoginRequired(user: Claims): (r: Result<Claims, Failure>)
    ensures r.Ok? <==> |user| > 0
    ensures r.Ok? ==> r.value == user
    ensures r.Err? ==> r.error == Unauthorized(NotAuthenticated, true)
  {
    if |user| > 0 then Ok(user) else Err(Unauthorized(NotAuthenticated, true))
  }

  // Login

  /** The identity a successful login builds tokens from: the selected row
      with its password popped. */
  function Identity(userId: Uuid, login: string): (user: Claims)
    ensures user.Keys == {UserIdField, LoginField}
  {
    map[UserIdField := Str(userId), LoginField := Str(login)]
  }

  /** Some user has this login and the password verifies against its hash. */
  ghost predicate CredentialsValid(users: map<Uuid, UserRow>, auth: UserAuth)
  {
    exists id :: id in users && users[id].login == auth.login && VerifyPassword(auth.password, users[id].password)
  }

  /** The lookup by login decides the credentials: the unique row with that
      login, and its hash. */
  lemma CredentialsViaLookup(users: map<Uuid, UserRow>, auth: UserAuth)
    requires UniqueLogins(users)
    ensures CredentialsValid(users, auth) <==>
      FindLogin(users, auth.login).Some? && VerifyPassword(auth.password, users[FindLogin(users, auth.login).value].password)
  {
    if CredentialsValid(users, auth) {
      var id :| id in users && users[id].login == auth.login && VerifyPassword(auth.password, users[id].password);
      assert FindLogin(users, auth.login) == Some(id);
    }
  }

  /** The access token, decoded again, yields the body of its token row. */
  lemma AccessTokenRecord(id: Uuid, login: string, s: Settings, now: int)
    ensures var access := Sign(AccessClaims(Identity(id, login), s, now), s.privateKey, s.algorithm);
            DecodeJwt(access, s, now).Ok? ==>
              && UuidClaim(Get(DecodeJwt(access, s, now).value, UserIdField)) == Some(id)
              && TimeClaim(Get(DecodeJwt(access, s, now).value, ExpField)) == Some(now + 60 * s.accessTokenExpireMinutes)
  {
    AccessClaimsShape(Identity(id, login), s, now);
  }

  /** The token claim `user_id` read back as a uuid. */
  function UuidClaim(v: Value): Option<Uuid>
  {
    if v.Str? then Some(v.s) else None
  }

  /** The token claim `exp` read back as a timestamp. */
  function TimeClaim(v: Value): Option<int>
  {
    if v.Int? then Some(v.i) else None
  }

  /** The access token a login of `id` issues at `now`. */
  function AccessTokenFor(id: Uuid, login: string, s: Settings, now: int): Jwt
  {
    Sign(AccessClaims(Identity(id, login), s, now), s.privateKey, s.algorithm)
  }

  /** The refresh token a login of `id` issues at `now`. */
  function RefreshTokenFor(id: Uuid, login: string, s: Settings, now: int): Jwt
  {
    Sign(RefreshClaims(Identity(id, login), s, now), s.privateKey, s.algorithm)
  }

  /** The success branch of `_user_token_get`: issue both tokens, decode the
      access token again and save its row. The save's return value is not
      looked at, but a failed save raises (see `StorageErrorRaised`), so the
      login then fails with it and hands out no tokens. */
  method IssueTokens(store: Store, id: Uuid, login: string, s: Settings, now: int, tokenId: Uuid, fault: bool)
    returns (r: Result<TokenPair, Failure>)
    requires store.Valid() && id in store.users
    modifies store
    ensures store.Valid()
    ensures store.users == old(store.users) && store.employees == old(store.employees)
    ensures r.Ok? <==> DecodeJwt(AccessTokenFor(id, login, s, now), s, now).Ok? && !fault && tokenId !in old(store.tokens)
    ensures r.Ok? ==> r.value == TokenPair(AccessTokenFor(id, login, s, now), RefreshTokenFor(id, login, s, now))
    ensures r.Ok? ==>
      store.tokens == old(store.tokens)[tokenId := TokenRow(id, AccessTokenFor(id, login, s, now), now + 60 * s.accessTokenExpireMinutes, true)]
    ensures DecodeJwt(AccessTokenFor(id, login, s, now), s, now).Err? ==>
      r == Err(Uncaught(InvalidTokenError(DecodeJwt(AccessTokenFor(id, login, s, now), s, now).error)))
    ensures DecodeJwt(AccessTokenFor(id, login, s, now), s, now).Ok? && r.Err? ==> r.error == StorageErrorRaised
    ensures r.Err? ==> store.tokens == old(store.tokens)
  {
    var user := Identity(id, login);
    var accessToken := CreateAccessToken(user, s, now);
    var refreshToken := CreateRefreshToken(user, s, now);
    assert accessToken == AccessTokenFor(id, login, s, now);
    assert refreshToken == RefreshTokenFor(id, login, s, now);
    var decoded := DecodeJwt(accessToken, s, now);
    if decoded.Err? {
      return Err(Uncaught(InvalidTokenError(decoded.error)));
    }
    var payload := decoded.value;
    AccessTokenRecord(id, login, s, now);
    var token := TokenCreate(UuidClaim(Get(payload, UserIdField)), Some(accessToken), TimeClaim(Get(payload, ExpField)));
    assert token == TokenCreate(Some(id), Some(accessToken), Some(now + 60 * s.accessTokenExpireMinutes));
    var saved := SaveTokenInDb(store, token, tokenId, fault);
    if saved.Err? {
      return Err(saved.error);
    }
    r := Ok(TokenPair(accessToken, refreshToken));
  }

  /**
    `_user_token_get`. An unknown login and a wrong password give the same
    401 with a Bearer challenge. On success both tokens are issued from the
    user id and login (the hash is popped first), and the access token's row
    is saved as `IssueTokens` describes. `tokenId` and `fault` are handed to
    the save.
  */
  method UserTokenGet(store: Store, auth: UserAuth, s: Settings, now: int, tokenId: Uuid, fault: bool)
    returns (r: Result<TokenPair, Failure>)
    requires store.Valid()
    modifies store
    ensures store.Valid()
    ensures store.users == old(store.users) && store.employees == old(store.employees)
    ensures r.Err? ==> store.tokens == old(store.tokens)
    ensures !CredentialsValid(old(store.users), auth) ==> r == Err(Unauthorized(IncorrectCredentials, true))
    ensures CredentialsValid(old(store.users), auth) ==>
      var id := FindLogin(old(store.users), auth.login).value;
      var access := AccessTokenFor(id, auth.login, s, now);
      && (r.Ok? <==> DecodeJwt(access, s, now).Ok? && !fault && tokenId !in old(store.tokens))
      && (r.Ok? ==> r.value == TokenPair(access, RefreshTokenFor(id, auth.login, s, now)))
      && (r.Ok? ==> store.tokens == old(store.tokens)[tokenId := TokenRow(id, access, now + 60 * s.accessTokenExpireMinutes, true)])
      && (DecodeJwt(access, s, now).Err? ==> r == Err(Uncaught(InvalidTokenError(DecodeJwt(access, s, now).error))))
      && (DecodeJwt(access, s, now).Ok? && r.Err? ==> r.error == StorageErrorRaised)
  {
    CredentialsViaLookup(store.users, auth);
    var response := FindLogin(store.users, auth.login);
    if response.Some? {
      var id := response.value;
      var login := store.users[id].login;
      var hashedPassword := store.users[id].password;
      if VerifyPassword(auth.password, hashedPassword) {
        r := IssueTokens(store, id, login, s, now, tokenId, fault);
        return;
      }
    }
    r := Err(Unauthorized(IncorrectCredentials, true));
  }

  // User creation

  /** The database accepts both inserts of a user creation. */
  ghost predicate CreateAccepted(users: map<Uuid, UserRow>, employees: map<Uuid, EmployeeRow>,
                                 body: UserCreate, employeeId: Uuid, userId: Uuid)
  {
    && employeeId !in employees && IsInt32(body.salary)
    && userId !in users && |body.login| <= LoginMaxLength && !LoginTaken(users, body.login)
  }

  /**
    `_user_create`. The employee fields are taken out of the body first, so a
    missing `next_raise_date` raises before the transaction starts. Inside
    the transaction the employee row and then the user row (login, hashed
    password, the new employee id) are inserted; any storage error rolls both
    back, and building the 500 response raises (see `StorageErrorRaised`). `employeeId` and `userId` are the uuid4 values the
    two id columns draw.
  */
  method CreateUser(store: Store, body: UserCreate, employeeId: Uuid, userId: Uuid, fault: bool)
    returns (r: Result<UserView, Failure>)
    requires store.Valid()
    modifies store
    ensures store.Valid()
    ensures store.tokens == old(store.tokens)
    ensures body.nextRaiseDate.None? ==> r == Err(Uncaught(KeyError("next_raise_date")))
    ensures r.Ok? <==> body.nextRaiseDate.Some? && !fault &&
                       CreateAccepted(old(store.users), old(store.employees), body, employeeId, userId)
    ensures r.Ok? ==>
      && store.employees == old(store.employees)[employeeId := EmployeeRow(body.fullName, body.salary, body.nextRaiseDate.value)]
      && store.users == old(store.users)[userId := UserRow(body.login, HashPassword(body.password), employeeId)]
      && r.value == UserView(employeeId, userId, body.login, body.fullName, body.salary, body.nextRaiseDate.value)
    ensures r.Err? ==> store.users == old(store.users) && store.employees == old(store.employees)
    ensures r.Err? && body.nextRaiseDate.Some? ==> r.error == StorageErrorRaised
  {
    if body.nextRaiseDate.None? {
      return Err(Uncaught(KeyError("next_raise_date")));
    }
    var employeeInput := EmployeeRow(body.fullName, body.salary, body.nextRaiseDate.value);
    if fault || employeeId in store.employees || !IsInt32(employeeInput.salary) {
      return Err(StorageErrorRaised);
    }
    var employees := store.employees[employeeId := employeeInput];
    var userInput := UserRow(body.login, HashPassword(body.password), employeeId);
    if userId in store.users || |body.login| > LoginMaxLength || FindLogin(store.users, body.login).Some? {
      return Err(StorageErrorRaised);
    }
    var users := store.users[userId := userInput];
    InsertUserKeepsConsistent(store.users, store.employees, store.tokens, userId, employeeId, userInput, employeeInput);
    store.employees, store.users := employees, users;
    r := Ok(UserView(employeeId, userId, body.login, body.fullName, body.salary, body.nextRaiseDate.value));
  }

  // Salary lookup

  /** `_user_salary_get`: join the user with its employee; 404 when no row joins. */
  function UserSalaryGet(users: map<Uuid, UserRow>, employees: map<Uuid, EmployeeRow>, userId: Value): (r: Result<UserSalary, Failure>)
    ensures r.Ok? <==> userId.Str? && userId.s in users && users[userId.s].employeeId in employees
    ensures r.Ok? ==> r.value.userId == userId.s && r.value.employeeId == users[userId.s].employeeId &&
                      r.value.salary == employees[r.value.employeeId].salary &&
                      r.value.nextRaiseDate == employees[r.value.employeeId].nextRaiseDate
    ensures r.Err? ==> r.error == ErrorResponse(StatusNotFound)
  {
    if userId.Str? && userId.s in users && users[userId.s].employeeId in employees then
      var e := users[userId.s].employeeId;
      Ok(UserSalary(userId.s, e, employees[e].salary, employees[e].nextRaiseDate))
    else
      Err(ErrorResponse(StatusNotFound))
  }

  // Properties across the handlers

  /** Type isolation: a refresh token never passes the access guard, however
      valid it is otherwise. */
  lemma RefreshTokenFailsAccessGuard(user: Claims, s: Settings, issued: int, now: int)
    ensures ProtectedAccess(Sign(RefreshClaims(user, s, issued), s.privateKey, s.algorithm), s, now).Err?
  {
    RefreshClaimsShape(user, s, issued);
  }

  /** ... and an access token never passes the refresh guard. */
  lemma AccessTokenFailsRefreshGuard(user: Claims, s: Settings, issued: int, now: int)
    ensures ProtectedRefresh(Sign(AccessClaims(user, s, issued), s.privateKey, s.algorithm), s, now).Err?
  {
    AccessClaimsShape(user, s, issued);
  }

  /** While it has not expired, an access token issued under matching keys
      passes the guard and `login_required` with its claims intact. */
  lemma IssuedAccessTokenAccepted(user: Claims, s: Settings, issued: int, now: int)
    requires KeysMatch(s) && now < issued + 60 * s.accessTokenExpireMinutes
    ensures ProtectedAccess(Sign(AccessClaims(user, s, issued), s.privateKey, s.algorithm), s, now) ==
            Ok(AccessClaims(user, s, issued))
    ensures LoginRequired(AccessClaims(user, s, issued)) == Ok(AccessClaims(user, s, issued))
  {
    AccessClaimsShape(user, s, issued);
  }

  /** Behind the access guard the "Not authenticated" branch of
      `login_required` cannot fire: the payload holds at least its type. */
  lemma GuardedPayloadPassesLoginRequired(credentials: Jwt, s: Settings, now: int)
    requires ProtectedAccess(credentials, s, now).Ok?
    ensures LoginRequired(ProtectedAccess(credentials, s, now).value) == ProtectedAccess(credentials, s, now)
  {
    var payload := ProtectedAccess(credentials, s, now).value;
    assert TokenTypeField in payload;
  }
}
