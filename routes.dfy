/** The salary route, which chains the token guard, `login_required` and
    the salary lookup; the same route with the guard's type fixed; and the
    sign-up / login / salary scenario end to end. */
module Routes {
  import opened Results
  import opened Codec
  import opened Config
  import opened TokenFactory
  import opened Models
  import opened Http
  import opened UserHandlers

  /** The token type the guard demands: the framework exposes the partial's
      `token_type` argument as a query parameter whose default is "access". */
  function RequestedType(tokenTypeQuery: Option<string>): string
  {
    if tokenTypeQuery.Some? then tokenTypeQuery.value else AccessTokenType
  }

  /** `GET /user/salary/get` as written: a bearer token and the optional
      `token_type` query parameter. */
  function SalaryRoute(users: map<Uuid, UserRow>, employees: map<Uuid, EmployeeRow>,
                       credentials: Jwt, tokenTypeQuery: Option<string>, s: Settings, now: int): (r: Result<UserSalary, Failure>)
    ensures var guard := GetCurrentUser(RequestedType(tokenTypeQuery), credentials, s, now);
            (guard.Err? ==> r == Err(guard.error)) &&
            (guard.Ok? ==> r == UserSalaryGet(users, employees, Get(guard.value, UserIdField)))
  {
    match GetCurrentUser(RequestedType(tokenTypeQuery), credentials, s, now)
    case Err(failure) => Err(failure)
    case Ok(payload) =>
      assert TokenTypeField in payload;
      match LoginRequired(payload)
      case Err(failure) => Err(failure)
      case Ok(user) => UserSalaryGet(users, employees, Get(user, UserIdField))
  }

  /** The query parameter lets a refresh token through: asking for
      `token_type=refresh` makes the refresh token of a user read that
      user's salary while it is unexpired. */
  lemma QueryOverrideAdmitsRefreshToken(users: map<Uuid, UserRow>, employees: map<Uuid, EmployeeRow>,
                                        id: Uuid, login: string, s: Settings, issued: int, now: int)
    requires KeysMatch(s) && Unexpired(RefreshClaims(Identity(id, login), s, issued), now)
    requires id in users && users[id].employeeId in employees
    ensures var e := users[id].employeeId;
            SalaryRoute(users, employees, RefreshTokenFor(id, login, s, issued), Some(RefreshTokenType), s, now) ==
            Ok(UserSalary(id, e, employees[e].salary, employees[e].nextRaiseDate))
  {
    RefreshClaimsShape(Identity(id, login), s, issued);
  }

  /** The salary route with the guard's type fixed to "access" rather than
      taken from the request. */
  function GuardedSalaryRoute(users: map<Uuid, UserRow>, employees: map<Uuid, EmployeeRow>,
                              credentials: Jwt, s: Settings, now: int): (r: Result<UserSalary, Failure>)
    ensures ProtectedAccess(credentials, s, now).Err? ==> r == Err(ProtectedAccess(credentials, s, now).error)
    ensures ProtectedAccess(credentials, s, now).Ok? ==>
            r == UserSalaryGet(users, employees, Get(ProtectedAccess(credentials, s, now).value, UserIdField))
    ensures r.Ok? ==> credentials.Signed? && Get(credentials.claims, TokenTypeField) == Str(AccessTokenType)
  {
    match ProtectedAccess(credentials, s, now)
    case Err(failure) => Err(failure)
    case Ok(payload) =>
      match LoginRequired(payload)
      case Err(failure) => Err(failure)
      case Ok(user) => UserSalaryGet(users, employees, Get(user, UserIdField))
  }

  /** A request without the query parameter gets the guarded route's answer. */
  lemma UnsetQueryIsGuarded(users: map<Uuid, UserRow>, employees: map<Uuid, EmployeeRow>,
                            credentials: Jwt, s: Settings, now: int)
    ensures SalaryRoute(users, employees, credentials, None, s, now) == GuardedSalaryRoute(users, employees, credentials, s, now)
  {
  }

  /** An unexpired access token of a user reads that user's salary row. */
  lemma AccessTokenReadsOwnSalary(users: map<Uuid, UserRow>, employees: map<Uuid, EmployeeRow>,
                                  id: Uuid, login: string, s: Settings, issued: int, now: int)
    requires KeysMatch(s) && now < issued + 60 * s.accessTokenExpireMinutes
    requires id in users && users[id].employeeId in employees
    ensures var e := users[id].employeeId;
            GuardedSalaryRoute(users, employees, AccessTokenFor(id, login, s, issued), s, now) ==
            Ok(UserSalary(id, e, employees[e].salary, employees[e].nextRaiseDate))
  {
    IssuedAccessTokenAccepted(Identity(id, login), s, issued, now);
    AccessClaimsShape(Identity(id, login), s, issued);
  }

  /** The guarded route refuses every refresh token; one that still decodes
      is refused for its type. */
  lemma RefreshTokenRefusedBySalaryRoute(users: map<Uuid, UserRow>, employees: map<Uuid, EmployeeRow>,
                                         id: Uuid, login: string, s: Settings, issued: int, now: int)
    ensures GuardedSalaryRoute(users, employees, RefreshTokenFor(id, login, s, issued), s, now).Err?
    ensures KeysMatch(s) && Unexpired(RefreshClaims(Identity(id, login), s, issued), now) ==>
            GuardedSalaryRoute(users, employees, RefreshTokenFor(id, login, s, issued), s, now) ==
            Err(Unauthorized(InvalidTokenType(Str(RefreshTokenType), AccessTokenType), false))
  {
    RefreshClaimsShape(Identity(id, login), s, issued);
  }

  /**
    Create alice, fail a login with a wrong password, log in, then read the
    salary with the access token (accepted) and with the refresh token
    (refused for its type).
  */
  method AliceScenario(s: Settings, now: int, raiseDate: int, employeeId: Uuid, userId: Uuid, tokenId: Uuid)
    returns (created: Result<UserView, Failure>, wrong: Result<TokenPair, Failure>,
             salary: Result<UserSalary, Failure>, withRefresh: Result<UserSalary, Failure>)
    requires KeysMatch(s) && s.accessTokenExpireMinutes > 0 && s.refreshTokenExpireDays > 0
    ensures created.Ok? && created.value.login == "alice" && created.value.salary == 50000
    ensures wrong == Err(Unauthorized(IncorrectCredentials, true))
    ensures salary == Ok(UserSalary(userId, employeeId, 50000, raiseDate))
    ensures withRefresh == Err(Unauthorized(InvalidTokenType(Str(RefreshTokenType), AccessTokenType), false))
  {
    var store := new Store();
    created := CreateUser(store, UserCreate("alice", "secret123", "Alice A", 50000, Some(raiseDate)), employeeId, userId, false);
    assert CredentialsValid(store.users, UserAuth("alice", "secret123")) by {
      assert store.users[userId].login == "alice";
    }
    wrong := UserTokenGet(store, UserAuth("alice", "wrong"), s, now, tokenId, false);
    var login := UserTokenGet(store, UserAuth("alice", "secret123"), s, now, tokenId, false);
    assert FindLogin(store.users, "alice") == Some(userId);
    IssuedAccessTokenAccepted(Identity(userId, "alice"), s, now, now);
    assert login.Ok?;
    salary := GuardedSalaryRoute(store.users, store.employees, login.value.accessToken, s, now);
    AccessTokenReadsOwnSalary(store.users, store.employees, userId, "alice", s, now, now);
    RefreshTokenRefusedBySalaryRoute(store.users, store.employees, userId, "alice", s, now, now);
    RefreshClaimsShape(Identity(userId, "alice"), s, now);
    withRefresh := GuardedSalaryRoute(store.users, store.employees, login.value.refreshToken, s, now);
  }
}
