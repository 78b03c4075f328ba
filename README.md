# JWT authentication core of a user/salary HTTP backend

This project models, in Dafny, the authentication core of a small FastAPI
service whose users each own one employee record with a salary. It covers:

- the JWT factory, which builds typed access and refresh claim sets with an
  issue time and an expiry;
- the bearer-token guard and `login_required`;
- the login decision;
- user creation;
- the salary lookup;
- the insert that records each issued access token.

The tables are modelled as three maps in a `Store` class, together with the
constraints the database and the handlers keep on them.

The repository has two token modules, `src/handlers/token.py` and
`fastapi-app/src/handlers/token.py`. Their factory functions
(`encode_jwt`, `decode_jwt`, `create_jwt`, `create_access_token`,
`create_refresh_token`) are the same line for line, so module `TokenFactory`
models them once. Some lemmas below cite the fastapi-app copy for the
properties that hold of both. `save_token_in_db` exists only in the
fastapi-app copy and is in `TokenHandlers`.

Modules:

- `Results`: Option and Result.
- `Codec`: a symbolic JWT library. A token is a term holding its claims, the
  algorithm in its header and the signing key. Decoding checks, in order,
  that the token parses, that its algorithm is the allowed one, that the
  public key matches the signing key, and that `exp` lies after the clock.
- `Config`: the settings the factory reads: algorithm, key pair, access window
  in minutes and refresh window in days (defaults 30 and 14).
- `Password`: a symbolic one-way hash. The users table stores a `Digest`,
  which is a type distinct from `string`.
- `TokenFactory`: the claim-building specification functions and the
  factory's methods, proved equal to them.
- `Http`: how a handler can fail. It can raise a 401 with a detail, return a
  plain 404 response, or let an exception escape.
- `Models`: the rows of `users`, `employees` and `tokens`, the consistency
  predicate, the `Store` class and the login lookup.
- `TokenHandlers`: `save_token_in_db`.
- `UserHandlers`: the guard, `login_required`, login, user creation and the
  salary lookup.
- `Routes`: the salary route, which chains the guard, `login_required` and
  the lookup, plus a sign-up / login / salary scenario.

Things the code does that a reader might not expect:

- A zero `timedelta` counts as false, so it falls back to the minutes window.
  Because `create_refresh_token` passes no minutes of its own, a refresh
  window of 0 days gives refresh tokens the access window.
- `create_jwt` merges the token data over `{type: ...}`, so a `type` key in
  the data would win. The two real callers never pass one.
- A type mismatch in `get_current_user` is not an `InvalidTokenError`. It
  therefore reaches the client with its own detail and is not turned into
  "Invalid token error".
- `_user_create` pops `next_raise_date` outside its `try`. The schema lets
  that field be omitted, in which case `model_dump(exclude_none=True)` drops
  it and the pop raises `KeyError` before anything is inserted.
- Login decodes the new access token again. If the access window is zero or
  negative, or if the configured keys do not match, that decode fails and the
  exception escapes the handler.
- The storage-error branches of `save_token_in_db` and `_user_create` build
  `Response(content={...}, status_code=500)`. The response class renders its
  content by calling `encode` on it, which a dict lacks, so building that
  response raises `AttributeError`. The client still gets a 500, from the
  framework. For login the consequence is larger: login ignores the value
  `save_token_in_db` returns, but the exception escapes the login handler,
  so a failed save means a 500 and no tokens. The tokens table is left
  unchanged.
- The guard dependency is `partial(get_current_user, token_type="access")`.
  The framework reads the partial's signature and turns `token_type` into a
  query parameter of the salary route, with "access" as its default. A
  request with `?token_type=refresh` and a refresh token therefore reads
  the salary; see "## Findings".
- The root `config/settings.py` names its window `access_token_expire_time`
  and has no key-file or `access_token_expire_minutes` fields, although the
  token module reads those fields. The model follows
  `fastapi-app/config/settings.py`.

Inputs that come from outside the program are parameters:

- the clock: `now`, in whole seconds;
- the uuid4 values that primary keys draw. An id that is already taken makes
  the insert fail, as a primary-key violation would;
- a `fault` flag, standing for a storage error the model does not otherwise
  describe.

The column constraints are checked as the database would check them, and
breaking one fails the insert, which ends as a storage error:

- unique login of at most 20 characters;
- salary within the 32-bit `INTEGER` range;
- NOT NULL token columns;
- the token's user exists.

## Model

| member | source | states |
|---|---|---|
| `Codec.Decode` | src/handlers/token.py:37-47 | decoding succeeds exactly for a parsed token with the allowed algorithm, a matching key pair and an `exp` after the clock, and then yields the signed claims |
| `Codec.SignThenDecode` | src/handlers/token.py:30-46 | a token signed with a private key decodes with its public key and the same algorithm, before `exp`, to exactly the signed claims |
| `Codec.ExpiredIsRejected` | src/handlers/token.py:42-46 | a well-signed token whose `exp` is not after the clock is refused as expired |
| `Codec.OtherAlgorithmIsRejected` | src/handlers/token.py:42-46 | a token whose header names an algorithm other than the configured one is refused whatever key signed it |
| `Password.VerifyMatchesOnlyItsOwnHash` | src/handlers/user.py:78-79 | a password verifies against the digest of q exactly when it is q |
| `TokenFactory.Stamped` | src/handlers/token.py:21-29 | the signed claims are the payload's keys plus `iat` and `exp`; `iat` = now, `exp` = the chosen expiry; every other claim is kept unchanged |
| `TokenFactory.Typed` | src/handlers/token.py:55-56 | the merged payload has every key and value of the token data plus `type`, which is the requested type unless the data itself has `type` |
| `TokenFactory.EncodeJwt` | src/handlers/token.py:13-35 | the token is the signature, with the given key and algorithm, over the stamped copy of the payload; the caller's payload is a value and stays as it was |
| `TokenFactory.CreateJwt` | src/handlers/token.py:49-61 | the token signs `type` merged with the token data and then stamped, using the configured key and algorithm |
| `TokenFactory.CreateAccessToken` | src/handlers/token.py:63-73 | the token signs the access claim set of the user with the minutes window |
| `TokenFactory.CreateRefreshToken` | src/handlers/token.py:75-84 | the token signs the refresh claim set of the user with the days window passed as a delta |
| `TokenFactory.ExpirySelection` | fastapi-app/src/handlers/token.py:35-38 | `exp - iat` is the delta when the delta is truthy and 60 times the minutes otherwise; a zero delta behaves like no delta |
| `TokenFactory.TypeThenData` | fastapi-app/src/handlers/token.py:68-69 | `type` is always present and holds the requested type unless the token data overrides it |
| `TokenFactory.AccessClaimsShape` | src/handlers/token.py:63-73 | access claims are exactly type/sub/user_id/login/iat/exp, with type "access", sub = user_id = the user's id, login = the user's login and exp = iat + 60 times the access minutes |
| `TokenFactory.RefreshClaimsShape` | src/handlers/token.py:75-84 | refresh claims are exactly type/sub/user_id/iat/exp, with type "refresh" and no login; exp = iat + 86400 times the days, or the access window when the days are 0 |
| `TokenFactory.AccessAndRefreshDiffer` | fastapi-app/src/handlers/token.py:76-97 | the two tokens of one user carry equal `user_id` and `sub` but different `type`, and only the access token carries `login` |
| `TokenFactory.DefaultWindows` | fastapi-app/config/settings.py:15-16 | with the default settings, an access token expires 1800 s and a refresh token 1209600 s after issue |
| `Models.FindLogin` | src/handlers/user.py:73-75 | the lookup finds a row with the login when one exists and none otherwise; under the unique index the row it finds is the only one |
| `Models.InsertUserKeepsConsistent` | src/models.py:10-28 | inserting a user with a fresh id and its own fresh employee keeps all invariants when the login is free and short enough and the salary fits: unique logins, user-to-employee foreign key, one user per employee and one employee per user |
| `Models.InsertTokenKeepsConsistent` | src/models.py:30-38 | inserting a token row that names an existing user keeps the tables consistent |
| `Models.Store.constructor` | src/models.py:10-38 | an empty database is consistent |
| `TokenHandlers.SaveTokenInDb` | fastapi-app/src/handlers/token.py:99-119 | it succeeds exactly when there is no fault, all three fields are present, the user exists and the new id is free; on success exactly one row is added and returned as stored, with `is_active` true; on failure the tables are unchanged and building the 500 response raises `AttributeError` |
| `UserHandlers.ValidateCurrentToken` | src/handlers/user.py:102-107 | no effect exactly when the current type equals the expected one; otherwise a 401 naming both types |
| `UserHandlers.GetCurrentUser` | src/handlers/user.py:109-122 | a decode failure gives 401 "Invalid token error"; a decoded payload of the wrong type gives 401 with the type-mismatch detail; otherwise the decoded payload is returned unchanged |
| `UserHandlers.ProtectedAccess` | src/handlers/user.py:124 | accepts exactly decodable tokens whose `type` is "access" and returns their claims |
| `UserHandlers.ProtectedRefresh` | src/handlers/user.py:125 | accepts exactly decodable tokens whose `type` is "refresh" and returns their claims |
| `UserHandlers.LoginRequired` | src/handlers/user.py:127-136 | a non-empty payload passes unchanged; an empty one gives 401 "Not authenticated" with the Bearer challenge |
| `UserHandlers.Identity` | src/handlers/user.py:77-78 | tokens are built from a dictionary with only `user_id` and `login`: the password hash has been popped |
| `UserHandlers.CredentialsViaLookup` | src/handlers/user.py:73-79 | the credentials are valid exactly when the lookup finds the login and the password verifies against that row's hash |
| `UserHandlers.AccessTokenRecord` | src/handlers/user.py:83-88 | decoding the fresh access token gives back the user's id and `exp`, which become the token row's `user_id` and `expires_at` |
| `UserHandlers.IssueTokens` | src/handlers/user.py:80-94 | issues both tokens from the identity; succeeds exactly when the fresh access token decodes and its row can be saved, and then has recorded one row with the access token, that user and its expiry; a failed decode escapes as the token error, a failed save as the save's exception; on failure the tokens table is as it was |
| `UserHandlers.UserTokenGet` | src/handlers/user.py:69-99 | an unknown login and a wrong password both give the same 401 "Incorrect username or password" with the Bearer challenge and change nothing; valid credentials give the access/refresh pair of that user, with its token row saved, or fail as `IssueTokens` states |
| `UserHandlers.CreateUser` | src/handlers/user.py:28-67 | a missing `next_raise_date` raises `KeyError`; otherwise both rows are inserted exactly when the database accepts them: the employee row holds the name, salary and raise date, and the user row holds the login, the hash of the password and the new employee id; any storage error rolls back both and building the 500 response raises `AttributeError` |
| `UserHandlers.UserSalaryGet` | src/handlers/user.py:138-154 | returns the salary and raise date of the user's linked employee exactly when the user and that employee exist; otherwise 404 |
| `UserHandlers.RefreshTokenFailsAccessGuard` | src/handlers/user.py:113-124 | a refresh token never passes the access guard |
| `UserHandlers.AccessTokenFailsRefreshGuard` | src/handlers/user.py:113-125 | an access token never passes the refresh guard |
| `UserHandlers.IssuedAccessTokenAccepted` | src/handlers/user.py:109-131 | under matching keys and before its expiry, an issued access token passes the guard and `login_required` with its claims unchanged |
| `UserHandlers.GuardedPayloadPassesLoginRequired` | src/handlers/user.py:127-131 | behind the access guard, `login_required` cannot reject: the payload holds at least its `type` |
| `Routes.SalaryRoute` | src/routers.py:31-36 | the guard demands the type named by the `token_type` query parameter, or "access" without it; guard failures pass through unchanged, and when the guard passes the answer is the salary lookup of the payload's `user_id` |
| `Routes.QueryOverrideAdmitsRefreshToken` | src/handlers/user.py:124-129 | with `token_type=refresh` in the query, an unexpired refresh token of a user reads that user's salary |
| `Routes.GuardedSalaryRoute` | src/routers.py:31-36 | with the type fixed to "access": guard failures pass through, a passing guard gives the salary lookup of the payload's `user_id`, and a success implies an access token was presented |
| `Routes.UnsetQueryIsGuarded` | src/handlers/user.py:124-129 | a request without the query parameter gets exactly the guarded route's answer |
| `Routes.AccessTokenReadsOwnSalary` | src/routers.py:31-36 | on the guarded route, an unexpired access token of a user with an employee reads exactly that employee's salary and raise date |
| `Routes.RefreshTokenRefusedBySalaryRoute` | src/routers.py:31-36 | the guarded route refuses every refresh token, and one that still decodes is refused with the type-mismatch detail |
| `Routes.AliceScenario` | src/routers.py:18-36 | after alice is created, a wrong password gets 401, her access token reads salary 50000 and her refresh token is refused for its type (the requests carry no `token_type`, so the guarded route answers them) |

## Findings

| source | as written | input that shows it | evidently intended | confidence | as-written member | corrected member |
|---|---|---|---|---|---|---|
| src/handlers/user.py:124-129 | the salary route's guard takes the token type from an optional `token_type` query parameter, because the framework exposes the partial's bound argument as one | `GET /user/salary/get?token_type=refresh` with an unexpired refresh token of a user who has an employee: the salary is returned | only access tokens open the salary route | medium, not executed | `Routes.SalaryRoute`, `Routes.QueryOverrideAdmitsRefreshToken` | `Routes.GuardedSalaryRoute`, `Routes.RefreshTokenRefusedBySalaryRoute` |

`protected_refresh` (src/handlers/user.py:125) has the same shape, but no
route depends on it.

## Left out

- Real signing and verification: tokens are symbolic terms and keys are
  pair identifiers. The PEM files, the wire format and the library's checks
  of `iat`, `nbf`, `aud` and `iss` are not modelled.
- Password hashing: `src/handlers/password.py` is not part of this model.
  Hashing is a symbolic one-way map, and verification accepts a password
  exactly against its own digest. Salting and constant-time comparison are
  not modelled.
- SaveTokenInDb: does not refuse tokens longer than 4000 characters,
  because a token has no length in the symbolic model.
- CreateUser: does not check the 100-character bound on the password column,
  because a digest has no length in the symbolic model; a bcrypt digest is 60
  characters, so it always fits.
- CreateUser: treats a login over 20 characters as refused. PostgreSQL
  silently truncates such a login when the extra characters are all spaces;
  that case is not modelled.
- The `TokenCreate` and `TokenAfterCreate` schemas are not part of this
  model. The body is taken to be the three fields the login flow fills.
- Async sessions, `session.begin()`/`close()` sequencing, engine and URL
  construction. Each handler's writes are one all-or-nothing step.
- FastAPI routing, dependency injection and `HTTPBearer`. The model does not
  cover the answer to a request without an `Authorization` header, because
  the framework produces it.
- Pydantic validation of request bodies: fields are typed in the model.
- Settings and `.env` loading, key-file reads and logging: settings are a
  parameter, and logging has no effect on the model.
- Time zones: `datetime.now(UTC)` and `datetime.fromtimestamp` are
  whole-second UTC timestamps here.
- A `user_id` that is not valid uuid text, which would make the driver raise
  in the salary query: uuids are modelled as plain text.
- Concurrent requests: every handler runs as one sequential step. When two
  sign-ups with one login run at once, the unique index turns one of them
  into a storage error.
- IssueTokens: reads the clock once. The source reads it separately, with
  sub-second precision, in `create_access_token`, in `create_refresh_token`
  and in the library's decode. The model uses one whole-second `now` for all
  three, so the two tokens share their `iat`.
- Expiry: does not model the `OverflowError` that `datetime + timedelta`
  raises when the expiry falls after year 9999. The model's timestamps are
  unbounded integers.
