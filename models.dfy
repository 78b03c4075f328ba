/**
  The three tables and the constraints the database and the handlers keep on
  them: unique login of at most 20 characters, every user linked to its own
  employee, every employee owned by exactly one user, salaries that fit the
  32-bit integer column, and every token row pointing at an existing user.
*/
module Models {
  import opened Results
  import opened Codec
  import opened Password

  /** Primary keys are uuid4 values, written as text. */
  type Uuid = string

  const LoginMaxLength := 20
  const MinInt32 := -0x8000_0000
  const MaxInt32 := 0x7fff_ffff

  /** A row of `users`; the password column holds a digest. */
  datatype UserRow = UserRow(login: string, password: Digest, employeeId: Uuid)

  /** A row of `employees`; `nextRaiseDate` is a timestamp. */
  datatype EmployeeRow = EmployeeRow(fullName: string, salary: int, nextRaiseDate: int)

  /** A row of `tokens`. */
  datatype TokenRow = TokenRow(userId: Uuid, token: Jwt, expiresAt: int, isActive: bool)

  /** The value `is_active` takes when the insert does not supply it. */
  const IsActiveDefault := true

  predicate IsInt32(x: int)
  {
    MinInt32 <= x <= MaxInt32
  }

  /** The unique index on `users.login`. */
  ghost predicate UniqueLogins(users: map<Uuid, UserRow>)
  {
    forall a, b :: a in users && b in users && users[a].login == users[b].login ==> a == b
  }

  /** Someone already has this login. */
  ghost predicate LoginTaken(users: map<Uuid, UserRow>, login: string)
  {
    exists id :: id in users && users[id].login == login
  }

  /** `employee` is the employee of some user. */
  ghost predicate Owned(users: map<Uuid, UserRow>, employee: Uuid)
  {
    exists id :: id in users && users[id].employeeId == employee
  }

  ghost predicate Consistent(users: map<Uuid, UserRow>, employees: map<Uuid, EmployeeRow>, tokens: map<Uuid, TokenRow>)
  {
    && UniqueLogins(users)
    && (forall id :: id in users ==> |users[id].login| <= LoginMaxLength)
    && (forall id :: id in users ==> users[id].employeeId in employees)
    && (forall a, b :: a in users && b in users && users[a].employeeId == users[b].employeeId ==> a == b)
    && (forall e :: e in employees ==> Owned(users, e))
    && (forall e :: e in employees ==> IsInt32(employees[e].salary))
    && (forall t :: t in tokens ==> tokens[t].userId in users)
  }

  /** The database: the users, employees and tokens tables, keyed by id. */
  class Store {
    var users: map<Uuid, UserRow>
    var employees: map<Uuid, EmployeeRow>
    var tokens: map<Uuid, TokenRow>

    ghost predicate Valid()
      reads this
    {
      Consistent(users, employees, tokens)
    }

    constructor ()
      ensures Valid()
      ensures users == map[] && employees == map[] && tokens == map[]
    {
      users, employees, tokens := map[], map[], map[];
    }
  }

  /** The row `where(Users.login == login).fetchone()` finds; the unique index
      makes it the only candidate. */
  function FindLogin(users: map<Uuid, UserRow>, login: string): (r: Option<Uuid>)
    requires UniqueLogins(users)
    ensures r.Some? ==> r.value in users && users[r.value].login == login
    ensures r.Some? ==> forall id :: id in users && users[id].login == login ==> id == r.value
    ensures r.None? <==> !LoginTaken(users, login)
  {
    if exists id :: id in users && users[id].login == login then
      var id :| id in users && users[id].login == login; Some(id)
    else
      None
  }

  /** Inserting a user together with its fresh employee keeps the tables
      consistent. */
  lemma InsertUserKeepsConsistent(users: map<Uuid, UserRow>, employees: map<Uuid, EmployeeRow>, tokens: map<Uuid, TokenRow>,
                                  userId: Uuid, employeeId: Uuid, user: UserRow, employee: EmployeeRow)
    requires Consistent(users, employees, tokens)
    requires userId !in users && employeeId !in employees
    requires user.employeeId == employeeId && |user.login| <= LoginMaxLength && !LoginTaken(users, user.login)
    requires IsInt32(employee.salary)
    ensures Consistent(users[userId := user], employees[employeeId := employee], tokens)
  {
    var users', employees' := users[userId := user], employees[employeeId := employee];
    forall e | e in employees' ensures Owned(users', e) {
      if e == employeeId {
        assert users'[userId].employeeId == e;
      } else {
        var id :| id in users && users[id].employeeId == e;
        assert users'[id].employeeId == e;
      }
    }
  }

  /** Inserting a token row for an existing user keeps the tables consistent. */
  lemma InsertTokenKeepsConsistent(users: map<Uuid, UserRow>, employees: map<Uuid, EmployeeRow>, tokens: map<Uuid, TokenRow>,
                                   tokenId: Uuid, row: TokenRow)
    requires Consistent(users, employees, tokens)
    requires row.userId in users
    ensures Consistent(users, employees, tokens[tokenId := row])
  {
  }
}
