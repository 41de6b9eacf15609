/** The auth slice: the signed-in user, if any, and two flags derived from
    it at sign-in. */
module Auth {
  import opened Common
  import opened Users

  datatype AuthState = AuthState(user: Option<User>, isAuthenticated: bool, isAdmin: bool)

  const InitialAuth := AuthState(None, false, false)

  /** A `Partial<User>` payload: `None` is a key the payload does not
      carry. For the optional fields a carried key may hold `undefined`,
      which is `Some(None)`. */
  datatype UserPatch = UserPatch(
    id: Option<string>,
    firstName: Option<string>,
    lastName: Option<string>,
    email: Option<string>,
    password: Option<Option<string>>,
    role: Option<string>,
    address: Option<Option<Address>>,
    createdAt: Option<string>)

  const EmptyPatch := UserPatch(None, None, None, None, None, None, None, None)

  /** The value of a field after spreading: the payload's when it carries
      the key, the current one otherwise. */
  function Pick<T>(field: Option<T>, current: T): T
  {
    match field
    case Some(v) => v
    case None => current
  }

  /** `{ ...user, ...patch }` */
  function ApplyPatch(u: User, p: UserPatch): User
  {
    User(
      Pick(p.id, u.id),
      Pick(p.firstName, u.firstName),
      Pick(p.lastName, u.lastName),
      Pick(p.email, u.email),
      Pick(p.password, u.password),
      Pick(p.role, u.role),
      Pick(p.address, u.address),
      Pick(p.createdAt, u.createdAt))
  }

  /** `{ ...first, ...second }` on two payloads. */
  function MergePatches(first: UserPatch, second: UserPatch): UserPatch
  {
    UserPatch(
      if second.id.Some? then second.id else first.id,
      if second.firstName.Some? then second.firstName else first.firstName,
      if second.lastName.Some? then second.lastName else first.lastName,
      if second.email.Some? then second.email else first.email,
      if second.password.Some? then second.password else first.password,
      if second.role.Some? then second.role else first.role,
      if second.address.Some? then second.address else first.address,
      if second.createdAt.Some? then second.createdAt else first.createdAt)
  }

  // ---------------------------------------------------------------------
  // The case reducers

  /** Signs `u` in; the admin flag is taken from `u`'s role. */
  function Login(s: AuthState, u: User): (r: AuthState)
    ensures r.user == Some(u)
    ensures r.isAuthenticated
    ensures r.isAdmin <==> u.role == "admin"
  {
    AuthState(Some(u), true, u.role == "admin")
  }

  /** Signs out, whatever the state was. */
  function Logout(s: AuthState): (r: AuthState)
    ensures r == InitialAuth
  {
    AuthState(None, false, false)
  }

  /** Merges the payload into the signed-in user. Neither flag is
      recomputed; with nobody signed in nothing happens. */
  function UpdateUser(s: AuthState, p: UserPatch): (r: AuthState)
    ensures r.isAuthenticated == s.isAuthenticated && r.isAdmin == s.isAdmin
    ensures s.user.None? ==> r == s
    ensures s.user.Some? ==> r.user == Some(ApplyPatch(s.user.value, p))
  {
    match s.user
    case Some(u) => s.(user := Some(ApplyPatch(u, p)))
    case None => s
  }

  // ---------------------------------------------------------------------
  // The slice reducer and action sequences

  datatype AuthAction =
    | LogIn(user: User)
    | LogOut
    | Update(patch: UserPatch)

  function Reduce(s: AuthState, a: AuthAction): AuthState
  {
    match a
    case LogIn(u) => Login(s, u)
    case LogOut => Logout(s)
    case Update(p) => UpdateUser(s, p)
  }

  function Run(s: AuthState, actions: seq<AuthAction>): AuthState
    decreases |actions|
  {
    if |actions| == 0 then s else Run(Reduce(s, actions[0]), actions[1..])
  }
}
