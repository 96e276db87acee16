/**
 * Users and the session: signup refuses an email already registered,
 * login looks for the first user with the email and password hash, and the
 * current user is whoever the session's user id names, if anyone.
 * Passwords arrive here already hashed.
 */
module Identity {
  import opened Wrappers
  import Lists

  /** A registered user; `password` holds the hex SHA-256 of the password. */
  datatype User = User(id: string, name: string, email: string, password: string, created: int)

  /** The single session record written by login. */
  datatype Session = Session(userId: string, since: int)

  const EmailAlreadyRegistered := "Email already registered"
  const InvalidCredentials := "Invalid credentials"

  /** Some stored user has this email (compared exactly). */
  predicate EmailTaken(users: seq<User>, email: string) {
    exists i :: 0 <= i < |users| && users[i].email == email
  }

  function EmailOf(u: User): string { u.email }
  function IdOf(u: User): string { u.id }

  /** No two users share an email. */
  predicate UniqueEmails(users: seq<User>) {
    Lists.DistinctBy(users, EmailOf)
  }

  /** No two users share an id. */
  predicate UniqueIds(users: seq<User>) {
    Lists.DistinctBy(users, IdOf)
  }

  /** The test `u => u.email === email`. */
  function HasEmail(email: string): User -> bool {
    (u: User) => u.email == email
  }

  /** The test `u => u.email === email && u.password === hashed`. */
  function HasCredentials(email: string, passwordHash: string): User -> bool {
    (u: User) => u.email == email && u.password == passwordHash
  }

  /** The test `u => u.id === userId`. */
  function HasId(userId: string): User -> bool {
    (u: User) => u.id == userId
  }

  /** The user list after `signup`, or the failure for a registered email. */
  function Register(users: seq<User>, user: User): (r: Result<seq<User>>)
    ensures r.Err? <==> EmailTaken(users, user.email)
    ensures r.Err? ==> r.error == EmailAlreadyRegistered
    ensures r.Ok? ==> r.value == users + [user]
  {
    if Lists.FirstIndex(users, HasEmail(user.email)).Some? then Err(EmailAlreadyRegistered)
    else Ok(users + [user])
  }

  /** The user `login` finds: the first with both the email and the password hash. */
  function Authenticate(users: seq<User>, email: string, passwordHash: string): (r: Option<User>)
    ensures r.Some? <==>
      exists i :: 0 <= i < |users| && users[i].email == email && users[i].password == passwordHash
    ensures r.Some? ==> r.value.email == email && r.value.password == passwordHash
    ensures r.Some? ==> exists i :: (0 <= i < |users| && users[i] == r.value &&
      forall j :: 0 <= j < i ==> !(users[j].email == email && users[j].password == passwordHash))
  {
    match Lists.FirstIndex(users, HasCredentials(email, passwordHash))
    case None => None
    case Some(i) => Some(users[i])
  }

  /** `currentUser()`: the first user with the session's user id; None without a session or when no user has it. */
  function Resolve(users: seq<User>, session: Option<Session>): (r: Option<User>)
    ensures r.None? <==>
      session.None? || forall i :: 0 <= i < |users| ==> users[i].id != session.value.userId
    ensures r.Some? ==> r.value in users && r.value.id == session.value.userId
    ensures r.Some? ==> exists i :: (0 <= i < |users| && users[i] == r.value &&
      forall j :: 0 <= j < i ==> users[j].id != session.value.userId)
  {
    match session
    case None => None
    case Some(s) =>
      match Lists.FirstIndex(users, HasId(s.userId))
      case None => None
      case Some(i) => Some(users[i])
  }

  /** A successful signup keeps emails unique. */
  lemma RegisterUnique(users: seq<User>, user: User)
    requires UniqueEmails(users) && Register(users, user).Ok?
    ensures UniqueEmails(Register(users, user).value)
  {
  }

  /** Once a user has signed up, every later signup with that email fails, whatever its name and password. */
  lemma RegisterAgain(users: seq<User>, user: User, again: User)
    requires Register(users, user).Ok? && again.email == user.email
    ensures Register(Register(users, user).value, again) == Err(EmailAlreadyRegistered)
  {
    assert (users + [user])[|users|] == user;
  }

  /** Right after signing up, logging in with the same email and hash finds the new user. */
  lemma LoginAfterRegister(users: seq<User>, user: User)
    requires Register(users, user).Ok?
    ensures Authenticate(Register(users, user).value, user.email, user.password) == Some(user)
  {
    var all := users + [user];
    assert all[|users|] == user;
    var r := Authenticate(all, user.email, user.password);
    var i :| 0 <= i < |all| && all[i] == r.value &&
      forall j :: 0 <= j < i ==> !(all[j].email == user.email && all[j].password == user.password);
  }

  /** With unique ids, the session written by a login resolves to the user who logged in. */
  lemma SessionOfLogin(users: seq<User>, email: string, passwordHash: string, since: int)
    requires UniqueIds(users) && Authenticate(users, email, passwordHash).Some?
    ensures
      var u := Authenticate(users, email, passwordHash).value;
      Resolve(users, Some(Session(u.id, since))) == Some(u)
  {
  }
}
