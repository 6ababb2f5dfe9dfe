/** The `users` table and the login session: registration, login and logout.
    The table is a sequence of rows in insertion order; the session is the pair
    (`user_id`, `username`) that login writes into the Flask session, or None. */
module Accounts {
  import opened Basics

  /** A row of the `users` table. The password is kept only as its hash. */
  datatype User = User(id: nat, username: string, email: string, passwordHash: string)

  /** The password-hashing functions the application calls. `hash(password, salt)`
      stands for werkzeug's salted `generate_password_hash`, with the random salt made
      a parameter; `check(stored, password)` stands for `check_password_hash`. */
  datatype Hasher = Hasher(hash: (string, string) -> string, check: (string, string) -> bool)

  /** What a successful login stores in the session: `user_id` and `username`. */
  datatype SessionUser = SessionUser(userId: nat, username: string)

  datatype RegisterOutcome = Registered | UsernameOrEmailInUse

  /** Login has one failure answer, whichever of email or password was wrong. */
  datatype LoginOutcome = LoggedIn | InvalidCredentials

  /** The table as the application builds it: row i has primary key i + 1 (no row is
      ever deleted), and no two rows share a username or an email. */
  ghost predicate WellFormed(users: seq<User>) {
    && (forall i :: 0 <= i < |users| ==> users[i].id == i + 1)
    && (forall i, j :: 0 <= i < j < |users| ==>
          users[i].username != users[j].username && users[i].email != users[j].email)
  }

  /** The first row that has this username or this email, if any. */
  function FindConflict(users: seq<User>, username: string, email: string): Option<nat> {
    FirstIndex(users, (u: User) => u.username == username || u.email == email)
  }

  /** The first row with this email, if any. */
  function FindByEmail(users: seq<User>, email: string): Option<nat> {
    FirstIndex(users, (u: User) => u.email == email)
  }

  /** The `register` route on a POST: the table afterwards and the answer. */
  function Register(users: seq<User>, username: string, email: string, password: string,
                    salt: string, hasher: Hasher): (r: (seq<User>, RegisterOutcome))
    ensures r.1 == UsernameOrEmailInUse <==>
      exists i :: 0 <= i < |users| && (users[i].username == username || users[i].email == email)
    ensures r.1 == UsernameOrEmailInUse ==> r.0 == users
    ensures r.1 == Registered ==>
      r.0 == users + [User(|users| + 1, username, email, hasher.hash(password, salt))]
  {
    match FindConflict(users, username, email)
    case Some(_) => (users, UsernameOrEmailInUse)
    case None => (users + [User(|users| + 1, username, email, hasher.hash(password, salt))], Registered)
  }

  /** The credential check of the `login` route: the session value it would store. */
  function Authenticate(users: seq<User>, email: string, password: string, hasher: Hasher): (r: Option<SessionUser>)
    ensures r.Some? ==>
      exists i :: 0 <= i < |users| && users[i].email == email &&
        hasher.check(users[i].passwordHash, password) &&
        r.value == SessionUser(users[i].id, users[i].username)
    ensures (forall i :: 0 <= i < |users| ==> users[i].email != email) ==> r.None?
  {
    match FindByEmail(users, email)
    case None => None
    case Some(i) =>
      var u := users[i];
      if hasher.check(u.passwordHash, password) then Some(SessionUser(u.id, u.username)) else None
  }

  /** The `login` route on a POST: the session afterwards and the answer. A failed
      login leaves whatever session there was. */
  function Login(users: seq<User>, session: Option<SessionUser>, email: string, password: string,
                 hasher: Hasher): (r: (Option<SessionUser>, LoginOutcome))
    ensures r.1 == LoggedIn <==> Authenticate(users, email, password, hasher).Some?
    ensures r.1 == LoggedIn ==> r.0 == Authenticate(users, email, password, hasher)
    ensures r.1 == InvalidCredentials ==> r.0 == session
  {
    match Authenticate(users, email, password, hasher)
    case Some(who) => (Some(who), LoggedIn)
    case None => (session, InvalidCredentials)
  }

  /** With unique emails, login succeeds exactly when some row has that email and the
      password checks against that row's hash; the session then holds that row. */
  lemma {:induction false} AuthenticateIff(users: seq<User>, email: string, password: string, hasher: Hasher)
    requires WellFormed(users)
    ensures Authenticate(users, email, password, hasher).Some? <==>
      exists i :: 0 <= i < |users| && users[i].email == email && hasher.check(users[i].passwordHash, password)
    ensures forall i :: (0 <= i < |users| && users[i].email == email &&
      hasher.check(users[i].passwordHash, password)) ==>
      Authenticate(users, email, password, hasher) == Some(SessionUser(i + 1, users[i].username))
  {
    match FindByEmail(users, email)
    case None =>
    case Some(k) =>
      assert users[k].email == email;
  }

  /** A successful registration keeps the table well formed. */
  lemma {:induction false} RegisterPreservesWellFormed(users: seq<User>, username: string, email: string,
                                    password: string, salt: string, hasher: Hasher)
    requires WellFormed(users)
    ensures WellFormed(Register(users, username, email, password, salt, hasher).0)
  {
    var r := Register(users, username, email, password, salt, hasher);
    if r.1 == Registered {
      var n := |users|;
      forall i, j | 0 <= i < j < |r.0|
        ensures r.0[i].username != r.0[j].username && r.0[i].email != r.0[j].email
      {
        if j == n {
          assert r.0[i] == users[i];
          assert !(users[i].username == username || users[i].email == email);
        }
      }
    }
  }

  /** Once registered, the same username or the same email is refused. */
  lemma {:induction false} RegisterTwiceConflicts(users: seq<User>, username: string, email: string, password: string,
                               salt: string, hasher: Hasher, username': string, email': string,
                               password': string, salt': string)
    requires Register(users, username, email, password, salt, hasher).1 == Registered
    requires username' == username || email' == email
    ensures var after := Register(users, username, email, password, salt, hasher).0;
      Register(after, username', email', password', salt', hasher) == (after, UsernameOrEmailInUse)
  {
    var after := Register(users, username, email, password, salt, hasher).0;
    assert after[|users|].username == username && after[|users|].email == email;
  }

  /** Registering and then logging in with the same email and password succeeds, and the
      session holds the new row's id and username, provided the hash of the password
      checks against the password (as werkzeug's pair of functions promises). */
  lemma {:induction false} RegisterThenLogin(users: seq<User>, username: string, email: string, password: string,
                          salt: string, hasher: Hasher, session: Option<SessionUser>)
    requires WellFormed(users)
    requires hasher.check(hasher.hash(password, salt), password)
    requires Register(users, username, email, password, salt, hasher).1 == Registered
    ensures var after := Register(users, username, email, password, salt, hasher).0;
      Login(after, session, email, password, hasher) ==
        (Some(SessionUser(|users| + 1, username)), LoggedIn)
  {
    var after := Register(users, username, email, password, salt, hasher).0;
    RegisterPreservesWellFormed(users, username, email, password, salt, hasher);
    AuthenticateIff(after, email, password, hasher);
    assert after[|users|].email == email;
  }
}
