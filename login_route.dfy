/**
  `POST /api/auth/login`: looks the user up by the trimmed, lower-cased
  username, as it was stored at creation, and issues a session for an
  active user whose password matches its hash. An unknown user, an inactive
  one and a wrong password all get the same 401, so the reply does not tell
  which usernames exist. The password check and the token signing are
  parameters.
 */
module LoginRoute {
  import opened Common
  import opened Strings
  import opened Db
  import opened Seqs
  import opened UsersRoute

  /** The cookie's `maxAge`: eight hours, in seconds. */
  const SessionLifetime: nat := 8 * 60 * 60

  const BadCredentials := "Invalid username or password"

  /** The reply `{ ok, name, role }` and the session the signed cookie carries. */
  datatype LoginResult = LoginResult(session: SessionUser, name: string, role: Role, maxAge: nat)

  /** `findUnique({ where: { username } })`. */
  function FindUser(users: seq<User>, username: string): Option<nat>
  {
    FirstIndex(users, (u: User) => u.username == username)
  }

  /** The handler; `matches(password, hash)` is the password check. */
  function Login(users: seq<User>, username: Option<string>, password: Option<string>,
                 matches: (string, string) -> bool): Reply<LoginResult>
  {
    if !Truthy(username) || !Truthy(password) then Fail(400, "Username and password required")
    else match FindUser(users, Normalize(username.value))
      case None => Fail(401, BadCredentials)
      case Some(i) =>
        var u := users[i];
        if !u.isActive || !matches(password.value, u.passwordHash) then Fail(401, BadCredentials)
        else Ok(LoginResult(SessionUser(i, u.username, u.name, u.role), u.name, u.role, SessionLifetime))
  }

  // ---------------------------------------------------------------- properties

  /**
    A missing username or password gets 400; every other refusal is the same
    401, whether the user is unknown, inactive or gave a wrong password.
   */
  lemma LoginRefusals(users: seq<User>, username: Option<string>, password: Option<string>,
                      matches: (string, string) -> bool)
    ensures var r := Login(users, username, password, matches);
      && (!Truthy(username) || !Truthy(password) <==> r == Fail(400, "Username and password required"))
      && (r.Fail? && r.status != 400 ==> r == Fail(401, BadCredentials))
  {
  }

  /**
    A login succeeds exactly when a user has the normalised username, is
    active and has a password that matches; the session carries that user's
    id, username, name and role, and lasts 8 × 60 × 60 = 28800 seconds.
   */
  lemma LoginSucceeds(users: seq<User>, username: Option<string>, password: Option<string>,
                      matches: (string, string) -> bool)
    requires UniqueLogins(users)
    ensures var r := Login(users, username, password, matches);
      r.Ok? <==>
        Truthy(username) && Truthy(password)
        && exists i :: 0 <= i < |users| && users[i].username == Normalize(username.value)
                       && users[i].isActive && matches(password.value, users[i].passwordHash)
    ensures var r := Login(users, username, password, matches);
      r.Ok? ==>
        var i := r.value.session.id;
        && i < |users| && users[i].username == Normalize(username.value)
        && r.value.session == SessionUser(i, users[i].username, users[i].name, users[i].role)
        && r.value.maxAge == 28800
  {
    if Truthy(username) && Truthy(password) {
      var name := Normalize(username.value);
      var test := (u: User) => u.username == name;
      if i :| 0 <= i < |users| && users[i].username == name && users[i].isActive
                && matches(password.value, users[i].passwordHash) {
        FirstIndexAt(users, test, i);
      }
    }
  }

  /** Logging in as a user just appended, whose username no earlier row has, signs a session for that row. */
  lemma LoginNewRow(users: seq<User>, row: User, typed: string, password: string, matches: (string, string) -> bool)
    requires typed != [] && password != []
    requires row.username == Normalize(typed) && row.isActive && matches(password, row.passwordHash)
    requires forall j :: 0 <= j < |users| ==> users[j].username != row.username
    ensures Login(users + [row], Some(typed), Some(password), matches)
         == Ok(LoginResult(SessionUser(|users|, row.username, row.name, row.role), row.name, row.role, SessionLifetime))
  {
    var all := users + [row];
    FirstIndexAt(all, (x: User) => x.username == row.username, |users|);
    assert FindUser(all, Normalize(typed)) == Some(|users|);
  }

  /**
    A user created through the users route can log in with the username as
    typed at creation, or with any spelling that differs only in letter case
    and surrounding white space, given a password that matches the stored
    hash.
   */
  lemma LoginAfterCreate(users: seq<User>, session: Option<SessionUser>, u: NewUserInput, hash: string -> string,
                         now: Time, typed: string, password: string, matches: (string, string) -> bool)
    requires Normalize(typed) == Normalize(u.username.GetOr("")) && typed != [] && password != []
    requires matches(password, hash(u.password.GetOr("")))
    ensures var out := CreateUserStep(users, session, u, hash, now);
      out.reply.Ok? ==>
        Login(out.users, Some(typed), Some(password), matches).Ok?
        && Login(out.users, Some(typed), Some(password), matches).value.session.id == |users|
  {
    var out := CreateUserStep(users, session, u, hash, now);
    if out.reply.Ok? {
      var row := CreatedRow(users, session, u, hash, now);
      assert u.username.GetOr("") == u.username.value && u.password.GetOr("") == u.password.value;
      LoginNewRow(users, row, typed, password, matches);
      assert Login(out.users, Some(typed), Some(password), matches).value.session.id == |users|;
    }
  }
}
