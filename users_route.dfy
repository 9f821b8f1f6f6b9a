/**
  `/api/users`, ADMIN only: GET lists the users newest first, POST creates
  one. POST needs all five fields; it stores the username and the email
  trimmed and lower-cased and the name trimmed, with the password only as
  its hash (the hashing function is a parameter), and answers 409 when the
  username or the email is already taken. No reply ever carries the
  password.
 */
module UsersRoute {
  import opened Common
  import opened Strings
  import opened Db

  /** A user as the API shows it: every column but the password. */
  datatype UserView = UserView(id: Id, username: string, email: string, name: string, role: Role, isActive: bool,
                               createdAt: Time)

  function ViewOf(users: seq<User>, id: Id): (v: UserView)
    requires id < |users|
    ensures v.id == id && v.username == users[id].username && v.email == users[id].email && v.role == users[id].role
  {
    var u := users[id];
    UserView(id, u.username, u.email, u.name, u.role, u.isActive, u.createdAt)
  }

  predicate AdminOnly(session: Option<SessionUser>)
  {
    session.Some? && session.value.role == Admin
  }

  /**
    GET: the users newest first. Rows are appended in creation order, so
    ordering by `createdAt` descending is the table reversed.
   */
  function ListUsers(users: seq<User>, session: Option<SessionUser>): (r: Reply<seq<UserView>>)
    ensures r.Fail? <==> !AdminOnly(session)
    ensures r.Fail? ==> r == Fail(403, "Forbidden")
    ensures r.Ok? ==> |r.value| == |users|
    ensures r.Ok? ==> forall i :: 0 <= i < |users| ==> r.value[i] == ViewOf(users, |users| - 1 - i)
  {
    if !AdminOnly(session) then Fail(403, "Forbidden")
    else Ok(seq(|users|, i requires 0 <= i < |users| => ViewOf(users, |users| - 1 - i)))
  }

  /** The request body of POST; `role` is the role's name as sent. */
  datatype NewUserInput = NewUserInput(
    username: Option<string>, email: Option<string>, password: Option<string>, name: Option<string>,
    role: Option<string>)

  /** `s.trim().toLowerCase()`: how usernames and emails are stored and looked up. */
  function Normalize(s: string): string
  {
    ToLower(Trim(s))
  }

  /** The ORM's validation error for a role name outside the enumeration. */
  const InvalidRole := "Invalid value for argument `role`. Expected Role."

  const Taken := "Username or email already exists"

  /** Whether a stored user already has this username or this email (the two unique columns). */
  predicate Clash(users: seq<User>, username: string, email: string)
  {
    exists i :: 0 <= i < |users| && (users[i].username == username || users[i].email == email)
  }

  datatype UsersOutcome = UsersOutcome(reply: Reply<UserView>, users: seq<User>)

  /** POST on the user table; `hash` is the password's hash, `now` the clock. */
  function CreateUserStep(users: seq<User>, session: Option<SessionUser>, u: NewUserInput,
                          hash: string -> string, now: Time): UsersOutcome
  {
    if !AdminOnly(session) then
      UsersOutcome(Fail(403, "Forbidden"), users)
    else if !Truthy(u.username) || !Truthy(u.email) || !Truthy(u.password) || !Truthy(u.name) || !Truthy(u.role) then
      UsersOutcome(Fail(400, "All fields required"), users)
    else if RoleFromName(u.role.value).None? then
      UsersOutcome(Fail(500, InvalidRole), users)
    else
      var username := Normalize(u.username.value);
      var email := Normalize(u.email.value);
      if Clash(users, username, email) then
        UsersOutcome(Fail(409, Taken), users)
      else
        var row := User(username, email, hash(u.password.value), Trim(u.name.value),
                        RoleFromName(u.role.value).value, true, now);
        UsersOutcome(Ok(ViewOf(users + [row], |users|)), users + [row])
  }

  /** Whether a stored user has this username or email, searched row by row as the unique indexes would. */
  method FindClash(users: seq<User>, username: string, email: string) returns (found: bool)
    ensures found == Clash(users, username, email)
  {
    var i := 0;
    while i < |users|
      invariant 0 <= i <= |users|
      invariant forall j :: 0 <= j < i ==> users[j].username != username && users[j].email != email
    {
      if users[i].username == username || users[i].email == email {
        return true;
      }
      i := i + 1;
    }
    return false;
  }

  /** The handler: the admin gate, the field check, the normalisation, then the insert or its unique violation. */
  method CreateUser(db: Database, session: Option<SessionUser>, u: NewUserInput, hash: string -> string, now: Time)
    returns (r: Reply<UserView>)
    modifies db`users
    ensures UsersOutcome(r, db.users) == CreateUserStep(old(db.users), session, u, hash, now)
  {
    if !AdminOnly(session) {
      return Fail(403, "Forbidden");
    }
    if !Truthy(u.username) || !Truthy(u.email) || !Truthy(u.password) || !Truthy(u.name) || !Truthy(u.role) {
      return Fail(400, "All fields required");
    }
    var role := RoleFromName(u.role.value);
    if role.None? {
      return Fail(500, InvalidRole);
    }
    var username := Normalize(u.username.value);
    var email := Normalize(u.email.value);
    var clash := FindClash(db.users, username, email);
    if clash {
      return Fail(409, Taken);
    }
    var id := |db.users|;
    db.users := db.users + [User(username, email, hash(u.password.value), Trim(u.name.value), role.value, true, now)];
    return Ok(ViewOf(db.users, id));
  }

  // ---------------------------------------------------------------- properties

  /**
    403 for anyone but an ADMIN, then 400 when any of the five fields is
    missing or empty, then 409 when the normalised username or email is
    taken; no refusal writes anything.
   */
  lemma CreateRefusals(users: seq<User>, session: Option<SessionUser>, u: NewUserInput, hash: string -> string,
                       now: Time)
    ensures var out := CreateUserStep(users, session, u, hash, now);
      && (out.reply.Fail? ==> out.users == users)
      && (out.reply == Fail(403, "Forbidden") <==> !AdminOnly(session))
      && (AdminOnly(session) && (u.username.None? || u.email.None? || u.password.None? || u.name.None? || u.role.None?)
          ==> out.reply == Fail(400, "All fields required"))
      && (out.reply == Fail(409, Taken) ==>
            exists i :: 0 <= i < |users| && (users[i].username == Normalize(u.username.value)
                                             || users[i].email == Normalize(u.email.value)))
  {
  }

  /**
    A created user is stored active with the normalised username and email,
    the trimmed name, the role named in the request and the password's hash;
    the reply shows that row, and it has no password.
   */
  lemma UserCreated(users: seq<User>, session: Option<SessionUser>, u: NewUserInput, hash: string -> string,
                    now: Time)
    ensures var out := CreateUserStep(users, session, u, hash, now);
      out.reply.Ok? ==>
        && |out.users| == |users| + 1 && out.users[..|users|] == users
        && var row := out.users[|users|];
           && row.username == Normalize(u.username.value) && row.email == Normalize(u.email.value)
           && row.name == Trim(u.name.value) && RoleName(row.role) == u.role.value
           && row.passwordHash == hash(u.password.value) && row.isActive && row.createdAt == now
           && out.reply.value == ViewOf(out.users, |users|)
  {
    var out := CreateUserStep(users, session, u, hash, now);
    if out.reply.Ok? {
      assert (users + [out.users[|users|]])[..|users|] == users;
    }
  }

  /** The row a successful create appends: active, with the normalised username and the password's hash, clashing with no earlier row. */
  lemma CreatedRow(users: seq<User>, session: Option<SessionUser>, u: NewUserInput, hash: string -> string, now: Time)
    returns (row: User)
    requires CreateUserStep(users, session, u, hash, now).reply.Ok?
    ensures var out := CreateUserStep(users, session, u, hash, now);
      && u.username.Some? && u.password.Some?
      && out.users == users + [row] && row.isActive && row.passwordHash == hash(u.password.value)
      && row.username == Normalize(u.username.value) && !Clash(users, row.username, row.email)
  {
    var out := CreateUserStep(users, session, u, hash, now);
    row := out.users[|users|];
  }

  /** Stored usernames and emails are already normalised: normalising them again changes nothing. */
  lemma StoredNamesNormalised(users: seq<User>, session: Option<SessionUser>, u: NewUserInput,
                              hash: string -> string, now: Time)
    ensures var out := CreateUserStep(users, session, u, hash, now);
      out.reply.Ok? ==>
        Normalize(out.users[|users|].username) == out.users[|users|].username
  {
    var out := CreateUserStep(users, session, u, hash, now);
    if out.reply.Ok? {
      var row := CreatedRow(users, session, u, hash, now);
      assert out.users[|users|] == row;
      NormalizeIdempotent(u.username.value);
    }
  }

  /** Lower-casing keeps the characters' white-space status (it only maps A-Z to a-z). */
  lemma LowerKeepsSpace(c: char)
    ensures IsSpace(LowerChar(c)) == IsSpace(c)
  {
  }

  lemma NormalizeIdempotent(s: string)
    ensures Normalize(Normalize(s)) == Normalize(s)
  {
    var t := Trim(s);
    var l := ToLower(t);
    TrimShape(s);
    if l != [] {
      LowerKeepsSpace(t[0]);
      LowerKeepsSpace(t[|t| - 1]);
    }
    TrimStartOfNonSpace(l);
    TrimEndOfNonSpace(l);
    ToLowerIdempotent(t);
  }

  /** No two users share a username, and no two share an email. */
  predicate UniqueLogins(users: seq<User>)
  {
    forall i, j :: 0 <= i < j < |users| ==> users[i].username != users[j].username && users[i].email != users[j].email
  }

  /** The unique columns stay unique: a clash is refused with 409. */
  lemma CreateKeepsLoginsUnique(users: seq<User>, session: Option<SessionUser>, u: NewUserInput,
                                hash: string -> string, now: Time)
    requires UniqueLogins(users)
    ensures UniqueLogins(CreateUserStep(users, session, u, hash, now).users)
  {
    var out := CreateUserStep(users, session, u, hash, now);
    if out.reply.Ok? {
      var row := CreatedRow(users, session, u, hash, now);
      UniqueAppend(users, row);
    }
  }

  /** A row that clashes with no stored user keeps the logins unique. */
  lemma UniqueAppend(users: seq<User>, row: User)
    requires UniqueLogins(users) && !Clash(users, row.username, row.email)
    ensures UniqueLogins(users + [row])
  {
    var all := users + [row];
    forall i, j | 0 <= i < j < |all|
      ensures all[i].username != all[j].username && all[i].email != all[j].email
    {
      if j == |users| {
        assert all[i] == users[i];
      }
    }
  }

  /** A username of white space alone passes the field check, which tests the raw value, and is stored empty. */
  lemma BlankUsernameStoredEmpty(users: seq<User>, session: Option<SessionUser>, u: NewUserInput,
                                 hash: string -> string, now: Time)
    requires AdminOnly(session) && u.username == Some(" ")
    requires Truthy(u.email) && Truthy(u.password) && Truthy(u.name) && u.role == Some("SALES")
    requires !Clash(users, "", Normalize(u.email.value))
    ensures var out := CreateUserStep(users, session, u, hash, now);
      out.reply.Ok? && out.users[|users|].username == ""
  {
    assert Trim(" ") == "" by {
      assert TrimStart(" ") == TrimStart(" "[1..]);
    }
  }
}
