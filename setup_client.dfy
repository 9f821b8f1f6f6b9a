/**
  The user-setup page (ADMIN): the list of users with its counters, the form
  that adds a user, and the per-row role selector and activation toggle. The
  replies of `PATCH /api/users/{id}` are parameters; `None` stands for a
  reply that is not ok.
 */
module SetupClient {
  import opened Common
  import opened Seqs
  import opened JsObjects

  /** A user as the page holds it. */
  datatype UserRow = UserRow(id: Id, username: string, email: string, name: string, role: Role, isActive: bool,
                             createdAt: string)

  /** `handleAdded(u)`: the new user goes first. */
  function HandleAdded(users: seq<UserRow>, u: UserRow): seq<UserRow>
  {
    [u] + users
  }

  /** `changeRole(id, role)`: on an ok reply the user with that id takes the role the reply carries. */
  function ChangeRole(users: seq<UserRow>, id: Id, reply: Option<Role>): seq<UserRow>
  {
    match reply
    case None => users
    case Some(role) => seq(|users|, i requires 0 <= i < |users| => if users[i].id == id then users[i].(role := role) else users[i])
  }

  /** The flag `toggleActive(id, current)` asks for: `{ isActive: !current }`. */
  function ToggleRequest(current: bool): bool
  {
    !current
  }

  /** On an ok reply the user with that id takes the flag the reply carries. */
  function ToggleActive(users: seq<UserRow>, id: Id, reply: Option<bool>): seq<UserRow>
  {
    match reply
    case None => users
    case Some(flag) => seq(|users|, i requires 0 <= i < |users| => if users[i].id == id then users[i].(isActive := flag) else users[i])
  }

  predicate IsActiveUser(u: UserRow)
  {
    u.isActive
  }

  /** `users.filter(u => u.role === r).length`. */
  function ByRole(users: seq<UserRow>, r: Role): nat
  {
    Count(users, (u: UserRow) => u.role == r)
  }

  /** The counters: total, active, and one per role. */
  datatype Stats = Stats(total: nat, active: nat, byRole: map<Role, nat>)

  function StatsOf(users: seq<UserRow>): Stats
  {
    Stats(|users|, Count(users, IsActiveUser), map r | r in AllRoles :: ByRole(users, r))
  }

  /** The add-user form; the role starts at SALES. */
  datatype AddUserForm = AddUserForm(name: string, username: string, email: string, password: string, role: Role)

  const EmptyAddUserForm := AddUserForm("", "", "", "", Sales)

  /** `handleSave`: every text field must be non-empty; the form is sent as it is. */
  function CheckAddUser(f: AddUserForm): Submit<AddUserForm>
  {
    if f.name == "" || f.username == "" || f.email == "" || f.password == "" then Invalid("All fields are required")
    else Send(f)
  }

  /** Whether a row offers the role selector and the activation toggle: not on the signed-in user's own row. */
  datatype RowControls = RowControls(roleSelectEnabled: bool, toggleShown: bool)

  function ControlsFor(u: UserRow, currentUserId: Id): RowControls
  {
    RowControls(u.id != currentUserId, u.id != currentUserId)
  }

  // ---------------------------------------------------------------- properties

  /** Adding a user puts it first and keeps the others in order; the counters grow by exactly that user. */
  lemma HandleAddedCounts(users: seq<UserRow>, u: UserRow)
    ensures var r := HandleAdded(users, u);
      && r[0] == u && r[1..] == users
      && StatsOf(r).total == StatsOf(users).total + 1
      && StatsOf(r).active == StatsOf(users).active + (if u.isActive then 1 else 0)
      && forall role :: role in AllRoles ==>
           StatsOf(r).byRole[role] == StatsOf(users).byRole[role] + (if u.role == role then 1 else 0)
  {
    var r := HandleAdded(users, u);
    assert r[1..] == users;
  }

  /**
    An ok role change changes the role of the user with that id and nothing
    else; a failed one changes nothing.
   */
  lemma ChangeRoleTouchesOne(users: seq<UserRow>, id: Id, reply: Option<Role>)
    ensures var r := ChangeRole(users, id, reply);
      && |r| == |users|
      && (reply.None? ==> r == users)
      && forall i :: 0 <= i < |users| ==>
           && r[i].(role := users[i].role) == users[i]
           && (users[i].id != id ==> r[i] == users[i])
           && (users[i].id == id && reply.Some? ==> r[i].role == reply.value)
  {
  }

  /**
    The toggle asks for the negation of the current flag; an ok reply sets
    only that user's flag, to what the reply says, and a failed one changes
    nothing.
   */
  lemma ToggleActiveTouchesOne(users: seq<UserRow>, id: Id, current: bool, reply: Option<bool>)
    ensures var r := ToggleActive(users, id, reply);
      && |r| == |users|
      && (reply.None? ==> r == users)
      && forall i :: 0 <= i < |users| ==>
           && r[i].(isActive := users[i].isActive) == users[i]
           && (users[i].id != id ==> r[i] == users[i])
           && (users[i].id == id && reply.Some? ==> r[i].isActive == reply.value)
           && (users[i].id == id && users[i].isActive == current && reply == Some(ToggleRequest(current))
               ==> r[i].isActive != users[i].isActive)
  {
  }

  /** The sum of the five per-role counts. */
  function RoleTotal(users: seq<UserRow>): nat
  {
    ByRole(users, Admin) + ByRole(users, Manager) + ByRole(users, Sales) + ByRole(users, Accounts)
    + ByRole(users, Packaging)
  }

  /** Every user has exactly one of the five roles, so the per-role counts add up to the total. */
  lemma {:induction false} RolesCoverUsers(users: seq<UserRow>)
    ensures RoleTotal(users) == |users|
  {
    if users != [] {
      RolesCoverUsers(users[1..]);
    }
  }

  /** The counters agree: active users are at most all of them, and the per-role counters add up to the total. */
  lemma StatsAddUp(users: seq<UserRow>)
    ensures var s := StatsOf(users);
      && s.active <= s.total && s.byRole.Keys == set r | r in AllRoles
      && s.byRole[Admin] + s.byRole[Manager] + s.byRole[Sales] + s.byRole[Accounts] + s.byRole[Packaging] == s.total
  {
    RolesCoverUsers(users);
  }

  /** The form is refused exactly when one of the four text fields is empty; the role is never missing. */
  lemma CheckAddUserRule(f: AddUserForm)
    ensures CheckAddUser(f).Invalid? <==> f.name == "" || f.username == "" || f.email == "" || f.password == ""
    ensures CheckAddUser(f).Invalid? ==> CheckAddUser(f).error == "All fields are required"
    ensures CheckAddUser(f).Send? ==> CheckAddUser(f).body == f
    ensures CheckAddUser(EmptyAddUserForm).Invalid?
  {
  }

  /** The signed-in user cannot change their own role or deactivate themselves from the page; every other row can. */
  lemma NoSelfChanges(u: UserRow, currentUserId: Id)
    ensures ControlsFor(u, currentUserId) == RowControls(false, false) <==> u.id == currentUserId
    ensures u.id != currentUserId ==> ControlsFor(u, currentUserId) == RowControls(true, true)
  {
  }
}
