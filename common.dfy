/**
  Types shared by every handler and page model: nullable values, the HTTP
  outcome of a route, the five user roles, the logged-in session, and the
  JavaScript truthiness tests (`x || null`, `x ?? d`, `if (!x)`) that the
  handlers use to normalise their inputs.
 */
module Common {

  /** A nullable or possibly-missing JSON value (`null` and `undefined` are both None). */
  datatype Option<+T> = None | Some(value: T) {
    function GetOr(default: T): (r: T)
      ensures Some? ==> r == value
      ensures None? ==> r == default
    {
      match this
      case Some(v) => v
      case None => default
    }
  }

  /** What a route handler answers: a JSON body, or an HTTP error status with its message. */
  datatype Reply<+T> = Ok(value: T) | Fail(status: nat, error: string)

  /** Database row ids. Every table in the model hands out ids in creation order. */
  type Id = nat

  /** Timestamps (milliseconds since the epoch); the clock is a parameter of each operation. */
  type Time = int

  datatype Role = Admin | Manager | Sales | Accounts | Packaging

  const AllRoles: seq<Role> := [Admin, Manager, Sales, Accounts, Packaging]

  function RoleName(r: Role): string
  {
    match r
    case Admin => "ADMIN"
    case Manager => "MANAGER"
    case Sales => "SALES"
    case Accounts => "ACCOUNTS"
    case Packaging => "PACKAGING"
  }

  /** The role whose name is `s`, if any: the inverse of RoleName. */
  function RoleFromName(s: string): (r: Option<Role>)
    ensures r.Some? ==> RoleName(r.value) == s
  {
    if s == "ADMIN" then Some(Admin)
    else if s == "MANAGER" then Some(Manager)
    else if s == "SALES" then Some(Sales)
    else if s == "ACCOUNTS" then Some(Accounts)
    else if s == "PACKAGING" then Some(Packaging)
    else None
  }

  lemma RoleNameRoundTrip(r: Role)
    ensures RoleFromName(RoleName(r)) == Some(r)
  {
  }

  lemma AllRolesComplete(r: Role)
    ensures r in AllRoles
  {
  }

  /** The payload of the signed session cookie. */
  datatype SessionUser = SessionUser(id: Id, username: string, name: string, role: Role)

  /** `!session || !roles.includes(session.role)`: the role gate at the top of most handlers. */
  predicate RoleGate(session: Option<SessionUser>, roles: seq<Role>)
  {
    session.Some? && session.value.role in roles
  }

  /** JavaScript truthiness of a nullable string: null, undefined and "" are falsy. */
  predicate Truthy(s: Option<string>)
  {
    s.Some? && s.value != ""
  }

  /** JavaScript truthiness of a nullable number: null, undefined and 0 are falsy. */
  predicate TruthyNum(x: Option<real>)
  {
    x.Some? && x.value != 0.0
  }

  /** `s || null`: an empty string becomes null. */
  function OrNull(s: Option<string>): (r: Option<string>)
    ensures r.None? <==> !Truthy(s)
    ensures r.Some? ==> r == s
  {
    if Truthy(s) then s else None
  }

  /** `s || fallback`: the fallback wherever the new value is empty. */
  function OrElse(s: Option<string>, fallback: Option<string>): (r: Option<string>)
    ensures Truthy(s) ==> r == s
    ensures !Truthy(s) ==> r == fallback
  {
    if Truthy(s) then s else fallback
  }

  /** `x || d` on numbers: null, undefined and 0 give the default. */
  function NumOr(x: Option<real>, d: real): (r: real)
    ensures TruthyNum(x) ==> r == x.value
    ensures !TruthyNum(x) ==> r == d
  {
    if TruthyNum(x) then x.value else d
  }

  /** `x ? x : null` on numbers: 0 becomes null as well. */
  function NumOrNull(x: Option<real>): (r: Option<real>)
    ensures r.None? <==> !TruthyNum(x)
    ensures r.Some? ==> r == x
  {
    if TruthyNum(x) then x else None
  }
}
