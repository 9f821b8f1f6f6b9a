/**
  The request gate in front of the dashboard. The framework runs the
  middleware only on the paths its matcher `/dashboard/:path*` accepts
  (`Gate`); the middleware function itself (`Decide`) lets public paths,
  framework paths and non-dashboard paths pass, and otherwise needs a session
  cookie whose token verifies, with the role in the token allowed the path by
  the gate's own copy of the role table. Token verification is a parameter
  (`verify` gives the role a valid token carries, or None when verification
  fails).
 */
module Middleware {
  import opened Common
  import opened Strings
  import Auth

  const PublicPaths: seq<string> :=
    ["/login", "/client-form", "/client-multi-form", "/api/client-form-submit", "/api/client-multi-form-submit"]

  datatype Decision = Next | Redirect(location: string)

  /**
    The property names every JavaScript object inherits from `Object.prototype`.
    Looking one of them up in an object literal finds a function (or, for
    `__proto__`, the prototype itself), never an array.
   */
  const InheritedKeys: set<string> := {
    "constructor", "hasOwnProperty", "isPrototypeOf", "propertyIsEnumerable", "toLocaleString", "toString",
    "valueOf", "__proto__", "__defineGetter__", "__defineSetter__", "__lookupGetter__", "__lookupSetter__"}

  /** What `ROLE_ACCESS[role] ?? []` yields: an array of paths, or an inherited member that is no array. */
  datatype Lookup = Paths(paths: seq<string>) | Inherited

  /** `ROLE_ACCESS[role] ?? []`: the gate's table, keyed by the role string in the token. */
  function GatePerms(role: string): (l: Lookup)
    ensures l.Inherited? <==> role in InheritedKeys
  {
    if role in InheritedKeys then Inherited else Paths(TablePaths(role))
  }

  /** The entries of the object literal, and `[]` for a role it does not list. */
  function TablePaths(role: string): seq<string>
  {
    if role == "ADMIN" then ["*"]
    else if role == "MANAGER" then
      ["/dashboard", "/dashboard/client-forms", "/dashboard/order-entry", "/dashboard/party",
       "/dashboard/product-master", "/dashboard/purchase", "/dashboard/ocr"]
    else if role == "SALES" then
      ["/dashboard", "/dashboard/client-forms", "/dashboard/order-entry", "/dashboard/product-master"]
    else if role == "ACCOUNTS" then ["/dashboard", "/dashboard/client-forms", "/dashboard/purchase"]
    else if role == "PACKAGING" then ["/dashboard", "/dashboard/order-initiation"]
    else []
  }

  predicate IsPublic(pathname: string)
  {
    exists p :: p in PublicPaths && StartsWith(pathname, p)
  }

  predicate IsFramework(pathname: string)
  {
    StartsWith(pathname, "/api/auth") || StartsWith(pathname, "/_next") || pathname == "/favicon.ico"
  }

  /**
    `middleware(req)`: the decision for a path and the session cookie's value,
    if any. An inherited lookup has no `includes`, so the call throws and the
    catch redirects to the login page, as a failed verification does.
   */
  function Decide(pathname: string, cookie: Option<string>, verify: string -> Option<string>): Decision
  {
    if IsPublic(pathname) then Next
    else if IsFramework(pathname) then Next
    else if !StartsWith(pathname, "/dashboard") then Next
    else if !Truthy(cookie) then Redirect("/login")
    else match verify(cookie.value)
      case None => Redirect("/login")
      case Some(role) =>
        match GatePerms(role)
        case Inherited => Redirect("/login")
        case Paths(perms) => if Auth.PermitsPath(perms, pathname) then Next else Redirect("/dashboard")
  }

  /** The paths `/dashboard/:path*` matches: "/dashboard" itself and everything below it. */
  predicate Matched(pathname: string)
  {
    pathname == "/dashboard" || StartsWith(pathname, "/dashboard/")
  }

  /** A request as the framework handles it: the middleware runs on matched paths only, and others pass. */
  function Gate(pathname: string, cookie: Option<string>, verify: string -> Option<string>): Decision
  {
    if Matched(pathname) then Decide(pathname, cookie, verify) else Next
  }

  /** The gate's table is the one in the auth library, entry for entry, for every known role. */
  lemma TablesAgree(r: Role)
    ensures GatePerms(RoleName(r)) == Paths(Auth.RoleAccess(r))
  {
    assert RoleName(r) !in InheritedKeys;
  }

  /** Every matched path starts with "/dashboard", so the middleware inspects it. */
  lemma MatchedIsDashboard(pathname: string)
    requires Matched(pathname)
    ensures StartsWith(pathname, "/dashboard")
  {
    if pathname != "/dashboard" {
      assert pathname[..10] == pathname[..11][..10];
    }
  }

  /** An unmatched path never reaches the middleware: "/dashboardx" passes without a cookie, which `Decide` alone would refuse. */
  lemma UnmatchedPasses(pathname: string, cookie: Option<string>, verify: string -> Option<string>)
    ensures !Matched(pathname) ==> Gate(pathname, cookie, verify) == Next
    ensures Gate("/dashboardx", None, verify) == Next && Decide("/dashboardx", None, verify) == Redirect("/login")
  {
    assert "/dashboardx"[..11][10] != "/dashboard/"[10];
    assert StartsWith("/dashboardx", "/dashboard");
    DashboardNotExempt("/dashboardx");
  }

  /** Two prefixes of one string agree on their common length. */
  lemma PrefixesAgree(s: string, p: string, q: string)
    requires StartsWith(s, p) && StartsWith(s, q) && |q| <= |p|
    ensures StartsWith(p, q)
  {
    assert p[..|q|] == s[..|p|][..|q|] == s[..|q|];
  }

  /** Strings that start with p cannot start with a q that differs from p in its second character. */
  lemma SecondCharExcludes(s: string, p: string, q: string)
    requires StartsWith(s, p) && |p| >= 2 && |q| >= 2 && p[1] != q[1]
    ensures !StartsWith(s, q)
  {
    assert s[1] == s[..|p|][1] == p[1];
  }

  /** No dashboard path is public or a framework path, so the gate always inspects it. */
  lemma DashboardNotExempt(pathname: string)
    requires StartsWith(pathname, "/dashboard")
    ensures !IsPublic(pathname) && !IsFramework(pathname)
  {
    forall p | p in PublicPaths + ["/api/auth", "/_next"]
      ensures !StartsWith(pathname, p)
    {
      SecondCharExcludes(pathname, "/dashboard", p);
    }
    assert pathname[1] == pathname[..10][1] == 'd';
  }

  /** Public prefixes pass without any cookie; matching is a plain prefix test, so "/loginx" passes too. */
  lemma PublicPassesWithoutCookie(pathname: string, verify: string -> Option<string>)
    requires IsPublic(pathname)
    ensures Decide(pathname, None, verify) == Next
  {
  }

  lemma LoginxIsPublic()
    ensures IsPublic("/loginx")
  {
    assert StartsWith("/loginx", "/login");
  }

  /** Framework paths and every path outside "/dashboard" pass whatever the cookie. */
  lemma NonDashboardPasses(pathname: string, cookie: Option<string>, verify: string -> Option<string>)
    requires IsFramework(pathname) || !StartsWith(pathname, "/dashboard")
    ensures Decide(pathname, cookie, verify) == Next
  {
  }

  /** A dashboard request without a (non-empty) session cookie goes to the login page. */
  lemma NoCookieRedirectsToLogin(pathname: string, cookie: Option<string>, verify: string -> Option<string>)
    requires Matched(pathname) && !Truthy(cookie)
    ensures Gate(pathname, cookie, verify) == Redirect("/login")
  {
    MatchedIsDashboard(pathname);
    DashboardNotExempt(pathname);
  }

  /** A dashboard request whose token fails verification goes to the login page. */
  lemma BadTokenRedirectsToLogin(pathname: string, token: string, verify: string -> Option<string>)
    requires Matched(pathname) && token != "" && verify(token).None?
    ensures Gate(pathname, Some(token), verify) == Redirect("/login")
  {
    MatchedIsDashboard(pathname);
    DashboardNotExempt(pathname);
  }

  /**
    A verified token whose role names an inherited property of every object
    (such as "constructor") makes the permission check throw, and the request
    goes to the login page.
   */
  lemma InheritedRoleRedirectsToLogin(pathname: string, token: string, verify: string -> Option<string>)
    requires Matched(pathname) && token != ""
    requires verify(token).Some? && verify(token).value in InheritedKeys
    ensures Gate(pathname, Some(token), verify) == Redirect("/login")
  {
    MatchedIsDashboard(pathname);
    DashboardNotExempt(pathname);
  }

  /** Any other verified role outside the table gets no permissions and is sent to "/dashboard". */
  lemma UnknownRoleRedirectsToDashboard(pathname: string, token: string, verify: string -> Option<string>)
    requires Matched(pathname) && token != ""
    requires verify(token).Some? && RoleFromName(verify(token).value).None? && verify(token).value !in InheritedKeys
    ensures Gate(pathname, Some(token), verify) == Redirect("/dashboard")
  {
    MatchedIsDashboard(pathname);
    DashboardNotExempt(pathname);
  }

  /** For a known role the gate lets a dashboard request through exactly when canAccess admits it. */
  lemma KnownRoleMatchesCanAccess(pathname: string, token: string, verify: string -> Option<string>, r: Role)
    requires Matched(pathname) && token != ""
    requires verify(token) == Some(RoleName(r))
    ensures Gate(pathname, Some(token), verify) == (if Auth.CanAccess(r, pathname) then Next else Redirect("/dashboard"))
  {
    MatchedIsDashboard(pathname);
    DashboardNotExempt(pathname);
    TablesAgree(r);
  }

  /**
    A request denied for its role is redirected to "/dashboard"; following that
    redirect with the same cookie is let through exactly when the role is a known
    one. So known roles never bounce twice, while a verified token whose role is
    neither known nor an inherited property name is redirected to "/dashboard"
    again and again.
   */
  lemma DenialRedirectSettles(pathname: string, cookie: Option<string>, verify: string -> Option<string>)
    requires Gate(pathname, cookie, verify) == Redirect("/dashboard")
    ensures Truthy(cookie) && verify(cookie.value).Some? && verify(cookie.value).value !in InheritedKeys
    ensures Gate("/dashboard", cookie, verify) == Next <==> RoleFromName(verify(cookie.value).value).Some?
    ensures RoleFromName(verify(cookie.value).value).None? ==> Gate("/dashboard", cookie, verify) == Redirect("/dashboard")
  {
    assert Matched("/dashboard");
    var role := verify(cookie.value).value;
    match RoleFromName(role)
    case Some(r) =>
      KnownRoleMatchesCanAccess("/dashboard", cookie.value, verify, r);
      Auth.DashboardOpenToAll(r);
    case None =>
      UnknownRoleRedirectsToDashboard("/dashboard", cookie.value, verify);
  }
}
