/**
  Role-based access to dashboard pages: the role → path-prefix table, the
  `canAccess` test, and the sidebar menu with the roles each entry is shown to.
 */
module Auth {
  import opened Common
  import opened Strings

  datatype MenuItem = MenuItem(name: string, path: string, roles: seq<Role>)

  const MenuItems: seq<MenuItem> := [
    MenuItem("HOME", "/dashboard", [Admin, Manager, Sales, Accounts, Packaging]),
    MenuItem("ORDER INITIATION", "/dashboard/client-forms", [Admin, Manager, Sales, Accounts]),
    MenuItem("ORDER ENTRY", "/dashboard/order-entry", [Admin, Manager, Sales]),
    MenuItem("PARTY MASTER", "/dashboard/party", [Admin, Manager]),
    MenuItem("PRODUCT MASTER", "/dashboard/product-master", [Admin, Manager, Sales]),
    MenuItem("PURCHASE BILL", "/dashboard/purchase", [Admin, Manager, Accounts]),
    MenuItem("OCR (GEMINI)", "/dashboard/ocr", [Admin, Manager]),
    MenuItem("SETUP", "/dashboard/setup", [Admin])
  ]

  /** The path prefixes each role may open; "*" stands for every path. */
  function RoleAccess(r: Role): seq<string>
  {
    match r
    case Admin => ["*"]
    case Manager => ["/dashboard", "/dashboard/client-forms", "/dashboard/order-entry", "/dashboard/party",
                     "/dashboard/product-master", "/dashboard/purchase", "/dashboard/ocr"]
    case Sales => ["/dashboard", "/dashboard/client-forms", "/dashboard/order-entry", "/dashboard/product-master"]
    case Accounts => ["/dashboard", "/dashboard/client-forms", "/dashboard/purchase"]
    case Packaging => ["/dashboard", "/dashboard/order-initiation"]
  }

  /** `path === p || path.startsWith(p + "/")`: p is the path itself or a whole leading segment of it. */
  predicate SegmentPrefix(p: string, path: string)
  {
    path == p || StartsWith(path, p + "/")
  }

  /** A permission list admits a path: it holds "*" or some entry is a segment prefix of the path. */
  predicate PermitsPath(perms: seq<string>, path: string)
  {
    "*" in perms || exists p :: p in perms && SegmentPrefix(p, path)
  }

  /** `canAccess(role, path)`. */
  predicate CanAccess(r: Role, path: string)
  {
    PermitsPath(RoleAccess(r), path)
  }

  /** ADMIN's list is the wildcard, so ADMIN may open every path. */
  lemma AdminAccessesEverything(path: string)
    ensures CanAccess(Admin, path)
  {
  }

  /** Matching is by whole segments: "/dashboard/partyx" is not under "/dashboard/party", "/dashboard/party/new" is. */
  lemma SegmentMatchingExample()
    ensures !SegmentPrefix("/dashboard/party", "/dashboard/partyx")
    ensures SegmentPrefix("/dashboard/party", "/dashboard/party/new")
  {
    assert "/dashboard/partyx"[..17] != "/dashboard/party/" by {
      assert "/dashboard/partyx"[16] == 'x';
    }
  }

  /** The entries below "/dashboard" that the lists name. */
  lemma PagesUnderDashboard()
    ensures && StartsWith("/dashboard/client-forms", "/dashboard/") && StartsWith("/dashboard/order-entry", "/dashboard/")
            && StartsWith("/dashboard/party", "/dashboard/") && StartsWith("/dashboard/product-master", "/dashboard/")
            && StartsWith("/dashboard/purchase", "/dashboard/") && StartsWith("/dashboard/ocr", "/dashboard/")
            && StartsWith("/dashboard/order-initiation", "/dashboard/")
  {
  }

  /** Every non-wildcard entry of every list is "/dashboard" or lies under "/dashboard/". */
  lemma EntriesUnderDashboard(r: Role, p: string)
    requires p in RoleAccess(r) && p != "*"
    ensures p == "/dashboard" || StartsWith(p, "/dashboard/")
  {
    PagesUnderDashboard();
  }

  /**
    What the table amounts to: because every list holds "/dashboard", every role
    may open "/dashboard" and everything under "/dashboard/", and a role other
    than ADMIN may open nothing else. The per-role entries below "/dashboard"
    therefore admit no path that "/dashboard" does not already admit.
   */
  lemma CanAccessCharacterization(r: Role, path: string)
    ensures CanAccess(r, path) <==> r == Admin || path == "/dashboard" || StartsWith(path, "/dashboard/")
  {
    if r != Admin {
      assert "/dashboard" in RoleAccess(r);
      if CanAccess(r, path) {
        var p :| p in RoleAccess(r) && SegmentPrefix(p, path);
        EntriesUnderDashboard(r, p);
        if p != "/dashboard" {
          if path == p {
          } else {
            StartsWithAppend(p, "/");
            StartsWithTrans(path, p + "/", p);
            StartsWithTrans(path, p, "/dashboard/");
          }
        }
      }
    }
  }

  /** The page every denial redirects to is open to every role. */
  lemma DashboardOpenToAll(r: Role)
    ensures CanAccess(r, "/dashboard")
  {
    CanAccessCharacterization(r, "/dashboard");
  }

  /** Every role may open every page under "/dashboard/". */
  lemma DashboardSubpathsOpenToAll(r: Role, path: string)
    requires StartsWith(path, "/dashboard/")
    ensures CanAccess(r, path)
  {
    CanAccessCharacterization(r, path);
  }

  /**
    The menu agrees with the table: each entry's path is listed, word for word,
    for every role the entry is shown to (or the role is ADMIN), so canAccess
    admits it.
   */
  lemma MenuConsistent(i: nat, r: Role)
    requires i < |MenuItems| && r in MenuItems[i].roles
    ensures r == Admin || MenuItems[i].path in RoleAccess(r)
    ensures CanAccess(r, MenuItems[i].path)
  {
    var path := MenuItems[i].path;
    if r != Admin {
      assert SegmentPrefix(path, path);
    }
  }
}
