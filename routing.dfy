/** src/App.js: the `PrivateRoute` guard, the route table inside
    `ProtectedLayout`, the layout's own user check and the `AppContent`
    initialisation gate.  Rendering is replaced by the screen that would be
    shown. */
module Routing {
  import opened Common

  /** What `PrivateRoute` returns. */
  datatype Guard = ShowSpinner | RedirectTo(path: string) | RenderChildren

  /** What the whole application shows for one location. */
  datatype Screen =
    | Spinner                  // <LoadingSpinner />
    | LoginPage                // <LoginNew />
    | Navigate(to: string)     // <Navigate to=... />
    | UnauthorizedNotice       // <div>Unauthorized Access</div>
    | Page(name: string)       // the element a route renders

  const LoginPath: string := "/login"
  const UnauthorizedPath: string := "/unauthorized"

  /** `PrivateRoute({children, allowedRoles})` with `isInitialized` and `user`
      read from the session.  `allowedRoles` is `None` when the prop is not
      given: the role check then does not happen.  A given list, even an
      empty one, is searched with `includes`. */
  function PrivateRoute(isInitialized: bool, user: Option<User>,
                        allowedRoles: Option<seq<string>>): (g: Guard)
    ensures !isInitialized ==> g == ShowSpinner
    ensures isInitialized && user.None? ==> g == RedirectTo(LoginPath)
    ensures g == RedirectTo(UnauthorizedPath) <==>
              isInitialized && user.Some? && allowedRoles.Some?
              && user.value.role !in allowedRoles.value
    ensures g == RenderChildren <==>
              isInitialized && user.Some?
              && (allowedRoles.None? || user.value.role in allowedRoles.value)
    ensures g.RedirectTo? ==> g.path == LoginPath || g.path == UnauthorizedPath
  {
    if !isInitialized then ShowSpinner
    else if user.None? then RedirectTo(LoginPath)
    else if allowedRoles.Some? && user.value.role !in allowedRoles.value then RedirectTo(UnauthorizedPath)
    else RenderChildren
  }

  /** One `<Route>` of `ProtectedLayout`: its path, the roles its
      `PrivateRoute` allows (`None` for the unguarded route) and the page. */
  datatype RouteEntry = RouteEntry(path: string, allowed: Option<seq<string>>, page: string)

  /** The routes of one role: `/<role>/<name>`, each guarded by
      `allowedRoles={['<role>']}`. */
  function Scoped(role: string, pages: seq<(string, string)>): (r: seq<RouteEntry>)
    ensures |r| == |pages|
    ensures forall i :: 0 <= i < |pages| ==>
      r[i] == RouteEntry("/" + role + "/" + pages[i].0, Some([role]), pages[i].1)
  {
    seq(|pages|, i requires 0 <= i < |pages| => RouteEntry("/" + role + "/" + pages[i].0, Some([role]), pages[i].1))
  }

  const UnauthorizedRoute: RouteEntry := RouteEntry(UnauthorizedPath, None, "Unauthorized")
  const ChangePasswordRoute: RouteEntry :=
    RouteEntry("/change-password", Some([Admin, Student, Head, Employee]), "ChangePassword")

  const AdminPages: seq<(string, string)> := [
    ("dashboard", "DashboardOverview"),
    ("events", "AdminEventManagement"),
    ("opportunities", "AdminOpportunityManagement"),
    ("users", "UserManagement"),
    ("confirmed-students", "AdminConfirmedStudents")]
  const AdminRoutes: seq<RouteEntry> := Scoped(Admin, AdminPages)

  const StudentPages: seq<(string, string)> := [
    ("dashboard", "StudentMyDashboard"),
    ("events", "BrowseEvents"),
    ("opportunities", "BrowseOpportunity"),
    ("calendar", "StudentCalendarView"),
    ("history", "EventHistory"),
    ("profile", "StudentProfileSettings"),
    ("notifications", "StudentNotifications")]
  const StudentRoutes: seq<RouteEntry> := Scoped(Student, StudentPages)

  const HeadPages: seq<(string, string)> := [
    ("dashboard", "DepartmentDashboard"),
    ("events", "HeadEventManagement"),
    ("opportunities", "HeadOpportunityManagement"),
    ("notifications", "HeadNotifications"),
    ("calendar", "HeadCalendarView"),
    ("confirmed-students", "ConfirmedStudents")]
  const HeadRoutes: seq<RouteEntry> := Scoped(Head, HeadPages)

  const EmployeePages: seq<(string, string)> := [
    ("dashboard", "EmployeeMyDashboard"),
    ("events", "EmployeeEventManagement"),
    ("calendar", "EmployeeCalendarView"),
    ("profile", "EmployeeProfileSettings"),
    ("notifications", "EmployeeNotifications"),
    ("opportunities", "EmployeeOpportunityManagement")]
  const EmployeeRoutes: seq<RouteEntry> := Scoped(Employee, EmployeePages)

  /** The route list of `ProtectedLayout`, in order; the `*` route is what
      `FindRoute` answers with `None`. */
  const RouteTable: seq<RouteEntry> :=
    [UnauthorizedRoute, ChangePasswordRoute] + AdminRoutes + StudentRoutes + HeadRoutes + EmployeeRoutes

  /** The first entry of `routes` whose path is `key`; `None` is the `*`
      route.  The layout looks up the `RouterKey` of the location. */
  function FindRoute(routes: seq<RouteEntry>, key: string): (r: Option<RouteEntry>)
    ensures r.Some? ==> r.value in routes && r.value.path == key
    ensures r.None? ==> forall e :: e in routes ==> e.path != key
  {
    if routes == [] then None
    else if routes[0].path == key then Some(routes[0])
    else FindRoute(routes[1..], key)
  }

  predicate StartsWith(s: string, prefix: string) {
    |prefix| <= |s| && s[..|prefix|] == prefix
  }

  // ---- how the router reads a location ---------------------------------

  predicate IsUpperAscii(c: char) {
    'A' <= c <= 'Z'
  }

  function LowerAscii(c: char): (d: char)
    ensures !IsUpperAscii(d)
    ensures d == '/' <==> c == '/'
    ensures !IsUpperAscii(c) ==> d == c
  {
    if IsUpperAscii(c) then (c as int + 32) as char else c
  }

  /** A path with no ASCII capital letter. */
  predicate LowerText(s: string) {
    forall i :: 0 <= i < |s| ==> !IsUpperAscii(s[i])
  }

  /** A path the router reads as itself: no capital letter, no slash at
      the end.  Every path of the route table is one. */
  predicate Canonical(p: string) {
    LowerText(p) && (p == [] || p[|p| - 1] != '/')
  }

  /** `path` without the run of slashes at its end. */
  function StripTrailingSlashes(path: string): (q: string)
    ensures |q| <= |path| && q == path[..|q|]
    ensures q == [] || q[|q| - 1] != '/'
    ensures forall i :: |q| <= i < |path| ==> path[i] == '/'
    decreases |path|
  {
    if path != [] && path[|path| - 1] == '/' then StripTrailingSlashes(path[..|path| - 1])
    else path
  }

  /** The key React Router v6 compares a location under: a route pattern
      matches without regard to ASCII case (it is compiled case-insensitive
      unless `caseSensitive` is set) and accepts any run of slashes at the
      end of the location. */
  function RouterKey(path: string): (k: string)
    ensures |k| == |StripTrailingSlashes(path)|
    ensures forall i :: 0 <= i < |k| ==> k[i] == LowerAscii(path[i])
    ensures Canonical(k)
  {
    var q := StripTrailingSlashes(path);
    seq(|q|, i requires 0 <= i < |q| => LowerAscii(q[i]))
  }

  /** `p` is `q` up to the case of its ASCII letters, followed by slashes. */
  predicate ReadsAs(p: string, q: string) {
    |q| <= |p|
    && (forall i :: 0 <= i < |q| ==> LowerAscii(p[i]) == q[i])
    && (forall i :: |q| <= i < |p| ==> p[i] == '/')
  }

  /** The router reads `p` as the normal form `q` exactly when `p` is `q`
      with some letters capitalised and some slashes appended. */
  lemma RouterKeyIff(p: string, q: string)
    requires Canonical(q)
    ensures RouterKey(p) == q <==> ReadsAs(p, q)
  {
    var s := StripTrailingSlashes(p);
    if ReadsAs(p, q) {
      assert |s| == 0 || p[|s| - 1] != '/';
      assert |q| == 0 || LowerAscii(p[|q| - 1]) == q[|q| - 1];
      assert |s| == |q|;
    }
  }

  /** A normal form is its own key, so the key is idempotent. */
  lemma CanonicalKey(p: string)
    requires Canonical(p)
    ensures RouterKey(p) == p
    ensures RouterKey(RouterKey(p)) == RouterKey(p)
  {
    assert StripTrailingSlashes(p) == p;
  }

  /** `ProtectedLayout` at `path`: no user means a redirect to the login
      page before any route is looked at; otherwise the route matching the
      location's key decides, and an unmatched key falls to the `*` route. */
  function ProtectedLayout(isInitialized: bool, user: Option<User>, path: string): (s: Screen)
    ensures user.None? ==> s == Navigate(LoginPath)
    ensures user.Some? ==> s == RouteScreen(isInitialized, user, FindRoute(RouteTable, RouterKey(path)))
  {
    if user.None? then Navigate(LoginPath)
    else RouteScreen(isInitialized, user, FindRoute(RouteTable, RouterKey(path)))
  }

  /** What the layout shows once the route for the location is known:
      `None` is the `*` route, the unguarded route shows its notice, and a
      guarded route passes through `PrivateRoute`. */
  function RouteScreen(isInitialized: bool, user: Option<User>, found: Option<RouteEntry>): (s: Screen)
    ensures found.None? ==> s == Navigate(LoginPath)
    ensures found.Some? && found.value.allowed.None? ==> s == UnauthorizedNotice
    ensures s.Page? ==> isInitialized && user.Some? && found.Some? && s.name == found.value.page
    ensures found.Some? && found.value.allowed.Some? ==>
      (s == Page(found.value.page) <==> PrivateRoute(isInitialized, user, found.value.allowed) == RenderChildren)
  {
    match found
    case None => Navigate(LoginPath)
    case Some(e) =>
      if e.allowed.None? then UnauthorizedNotice
      else match PrivateRoute(isInitialized, user, e.allowed)
        case ShowSpinner => Spinner
        case RedirectTo(to) => Navigate(to)
        case RenderChildren => Page(e.page)
  }

  /** `AppContent` at `path`: only the spinner until the session is
      initialised; then a location read as `/login` shows the login form
      and every other location goes to `ProtectedLayout`. */
  function AppContent(isInitialized: bool, user: Option<User>, path: string): (s: Screen)
    ensures !isInitialized ==> s == Spinner
    ensures isInitialized && RouterKey(path) == LoginPath ==> s == LoginPage
    ensures isInitialized && RouterKey(path) != LoginPath ==> s == ProtectedLayout(isInitialized, user, path)
  {
    if !isInitialized then Spinner
    else if RouterKey(path) == LoginPath then LoginPage
    else ProtectedLayout(isInitialized, user, path)
  }

  // ---- lemmas about the route table ------------------------------------

  /** The second character of `/<role>/...` is the role's initial, and the
      four roles have four different initials. */
  lemma RolePrefixesExclusive(r1: string, r2: string, rest: string)
    requires r1 in Roles && r2 in Roles
    ensures StartsWith("/" + r1 + "/" + rest, "/" + r2 + "/") ==> r1 == r2
  {
    var p := "/" + r1 + "/" + rest;
    var q := "/" + r2 + "/";
    if StartsWith(p, q) {
      assert p[1] == r1[0] && q[1] == r2[0];
      assert q == p[..|q|];
    }
  }

  /** A route of a role's part of the table under `/<r>/` is guarded by `[r]`. */
  lemma ScopedRole(role: string, pages: seq<(string, string)>, e: RouteEntry, r: string)
    requires role in Roles && r in Roles && e in Scoped(role, pages) && StartsWith(e.path, "/" + r + "/")
    ensures e.allowed == Some([r])
  {
    var i :| 0 <= i < |pages| && Scoped(role, pages)[i] == e;
    RolePrefixesExclusive(role, r, pages[i].0);
  }

  lemma ScopedNotChangePassword(role: string, pages: seq<(string, string)>)
    requires role in Roles
    ensures forall e :: e in Scoped(role, pages) ==> e.path != ChangePasswordRoute.path
  {
    forall e | e in Scoped(role, pages) ensures e.path != ChangePasswordRoute.path {
      var i :| 0 <= i < |pages| && Scoped(role, pages)[i] == e;
      assert e.path[1] == role[0];
    }
  }

  /** A path that none of a role's pages spells is on none of its routes. */
  lemma ScopedAvoids(role: string, pages: seq<(string, string)>, p: string)
    requires forall k :: 0 <= k < |pages| ==> "/" + role + "/" + pages[k].0 != p
    ensures forall e :: e in Scoped(role, pages) ==> e.path != p
  {
    forall e | e in Scoped(role, pages) ensures e.path != p {
      var k :| 0 <= k < |pages| && Scoped(role, pages)[k] == e;
    }
  }

  /** The table is the two general routes and the four roles' routes. */
  lemma RouteTableMembers()
    ensures forall e :: e in RouteTable ==>
      (e == UnauthorizedRoute || e == ChangePasswordRoute
       || e in AdminRoutes || e in StudentRoutes || e in HeadRoutes || e in EmployeeRoutes)
  {
  }

  /** Every route under `/<role>/` admits exactly that role; the
      `/change-password` route admits all four roles; the only unguarded
      route is `/unauthorized`. */
  lemma RouteTableRoles()
    ensures forall e, r :: e in RouteTable && r in Roles && StartsWith(e.path, "/" + r + "/") ==>
      e.allowed == Some([r])
    ensures forall e :: e in RouteTable && e.path == "/change-password" ==> e.allowed == Some(Roles)
    ensures forall e :: e in RouteTable && e.allowed.None? ==> e.path == UnauthorizedPath
  {
    RolePrefixGuards();
    ScopedNotChangePassword(Admin, AdminPages);
    ScopedNotChangePassword(Student, StudentPages);
    ScopedNotChangePassword(Head, HeadPages);
    ScopedNotChangePassword(Employee, EmployeePages);
    RouteTableMembers();
  }

  /** The role routes of the table are guarded by the role of their prefix. */
  lemma RolePrefixGuards()
    ensures forall e, r :: e in RouteTable && r in Roles && StartsWith(e.path, "/" + r + "/") ==>
      e.allowed == Some([r])
  {
    forall e, r | e in RouteTable && r in Roles && StartsWith(e.path, "/" + r + "/")
      ensures e.allowed == Some([r])
    {
      RoleRouteAllowed(e, r);
    }
  }

  /** One route of the table under `/<role>/` is guarded by `[role]`: the
      two general routes are under no role's prefix, and each role route is
      guarded by its own role. */
  lemma RoleRouteAllowed(e: RouteEntry, role: string)
    requires e in RouteTable && role in Roles && StartsWith(e.path, "/" + role + "/")
    ensures e.allowed == Some([role])
  {
    RouteTableMembers();
    assert ("/" + role + "/")[1] == role[0];
    assert !StartsWith(UnauthorizedPath, "/" + role + "/") && !StartsWith(ChangePasswordRoute.path, "/" + role + "/");
    if e in AdminRoutes {
      ScopedRole(Admin, AdminPages, e, role);
    } else if e in StudentRoutes {
      ScopedRole(Student, StudentPages, e, role);
    } else if e in HeadRoutes {
      ScopedRole(Head, HeadPages, e, role);
    } else {
      ScopedRole(Employee, EmployeePages, e, role);
    }
  }

  /** No route inside the layout is evaluated before initialisation: the
      whole application shows the spinner, whoever the user and wherever
      the location. */
  lemma SpinnerUntilInitialized(user: Option<User>, path: string)
    ensures AppContent(false, user, path) == Spinner
  {
  }

  /** On a location whose key is under `/<role>/` and held by the table,
      an initialised session shows the page exactly when the user's role is
      that role, and sends a user of any other role to `/unauthorized`. */
  lemma RolePageAccess(user: User, role: string, path: string)
    requires role in Roles && StartsWith(RouterKey(path), "/" + role + "/")
    requires FindRoute(RouteTable, RouterKey(path)).Some?
    ensures AppContent(true, Some(user), path) ==
      if user.role == role then Page(FindRoute(RouteTable, RouterKey(path)).value.page)
      else Navigate(UnauthorizedPath)
  {
    var key := RouterKey(path);
    var found := FindRoute(RouteTable, key);
    RolePathNotLogin(role, key);
    RoleRouteAllowed(found.value, role);
    GuardedScreen(user, role, found.value);
  }

  /** No path under a role's prefix is `/login`. */
  lemma RolePathNotLogin(role: string, key: string)
    requires role in Roles && StartsWith(key, "/" + role + "/")
    ensures key != LoginPath
  {
    assert key[1] == ("/" + role + "/")[1] == role[0];
  }

  /** A route guarded by `[role]` shows its page to that role only. */
  lemma GuardedScreen(user: User, role: string, e: RouteEntry)
    requires e.allowed == Some([role])
    ensures RouteScreen(true, Some(user), Some(e)) ==
      if user.role == role then Page(e.page) else Navigate(UnauthorizedPath)
  {
  }

  /** Every location read as `/change-password` is open to each of the four
      roles and to no other. */
  lemma ChangePasswordAccess(user: User, path: string)
    requires RouterKey(path) == ChangePasswordRoute.path
    ensures AppContent(true, Some(user), path) ==
      if user.role in Roles then Page("ChangePassword") else Navigate(UnauthorizedPath)
  {
    var p := ChangePasswordRoute.path;
    assert RouteTable[0].path != p;
    assert RouteTable[1..][0] == ChangePasswordRoute;
    assert FindRoute(RouteTable, p) == FindRoute(RouteTable[1..], p);
    assert FindRoute(RouteTable, p) == Some(ChangePasswordRoute);
  }

  /** A location whose key the table does not hold falls to the `*` route:
      a redirect to `/login`, whoever is signed in. */
  lemma UnknownPathToLogin(user: Option<User>, path: string)
    requires RouterKey(path) != LoginPath && FindRoute(RouteTable, RouterKey(path)).None?
    ensures AppContent(true, user, path) == Navigate(LoginPath)
  {
  }

  /** The two general paths of the table are normal forms. */
  lemma GeneralPathsCanonical()
    ensures Canonical(LoginPath) && Canonical(UnauthorizedPath) && Canonical(ChangePasswordRoute.path)
  {
  }

  /** Every page name of a role's part of the table is a non-empty word
      without capitals or a final slash. */
  predicate PageNamesCanonical(pages: seq<(string, string)>) {
    forall k :: 0 <= k < |pages| ==> pages[k].0 != [] && Canonical(pages[k].0)
  }

  lemma RolePagesCanonical()
    ensures PageNamesCanonical(AdminPages) && PageNamesCanonical(StudentPages)
    ensures PageNamesCanonical(HeadPages) && PageNamesCanonical(EmployeePages)
  {
    AdminPagesCanonical();
    StudentPagesCanonical();
    HeadPagesCanonical();
    EmployeePagesCanonical();
  }

  lemma AdminPagesCanonical() ensures PageNamesCanonical(AdminPages) {
    PageWordsCanonical();
  }

  lemma StudentPagesCanonical() ensures PageNamesCanonical(StudentPages) {
    PageWordsCanonical();
  }

  lemma HeadPagesCanonical() ensures PageNamesCanonical(HeadPages) {
    PageWordsCanonical();
  }

  lemma EmployeePagesCanonical() ensures PageNamesCanonical(EmployeePages) {
    PageWordsCanonical();
  }

  /** The nine page names, a few at a time. */
  lemma PageWordsCanonical()
    ensures Canonical("dashboard") && Canonical("events") && Canonical("opportunities")
    ensures Canonical("users") && Canonical("confirmed-students") && Canonical("calendar")
    ensures Canonical("history") && Canonical("profile") && Canonical("notifications")
  {
    FirstWordsCanonical();
    MiddleWordsCanonical();
    LastWordsCanonical();
  }

  lemma FirstWordsCanonical()
    ensures Canonical("dashboard") && Canonical("events") && Canonical("opportunities")
  {
  }

  lemma MiddleWordsCanonical()
    ensures Canonical("users") && Canonical("confirmed-students") && Canonical("calendar")
  {
  }

  lemma LastWordsCanonical()
    ensures Canonical("history") && Canonical("profile") && Canonical("notifications")
  {
  }

  /** `/<role>/<page>` is a normal form when the role and the page are. */
  lemma ScopedCanonical(role: string, pages: seq<(string, string)>)
    requires LowerText(role) && PageNamesCanonical(pages)
    ensures forall e :: e in Scoped(role, pages) ==> Canonical(e.path)
  {
    forall e | e in Scoped(role, pages) ensures Canonical(e.path) {
      var k :| 0 <= k < |pages| && Scoped(role, pages)[k] == e;
      var name := pages[k].0;
      assert e.path == "/" + role + "/" + name;
      forall i | 0 <= i < |e.path| ensures !IsUpperAscii(e.path[i]) {
        if i >= |role| + 2 {
          assert e.path[i] == name[i - |role| - 2];
        } else if i >= 1 {
          assert i == |role| + 1 || e.path[i] == role[i - 1];
        }
      }
      assert e.path[|e.path| - 1] == name[|name| - 1];
    }
  }

  /** Every path of the route table is a normal form, so a location
      reaches the entry whose path it reads as. */
  lemma RouteTableCanonical()
    ensures forall e :: e in RouteTable ==> Canonical(e.path)
  {
    RouteTableMembers();
    GeneralPathsCanonical();
    RolePagesCanonical();
    assert LowerText(Admin) && LowerText(Student) && LowerText(Head) && LowerText(Employee);
    ScopedCanonical(Admin, AdminPages);
    ScopedCanonical(Student, StudentPages);
    ScopedCanonical(Head, HeadPages);
    ScopedCanonical(Employee, EmployeePages);
  }

  /** A capitalised or slash-terminated spelling of a route's path reaches
      that route, and `/LOGIN/` still shows the login form. */
  lemma LocationExamples()
    ensures RouterKey("/Admin/Dashboard/") == "/admin/dashboard"
    ensures RouterKey("/student/events//") == "/student/events"
    ensures RouterKey("/LOGIN/") == LoginPath
  {
    CapitalisedExample();
    SlashesExample();
    LoginExample();
  }

  lemma CapitalisedExample() ensures RouterKey("/Admin/Dashboard/") == "/admin/dashboard" {
    assert Canonical("/admin/dashboard");
    assert ReadsAs("/Admin/Dashboard/", "/admin/dashboard");
    RouterKeyIff("/Admin/Dashboard/", "/admin/dashboard");
  }

  lemma SlashesExample() ensures RouterKey("/student/events//") == "/student/events" {
    assert Canonical("/student/events");
    assert ReadsAs("/student/events//", "/student/events");
    RouterKeyIff("/student/events//", "/student/events");
  }

  lemma LoginExample() ensures RouterKey("/LOGIN/") == LoginPath {
    assert Canonical(LoginPath);
    assert ReadsAs("/LOGIN/", LoginPath);
    RouterKeyIff("/LOGIN/", LoginPath);
  }
}
