/** src/components/Sidebar.js: the navigation menu of each role, and how
    its links meet the route table of src/App.js. */
module Sidebar {
  import opened Common
  import Routing
  import LoginForm

  /** One `{ name, path }` item of the menu. */
  datatype MenuItem = MenuItem(name: string, path: string)

  /** The items of one role, given as (label, page) pairs: each links to
      `/<role>/<page>`. */
  function RoleMenu(role: string, entries: seq<(string, string)>): (items: seq<MenuItem>)
    ensures |items| == |entries|
    ensures forall i :: 0 <= i < |entries| ==>
      items[i] == MenuItem(entries[i].0, "/" + role + "/" + entries[i].1)
  {
    seq(|entries|, i requires 0 <= i < |entries| => MenuItem(entries[i].0, "/" + role + "/" + entries[i].1))
  }

  const AdminMenu: seq<(string, string)> := [
    ("Dashboard Overview", "dashboard"),
    ("Event Management", "events"),
    ("Opportunity Management", "opportunities"),
    ("User Management", "users"),
    ("Notifications", "notifications")]

  const StudentMenu: seq<(string, string)> := [
    ("My Dashboard", "dashboard"),
    ("Browse Events", "events"),
    ("Browse Opportunity", "opportunities"),
    ("Calendar View", "calendar"),
    ("Event History", "history"),
    ("Profile Settings", "profile"),
    ("Notifications", "notifications")]

  const HeadMenu: seq<(string, string)> := [
    ("Department Dashboard", "dashboard"),
    ("Event Management", "events"),
    ("Opportunity Management", "opportunities"),
    ("Notifications", "notifications"),
    ("Calendar View", "calendar")]

  const EmployeeMenu: seq<(string, string)> := [
    ("My Dashboard", "dashboard"),
    ("Event Management", "events"),
    ("Calendar View", "calendar"),
    ("Profile Settings", "profile"),
    ("Notifications", "notifications")]

  /** `getMenuItems(role)` (Sidebar.js:7-46): an empty menu for any role
      but the four, and every link of a role's menu under `/<role>/`. */
  function MenuItems(role: string): (items: seq<MenuItem>)
    ensures role !in Roles ==> items == []
    ensures role == Admin || role == Head || role == Employee ==> |items| == 5
    ensures role == Student ==> |items| == 7
    ensures forall i :: 0 <= i < |items| ==> Routing.StartsWith(items[i].path, "/" + role + "/")
  {
    var items :=
      if role == Admin then RoleMenu(Admin, AdminMenu)
      else if role == Student then RoleMenu(Student, StudentMenu)
      else if role == Head then RoleMenu(Head, HeadMenu)
      else if role == Employee then RoleMenu(Employee, EmployeeMenu)
      else [];
    assert forall i :: 0 <= i < |items| ==> items[i].path[..|"/" + role + "/"|] == "/" + role + "/";
    items
  }

  /** The pages of the route table behind one role's prefix. */
  function PagesOf(role: string): seq<(string, string)> {
    if role == Admin then Routing.AdminPages
    else if role == Student then Routing.StudentPages
    else if role == Head then Routing.HeadPages
    else Routing.EmployeePages
  }

  function MenuOf(role: string): seq<(string, string)> {
    if role == Admin then AdminMenu
    else if role == Student then StudentMenu
    else if role == Head then HeadMenu
    else EmployeeMenu
  }

  /** The only link without a route. */
  const AdminNotificationsPath: string := "/admin/notifications"

  /** Every menu link but the admin's notifications is a route of the
      same position in that role's part of the table. */
  lemma MenuMatchesRoutes(role: string, i: nat)
    requires role in Roles && i < |MenuItems(role)|
    requires !(role == Admin && i == 4)
    ensures i < |PagesOf(role)| && MenuOf(role)[i].1 == PagesOf(role)[i].0
  {
  }

  /** The route-table entries of one role are its scoped pages. */
  lemma ScopedInTable(role: string, k: nat)
    requires role in Roles && k < |PagesOf(role)|
    ensures Routing.Scoped(role, PagesOf(role))[k] in Routing.RouteTable
  {
    var e := Routing.Scoped(role, PagesOf(role))[k];
    if role == Admin {
      assert e in Routing.AdminRoutes;
    } else if role == Student {
      assert e in Routing.StudentRoutes;
    } else if role == Head {
      assert e in Routing.HeadRoutes;
    } else {
      assert e in Routing.EmployeeRoutes;
    }
  }

  /** The fifth admin link, and no other, is `/admin/notifications`. */
  lemma AdminLinkAt(i: nat)
    requires i < |AdminMenu|
    ensures MenuItems(Admin)[i].path == AdminNotificationsPath <==> i == 4
  {
    var prefix := "/" + Admin + "/";
    var p := MenuItems(Admin)[i].path;
    assert p == prefix + AdminMenu[i].1;
    assert p[|prefix|..] == AdminMenu[i].1;
    assert AdminNotificationsPath == prefix + "notifications";
    assert AdminNotificationsPath[|prefix|..] == "notifications";
  }

  /** A signed-in user who follows a link of their own menu sees the page
      of that route, except for the admin's notifications link. */
  lemma MenuLinksOpen(u: User, i: nat)
    requires u.role in Roles && i < |MenuItems(u.role)|
    requires MenuItems(u.role)[i].path != AdminNotificationsPath
    ensures var p := MenuItems(u.role)[i].path;
      Routing.FindRoute(Routing.RouteTable, p).Some?
      && Routing.AppContent(true, Some(u), p) == Routing.Page(Routing.FindRoute(Routing.RouteTable, p).value.page)
  {
    var role := u.role;
    var p := MenuItems(role)[i].path;
    assert MenuItems(role) == RoleMenu(role, MenuOf(role));
    if role == Admin {
      AdminLinkAt(i);
    }
    MenuMatchesRoutes(role, i);
    ScopedInTable(role, i);
    assert Routing.Scoped(role, PagesOf(role))[i].path == p;
    Routing.RouteTableCanonical();
    Routing.CanonicalKey(p);
    Routing.RolePageAccess(u, role, p);
  }

  /** No route matches `/admin/notifications`: the admin's notifications
      link falls to the `*` route, which redirects to `/login`. */
  lemma AdminNotificationsToLogin(u: User)
    requires u.role == Admin
    ensures AdminNotificationsPath in set item | item in MenuItems(u.role) :: item.path
    ensures Routing.FindRoute(Routing.RouteTable, AdminNotificationsPath).None?
    ensures Routing.AppContent(true, Some(u), AdminNotificationsPath) == Routing.Navigate(Routing.LoginPath)
  {
    AdminLinkAt(4);
    var p := AdminNotificationsPath;
    AdminNotificationsKey();
    AdminPagesAvoid();
    OtherRoleAvoids(Student, Routing.StudentPages, p);
    OtherRoleAvoids(Head, Routing.HeadPages, p);
    OtherRoleAvoids(Employee, Routing.EmployeePages, p);
    Routing.RouteTableMembers();
    assert Routing.UnauthorizedRoute.path[1] != p[1] && Routing.ChangePasswordRoute.path[1] != p[1];
  }

  /** The router reads `/admin/notifications` as itself, not as `/login`. */
  lemma AdminNotificationsKey()
    ensures Routing.RouterKey(AdminNotificationsPath) == AdminNotificationsPath
    ensures AdminNotificationsPath != Routing.LoginPath
  {
    var p := AdminNotificationsPath;
    assert Routing.Canonical(p);
    Routing.CanonicalKey(p);
    assert p[1] != Routing.LoginPath[1];
  }

  /** Where the admin's notifications link ends: the `*` route redirects
      to `/login`, whose redirect effect sends the signed-in admin on to
      `/admin/dashboard`, and that route shows the dashboard overview. */
  lemma AdminNotificationsEndsOnDashboard(u: User)
    requires u.role == Admin
    ensures Routing.AppContent(true, Some(u), AdminNotificationsPath) == Routing.Navigate(Routing.LoginPath)
    ensures Routing.AppContent(true, Some(u), Routing.LoginPath) == Routing.LoginPage
    ensures LoginForm.RedirectFor(Some(u)) == Some("/admin/dashboard")
    ensures Routing.AppContent(true, Some(u), "/admin/dashboard") == Routing.Page("DashboardOverview")
  {
    AdminNotificationsToLogin(u);
    LoginForm.LoginPageShown(Some(u));
    AdminDashboardShown(u);
  }

  /** `/admin/dashboard` is the third route of the table, the first with
      that path, and the admin may open it. */
  lemma AdminDashboardShown(u: User)
    requires u.role == Admin
    ensures Routing.AppContent(true, Some(u), "/admin/dashboard") == Routing.Page("DashboardOverview")
  {
    var p := "/admin/dashboard";
    var table := Routing.RouteTable;
    assert table[2] == Routing.AdminRoutes[0];
    assert table[0].path != p && table[1].path != p && table[2].path == p;
    assert Routing.FindRoute(table, p) == Routing.FindRoute(table[1..], p);
    assert table[1..][1..] == table[2..];
    assert Routing.FindRoute(table[1..], p) == Routing.FindRoute(table[2..], p);
    assert Routing.FindRoute(table, p) == Some(Routing.AdminRoutes[0]);
    Routing.RouteTableCanonical();
    Routing.CanonicalKey(p);
    Routing.RolePageAccess(u, Admin, p);
  }

  /** No admin route is `/admin/notifications`: no admin page name starts
      with 'n'. */
  lemma AdminPagesAvoid()
    ensures forall e :: e in Routing.AdminRoutes ==> e.path != AdminNotificationsPath
  {
    var prefix := "/" + Admin + "/";
    var p := AdminNotificationsPath;
    assert p == prefix + "notifications";
    forall k | 0 <= k < |Routing.AdminPages|
      ensures prefix + Routing.AdminPages[k].0 != p
    {
      var q := prefix + Routing.AdminPages[k].0;
      assert Routing.AdminPages[k].0[0] != 'n';
      assert q[|prefix|] == Routing.AdminPages[k].0[0];
    }
    Routing.ScopedAvoids(Admin, Routing.AdminPages, p);
  }

  /** A path whose second character is not a role's initial is on none of
      that role's routes. */
  lemma OtherRoleAvoids(role: string, pages: seq<(string, string)>, p: string)
    requires |role| > 0 && |p| > 1 && p[1] != role[0]
    ensures forall e :: e in Routing.Scoped(role, pages) ==> e.path != p
  {
    forall k | 0 <= k < |pages| ensures "/" + role + "/" + pages[k].0 != p {
      assert ("/" + role + "/" + pages[k].0)[1] == role[0];
    }
    Routing.ScopedAvoids(role, pages, p);
  }

  /** Within each menu, no two items share a label or a link. */
  lemma MenuItemsDistinct(role: string)
    ensures forall i, j :: 0 <= i < j < |MenuItems(role)| ==>
      MenuItems(role)[i].name != MenuItems(role)[j].name && MenuItems(role)[i].path != MenuItems(role)[j].path
  {
    if role in Roles {
      assert MenuItems(role) == RoleMenu(role, MenuOf(role));
      EntriesDistinct(role);
      RoleMenuDistinct(role, MenuOf(role));
    }
  }

  /** The (label, page) pairs of each menu differ in both parts. */
  lemma EntriesDistinct(role: string)
    ensures forall i, j :: 0 <= i < j < |MenuOf(role)| ==>
      MenuOf(role)[i].0 != MenuOf(role)[j].0 && MenuOf(role)[i].1 != MenuOf(role)[j].1
  {
  }

  /** Distinct labels and pages give distinct items and links. */
  lemma RoleMenuDistinct(role: string, entries: seq<(string, string)>)
    requires forall i, j :: 0 <= i < j < |entries| ==> entries[i].0 != entries[j].0 && entries[i].1 != entries[j].1
    ensures forall i, j :: 0 <= i < j < |entries| ==>
      RoleMenu(role, entries)[i].name != RoleMenu(role, entries)[j].name
      && RoleMenu(role, entries)[i].path != RoleMenu(role, entries)[j].path
  {
    var items := RoleMenu(role, entries);
    var prefix := "/" + role + "/";
    forall i, j | 0 <= i < j < |entries| ensures items[i].path != items[j].path {
      assert items[i].path[|prefix|..] == entries[i].1;
      assert items[j].path[|prefix|..] == entries[j].1;
    }
  }
}
