/**
 * The page layout: the navigation entries filtered by the user's role,
 * and the sidebar and notification toggles.
 */
module Layout {
  import opened Types
  import opened Seqs

  datatype NavItem = NavItem(name: string, href: string, roles: seq<string>)

  /** The five entries in declaration order, each with the roles that may see it. */
  const NavItems: seq<NavItem> := [
    NavItem("Dashboard", "/dashboard", ["user", "manager", "admin"]),
    NavItem("My Requisitions", "/requisitions", ["user", "manager", "admin"]),
    NavItem("New Requisition", "/requisitions/new", ["user", "manager", "admin"]),
    NavItem("Approvals", "/approvals", ["manager", "admin"]),
    NavItem("Admin Dashboard", "/admin", ["admin"])
  ]

  /** `user?.role || ''`. */
  function RoleKey(user: Option<User>): (k: string)
    ensures user.None? ==> k == ""
    ensures user.Some? ==> ParseRole(k) == Some(user.value.role)
  {
    if user.Some? then RoleNameRoundTrip(user.value.role); RoleName(user.value.role) else ""
  }

  /** The test `item.roles.includes(key)`. */
  function AllowedFor(key: string): NavItem -> bool
  {
    (item: NavItem) => key in item.roles
  }

  /** `filteredNavItems`: the entries whose role list holds the user's role, in declaration order. */
  function FilteredNavItems(user: Option<User>): (r: seq<NavItem>)
    ensures forall item :: item in r <==> item in NavItems && RoleKey(user) in item.roles
    ensures IsSubsequence(r, NavItems)
  {
    FilterIsSubsequence(NavItems, AllowedFor(RoleKey(user)));
    Filter(NavItems, AllowedFor(RoleKey(user)))
  }

  /** What one entry contributes to the filter. */
  function Keep(item: NavItem, p: NavItem -> bool): seq<NavItem>
  {
    if p(item) then [item] else []
  }

  /** One step of the filter. */
  lemma FilterStep(xs: seq<NavItem>, p: NavItem -> bool)
    requires xs != []
    ensures Filter(xs, p) == Keep(xs[0], p) + Filter(xs[1..], p)
  {
  }

  /** The filter over five entries, one entry at a time. */
  lemma {:induction false} FilterFive(xs: seq<NavItem>, p: NavItem -> bool)
    requires |xs| == 5
    ensures Filter(xs, p) == Keep(xs[0], p) + (Keep(xs[1], p) + (Keep(xs[2], p) + (Keep(xs[3], p) + Keep(xs[4], p))))
  {
    var s1, s2, s3, s4 := xs[1..], xs[2..], xs[3..], xs[4..];
    assert s1[1..] == s2 && s2[1..] == s3 && s3[1..] == s4 && s4[1..] == [];
    FilterStep(xs, p);
    FilterStep(s1, p);
    FilterStep(s2, p);
    FilterStep(s3, p);
    FilterStep(s4, p);
    assert Filter(s4[1..], p) == [];
    assert Keep(xs[4], p) + [] == Keep(xs[4], p);
  }

  /** When the test holds for the first `n` of five entries and fails for the rest, the filter keeps those `n`. */
  lemma {:induction false} FilterFivePrefix(xs: seq<NavItem>, p: NavItem -> bool, n: nat)
    requires |xs| == 5 && n <= 5
    requires forall i :: 0 <= i < n ==> p(xs[i])
    requires forall i :: n <= i < 5 ==> !p(xs[i])
    ensures Filter(xs, p) == xs[..n]
  {
    FilterFive(xs, p);
    var k := seq(5, i requires 0 <= i < 5 => Keep(xs[i], p));
    assert k[0] + (k[1] + (k[2] + (k[3] + k[4]))) == xs[..n];
  }

  /** Without a user the key is empty and no entry is visible. */
  lemma NavForNoRole()
    ensures Filter(NavItems, AllowedFor("")) == []
  {
    var p := AllowedFor("");
    assert forall i :: 0 <= i < 5 ==> !p(NavItems[i]);
    FilterFivePrefix(NavItems, p, 0);
  }

  /** A `user` sees the first three entries. */
  lemma NavForUser()
    ensures Filter(NavItems, AllowedFor("user")) == NavItems[..3]
  {
    var p := AllowedFor("user");
    assert p(NavItems[0]) && p(NavItems[1]) && p(NavItems[2]);
    assert !p(NavItems[3]) && !p(NavItems[4]);
    FilterFivePrefix(NavItems, p, 3);
  }

  /** A `manager` also sees Approvals. */
  lemma NavForManager()
    ensures Filter(NavItems, AllowedFor("manager")) == NavItems[..4]
  {
    var p := AllowedFor("manager");
    assert p(NavItems[0]) && p(NavItems[1]) && p(NavItems[2]) && p(NavItems[3]);
    assert !p(NavItems[4]);
    FilterFivePrefix(NavItems, p, 4);
  }

  /** An `admin` sees all five. */
  lemma NavForAdmin()
    ensures Filter(NavItems, AllowedFor("admin")) == NavItems
  {
    var p := AllowedFor("admin");
    forall i | 0 <= i < 5
      ensures p(NavItems[i])
    {
      assert "admin" in NavItems[i].roles;
    }
    FilterFivePrefix(NavItems, p, 5);
    assert NavItems[..5] == NavItems;
  }

  /**
   * What each role sees: the first three entries for a user, Approvals
   * added for a manager, Admin Dashboard too for an admin, none without
   * a user.
   */
  lemma {:induction false} NavigationPerRole(user: Option<User>)
    ensures user.None? ==> FilteredNavItems(user) == []
    ensures user.Some? && user.value.role == UserRole ==> FilteredNavItems(user) == NavItems[..3]
    ensures user.Some? && user.value.role == ManagerRole ==> FilteredNavItems(user) == NavItems[..4]
    ensures user.Some? && user.value.role == AdminRole ==> FilteredNavItems(user) == NavItems
  {
    if user.None? {
      NavForNoRole();
    } else {
      match user.value.role
      case UserRole => NavForUser();
      case ManagerRole => NavForManager();
      case AdminRole => NavForAdmin();
    }
  }

  /** The entries' names, for reading the lemma above. */
  lemma NavNames()
    ensures |NavItems| == 5
    ensures NavItems[0].name == "Dashboard" && NavItems[1].name == "My Requisitions"
    ensures NavItems[2].name == "New Requisition" && NavItems[3].name == "Approvals"
    ensures NavItems[4].name == "Admin Dashboard"
  {
  }

  class Layout {
    var sidebarOpen: bool
    var notificationsOpen: bool

    /** Both closed at first. */
    constructor ()
      ensures !sidebarOpen && !notificationsOpen
    {
      sidebarOpen := false;
      notificationsOpen := false;
    }

    /** `toggleSidebar`. */
    method ToggleSidebar()
      modifies this
      ensures sidebarOpen == !old(sidebarOpen) && notificationsOpen == old(notificationsOpen)
    {
      sidebarOpen := !sidebarOpen;
    }

    /** `toggleNotifications`. */
    method ToggleNotifications()
      modifies this
      ensures notificationsOpen == !old(notificationsOpen) && sidebarOpen == old(sidebarOpen)
    {
      notificationsOpen := !notificationsOpen;
    }

    /** The menu's own close button. */
    method CloseNotifications()
      modifies this
      ensures !notificationsOpen && sidebarOpen == old(sidebarOpen)
    {
      notificationsOpen := false;
    }

    /** Toggling twice restores both flags. */
    method ToggleSidebarTwice()
      modifies this
      ensures sidebarOpen == old(sidebarOpen) && notificationsOpen == old(notificationsOpen)
    {
      ToggleSidebar();
      ToggleSidebar();
    }
  }
}
