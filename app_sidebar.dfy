/** The sidebar: the navigation entries and sub-entries each role may see,
    and the single open submenu. */
module AppSidebar {
  import opened Common
  import LocalStorage

  /** The three roles a session can hold. */
  datatype Role = Management | Supplier | NormalEmployee

  /** The session's role string read as a role; any other string is none. */
  function RoleOf(s: string): (r: Option<Role>)
    ensures r == Some(Management) <==> s == "management"
    ensures r == Some(Supplier) <==> s == "supplier"
    ensures r == Some(NormalEmployee) <==> s == "normalEmployee"
  {
    if s == "management" then Some(Management)
    else if s == "supplier" then Some(Supplier)
    else if s == "normalEmployee" then Some(NormalEmployee)
    else None
  }

  /** `allowedRoles` absent means "everyone". */
  datatype SubItem = SubItem(name: string, path: string, allowedRoles: Option<seq<Role>>)

  datatype NavItem = NavItem(name: string, path: Option<string>, subItems: Option<seq<SubItem>>,
                             allowedRoles: Option<seq<Role>>)

  const AllRoles: seq<Role> := [Management, Supplier, NormalEmployee]

  const Dashboard: NavItem := NavItem("Dashboard", Some("/dashboard"), None, Some(AllRoles))
  const TodaySpecial: NavItem := NavItem("Today Special", Some("/today-special"), None, Some(AllRoles))
  const FoodItems: NavItem := NavItem("Food Items", Some("/food-items"), None, Some(AllRoles))
  const MyOrders: NavItem := NavItem("My Orders", Some("/orders"), None, Some(AllRoles))
  const UserSubItems: seq<SubItem> := [
    SubItem("Employees", "/users/employees", None),
    SubItem("Suppliers", "/users/suppliers", None),
    SubItem("Managers", "/users/managers", None)]
  const Users: NavItem := NavItem("Users", None, Some(UserSubItems), Some([Management]))
  const ComplaintForm: SubItem := SubItem("Complaint Form", "/complaints", Some([Management, NormalEmployee]))
  const ComplaintView: SubItem := SubItem("Complaint View", "/complaints/view", Some([Management, Supplier]))
  const Complaints: NavItem := NavItem("Complaints", None, Some([ComplaintForm, ComplaintView]),
                                       Some([Management, NormalEmployee, Supplier]))
  const Departments: NavItem := NavItem("Departments", Some("/departments"), None, Some([Management]))

  const NavItems: seq<NavItem> := [Dashboard, TodaySpecial, FoodItems, MyOrders, Users, Complaints, Departments]

  /** `!allowedRoles || allowedRoles.includes(role)`; a session role outside
      the three (or none) is included in no list. */
  predicate Allowed(allowedRoles: Option<seq<Role>>, role: Option<Role>) {
    allowedRoles.None? || (role.Some? && role.value in allowedRoles.value)
  }

  predicate SubAllowed(role: Option<Role>, s: SubItem) {
    Allowed(s.allowedRoles, role)
  }

  /** An entry as a role sees it: its sub-entries narrowed to the role's. */
  function Restrict(item: NavItem, role: Option<Role>): (r: NavItem)
    ensures r.name == item.name && r.path == item.path && r.allowedRoles == item.allowedRoles
    ensures r.subItems.Some? <==> item.subItems.Some?
    ensures r.subItems.Some? ==> forall k :: 0 <= k < |r.subItems.value| ==>
      r.subItems.value[k] in item.subItems.value && SubAllowed(role, r.subItems.value[k])
    ensures item.subItems.Some? ==> forall k :: 0 <= k < |item.subItems.value| && SubAllowed(role, item.subItems.value[k]) ==>
      item.subItems.value[k] in r.subItems.value
  {
    match item.subItems
    case None => item
    case Some(subs) => item.(subItems := Some(FilterSubs(subs, role)))
  }

  /** `subItems.filter(...)`: the sub-entries the role may see, in order. */
  function FilterSubs(subs: seq<SubItem>, role: Option<Role>): (r: seq<SubItem>)
    ensures |r| <= |subs|
    ensures forall k :: 0 <= k < |r| ==> r[k] in subs && SubAllowed(role, r[k])
    ensures forall k :: 0 <= k < |subs| && SubAllowed(role, subs[k]) ==> subs[k] in r
  {
    if subs == [] then []
    else (if SubAllowed(role, subs[0]) then [subs[0]] else []) + FilterSubs(subs[1..], role)
  }

  /** The menu for `role`: the allowed entries, in order, each restricted. */
  function FilterNav(items: seq<NavItem>, role: Option<Role>): (r: seq<NavItem>)
    ensures |r| <= |items|
    ensures forall k :: 0 <= k < |r| ==> Allowed(r[k].allowedRoles, role)
  {
    if items == [] then []
    else
      var rest := FilterNav(items[1..], role);
      if Allowed(items[0].allowedRoles, role) then [Restrict(items[0], role)] + rest else rest
  }

  /** Every entry the role may see appears in its menu, restricted. */
  lemma {:induction false} FilterNavKeeps(items: seq<NavItem>, role: Option<Role>, j: nat)
    requires j < |items|
    ensures Allowed(items[j].allowedRoles, role) ==> Restrict(items[j], role) in FilterNav(items, role)
  {
    if j > 0 {
      FilterNavKeeps(items[1..], role, j - 1);
    }
  }

  /** Every menu entry is an entry the role may see, restricted. */
  lemma {:induction false} FilterNavFrom(items: seq<NavItem>, role: Option<Role>, k: nat)
    requires k < |FilterNav(items, role)|
    ensures exists j :: (0 <= j < |items| && FilterNav(items, role)[k] == Restrict(items[j], role)
      && Allowed(items[j].allowedRoles, role))
  {
    var rest := FilterNav(items[1..], role);
    if Allowed(items[0].allowedRoles, role) && k == 0 {
      assert FilterNav(items, role)[0] == Restrict(items[0], role);
    } else {
      var k' := if Allowed(items[0].allowedRoles, role) then k - 1 else k;
      assert FilterNav(items, role)[k] == rest[k'];
      FilterNavFrom(items[1..], role, k');
      var j :| 0 <= j < |items[1..]| && rest[k'] == Restrict(items[1..][j], role) && Allowed(items[1..][j].allowedRoles, role);
      assert items[1..][j] == items[j + 1];
    }
  }

  /** The menu entry `item` contributes for `role`. */
  function One(item: NavItem, role: Option<Role>): seq<NavItem> {
    if Allowed(item.allowedRoles, role) then [Restrict(item, role)] else []
  }

  lemma FilterNavCons(x: NavItem, xs: seq<NavItem>, role: Option<Role>)
    ensures FilterNav([x] + xs, role) == One(x, role) + FilterNav(xs, role)
  {
    assert ([x] + xs)[1..] == xs;
  }

  /** The menu is the entries' contributions, entry by entry. */
  lemma Unroll(role: Option<Role>)
    ensures FilterNav(NavItems, role) == One(Dashboard, role) + (One(TodaySpecial, role) + (One(FoodItems, role)
      + (One(MyOrders, role) + (One(Users, role) + (One(Complaints, role) + (One(Departments, role) + []))))))
  {
    var s6 := [Departments];
    var s5 := [Complaints] + s6;
    var s4 := [Users] + s5;
    var s3 := [MyOrders] + s4;
    var s2 := [FoodItems] + s3;
    var s1 := [TodaySpecial] + s2;
    var s0 := [Dashboard] + s1;
    assert NavItems == s0;
    FilterNavCons(Departments, [], role);
    FilterNavCons(Complaints, s6, role);
    FilterNavCons(Users, s5, role);
    FilterNavCons(MyOrders, s4, role);
    FilterNavCons(FoodItems, s3, role);
    FilterNavCons(TodaySpecial, s2, role);
    FilterNavCons(Dashboard, s1, role);
  }

  function Kept(s: SubItem, role: Option<Role>): seq<SubItem> {
    if SubAllowed(role, s) then [s] else []
  }

  /** "Complaints" keeps, of its two sub-entries, those the role may see. */
  lemma RestrictComplaints(role: Option<Role>)
    ensures Restrict(Complaints, role) == Complaints.(subItems := Some(Kept(ComplaintForm, role) + Kept(ComplaintView, role)))
  {
    var c := [ComplaintForm, ComplaintView];
    assert c[1..] == [ComplaintView];
    assert c[1..][1..] == [];
    assert Complaints.subItems == Some(c);
    assert FilterSubs(c[1..][1..], role) == [];
    assert FilterSubs(c[1..], role) == Kept(ComplaintView, role) + FilterSubs(c[1..][1..], role);
    assert FilterSubs(c, role) == Kept(ComplaintForm, role) + FilterSubs(c[1..], role);
    assert Kept(ComplaintView, role) + [] == Kept(ComplaintView, role);
  }

  /** The "Users" sub-entries name no roles, so whoever sees the entry sees all three. */
  lemma RestrictUsers(role: Option<Role>)
    ensures Restrict(Users, role) == Users
  {
    var u := UserSubItems;
    assert u[1..][1..][1..] == [];
    assert Users.subItems == Some(u);
    assert FilterSubs(u[1..][1..][1..], role) == [];
    assert FilterSubs(u[1..][1..], role) == [u[2]] + FilterSubs(u[1..][1..][1..], role);
    assert FilterSubs(u[1..], role) == [u[1]] + FilterSubs(u[1..][1..], role);
    assert FilterSubs(u, role) == [u[0]] + FilterSubs(u[1..], role);
    assert [u[0]] + ([u[1]] + ([u[2]] + [])) == u;
  }

  /** Management sees every entry, and both halves of "Complaints". */
  lemma ManagementKeepsEach()
    ensures One(Dashboard, Some(Management)) == [Dashboard] && One(TodaySpecial, Some(Management)) == [TodaySpecial]
    ensures One(FoodItems, Some(Management)) == [FoodItems] && One(MyOrders, Some(Management)) == [MyOrders]
    ensures One(Users, Some(Management)) == [Users] && One(Complaints, Some(Management)) == [Complaints]
    ensures One(Departments, Some(Management)) == [Departments]
  {
    var r := Some(Management);
    RestrictUsers(r);
    RestrictComplaints(r);
    assert Kept(ComplaintForm, r) == [ComplaintForm] && Kept(ComplaintView, r) == [ComplaintView];
    assert [ComplaintForm] + [ComplaintView] == [ComplaintForm, ComplaintView];
  }

  lemma ManagementMenu()
    ensures FilterNav(NavItems, Some(Management)) == NavItems
  {
    Unroll(Some(Management));
    ManagementKeepsEach();
    assert [Dashboard] + ([TodaySpecial] + ([FoodItems] + ([MyOrders] + ([Users] + ([Complaints] + ([Departments] + []))))))
      == NavItems;
  }

  /** A supplier loses "Users" and "Departments", and of "Complaints" keeps
      only the complaint view. */
  lemma SupplierMenu()
    ensures FilterNav(NavItems, Some(Supplier))
      == [Dashboard, TodaySpecial, FoodItems, MyOrders, Complaints.(subItems := Some([ComplaintView]))]
  {
    var r := Some(Supplier);
    Unroll(r);
    RestrictComplaints(r);
    assert Kept(ComplaintForm, r) == [] && Kept(ComplaintView, r) == [ComplaintView];
    assert Kept(ComplaintForm, r) + Kept(ComplaintView, r) == [ComplaintView];
    var c := Complaints.(subItems := Some([ComplaintView]));
    assert One(Dashboard, r) == [Dashboard] && One(TodaySpecial, r) == [TodaySpecial];
    assert One(FoodItems, r) == [FoodItems] && One(MyOrders, r) == [MyOrders];
    assert One(Users, r) == [] && One(Complaints, r) == [c] && One(Departments, r) == [];
    assert [Dashboard] + ([TodaySpecial] + ([FoodItems] + ([MyOrders] + ([] + ([c] + ([] + []))))))
      == [Dashboard, TodaySpecial, FoodItems, MyOrders, c];
  }

  /** An employee loses "Users" and "Departments", and of "Complaints" keeps
      only the complaint form. */
  lemma EmployeeMenu()
    ensures FilterNav(NavItems, Some(NormalEmployee))
      == [Dashboard, TodaySpecial, FoodItems, MyOrders, Complaints.(subItems := Some([ComplaintForm]))]
  {
    var r := Some(NormalEmployee);
    Unroll(r);
    RestrictComplaints(r);
    assert Kept(ComplaintForm, r) == [ComplaintForm] && Kept(ComplaintView, r) == [];
    assert Kept(ComplaintForm, r) + Kept(ComplaintView, r) == [ComplaintForm];
    var c := Complaints.(subItems := Some([ComplaintForm]));
    assert One(Dashboard, r) == [Dashboard] && One(TodaySpecial, r) == [TodaySpecial];
    assert One(FoodItems, r) == [FoodItems] && One(MyOrders, r) == [MyOrders];
    assert One(Users, r) == [] && One(Complaints, r) == [c] && One(Departments, r) == [];
    assert [Dashboard] + ([TodaySpecial] + ([FoodItems] + ([MyOrders] + ([] + ([c] + ([] + []))))))
      == [Dashboard, TodaySpecial, FoodItems, MyOrders, c];
  }

  /** A session without a role (or with any other role) gets an empty menu:
      every entry names its roles. */
  lemma UnknownRoleSeesNothing(role: Option<Role>)
    requires role.None?
    ensures FilterNav(NavItems, role) == []
  {
    Unroll(role);
  }

  /** `handleSubmenuToggle`: the open submenu closes on a second click,
      another one replaces it. */
  function Toggle(open: Option<nat>, index: nat): (r: Option<nat>)
    ensures open == Some(index) ==> r.None?
    ensures open != Some(index) ==> r == Some(index)
  {
    if open.Some? && open.value == index then None else Some(index)
  }

  /** Clicking the same entry twice restores a closed menu, and closes a menu
      that was open elsewhere. */
  lemma ToggleTwice(open: Option<nat>, index: nat)
    ensures Toggle(Toggle(open, index), index) == (if open == Some(index) then open else None)
  {
  }

  /** The links of some sub-entries, in order. */
  function SubPaths(subs: seq<SubItem>): (r: seq<string>)
    ensures |r| == |subs|
    ensures forall i :: 0 <= i < |subs| ==> r[i] == subs[i].path
  {
    if subs == [] then [] else [subs[0].path] + SubPaths(subs[1..])
  }

  /** The links of one entry: its own path, then its sub-entries'. */
  function OwnPaths(item: NavItem): seq<string> {
    (if item.path.Some? then [item.path.value] else [])
    + (if item.subItems.Some? then SubPaths(item.subItems.value) else [])
  }

  /** Every link of the entries and their sub-entries, in menu order. */
  function EntryPaths(items: seq<NavItem>): seq<string> {
    if items == [] then [] else OwnPaths(items[0]) + EntryPaths(items[1..])
  }

  const MenuLinks: seq<string> := ["/dashboard", "/today-special", "/food-items", "/orders",
    "/users/employees", "/users/suppliers", "/users/managers", "/complaints", "/complaints/view",
    "/departments"]

  lemma EntryPathsCons(item: NavItem, rest: seq<NavItem>)
    ensures EntryPaths([item] + rest) == OwnPaths(item) + EntryPaths(rest)
  {
    assert ([item] + rest)[1..] == rest;
  }

  lemma TailPaths()
    ensures EntryPaths([Complaints, Departments]) == ["/complaints", "/complaints/view", "/departments"]
  {
    assert [Departments][1..] == [];
    assert EntryPaths([]) == [];
    assert OwnPaths(Departments) == ["/departments"];
    EntryPathsCons(Complaints, [Departments]);
    assert OwnPaths(Complaints) == ["/complaints", "/complaints/view"];
  }

  lemma UsersPaths()
    ensures EntryPaths([Users, Complaints, Departments])
      == ["/users/employees", "/users/suppliers", "/users/managers", "/complaints", "/complaints/view", "/departments"]
  {
    TailPaths();
    EntryPathsCons(Users, [Complaints, Departments]);
    assert OwnPaths(Users) == ["/users/employees", "/users/suppliers", "/users/managers"];
  }

  lemma FrontPaths()
    ensures EntryPaths([FoodItems, MyOrders, Users, Complaints, Departments])
      == ["/food-items", "/orders"] + EntryPaths([Users, Complaints, Departments])
  {
    EntryPathsCons(FoodItems, [MyOrders, Users, Complaints, Departments]);
    EntryPathsCons(MyOrders, [Users, Complaints, Departments]);
  }

  /** The full menu links to these ten paths, in this order. */
  lemma NavPaths()
    ensures EntryPaths(NavItems) == MenuLinks
  {
    UsersPaths();
    FrontPaths();
    EntryPathsCons(TodaySpecial, [FoodItems, MyOrders, Users, Complaints, Departments]);
    EntryPathsCons(Dashboard, [TodaySpecial, FoodItems, MyOrders, Users, Complaints, Departments]);
  }

  /** No two links of the full menu are the same path. */
  lemma NavPathsDistinct()
    ensures forall i, j :: 0 <= i < j < |EntryPaths(NavItems)| ==> EntryPaths(NavItems)[i] != EntryPaths(NavItems)[j]
  {
    NavPaths();
    forall i, j | 0 <= i < j < |MenuLinks|
      ensures MenuLinks[i] != MenuLinks[j]
    {
      assert MenuLinks[i][1] != MenuLinks[j][1] || |MenuLinks[i]| != |MenuLinks[j]| || MenuLinks[i][7] != MenuLinks[j][7];
    }
  }

  class Sidebar {
    var userRole: string
    var filteredNavItems: seq<NavItem>
    var openSubmenu: Option<nat>
    const pathname: string

    constructor (pathname: string)
      ensures userRole == "" && filteredNavItems == [] && openSubmenu.None? && this.pathname == pathname
    {
      userRole := "";
      filteredNavItems := [];
      openSubmenu := None;
      this.pathname := pathname;
    }

    method Mount(user: LocalStorage.SessionUser)
      modifies this
      ensures userRole == user.role && filteredNavItems == FilterNav(NavItems, RoleOf(user.role))
      ensures openSubmenu == old(openSubmenu)
    {
      userRole := user.role;
      filteredNavItems := FilterNav(NavItems, RoleOf(user.role));
    }

    method HandleSubmenuToggle(index: nat)
      modifies this
      ensures openSubmenu == Toggle(old(openSubmenu), index)
      ensures userRole == old(userRole) && filteredNavItems == old(filteredNavItems)
    {
      if openSubmenu.Some? && openSubmenu.value == index {
        openSubmenu := None;
      } else {
        openSubmenu := Some(index);
      }
    }

    /** An entry is highlighted when its path is exactly the current one. */
    predicate IsActive(path: Option<string>)
      reads this
    {
      path == Some(pathname)
    }
  }

  /** Highlighting compares whole paths, so at most one link of the menu is
      highlighted at a time. */
  lemma AtMostOneHighlighted(s: Sidebar, i: int, j: int)
    requires 0 <= i < j < |EntryPaths(NavItems)|
    ensures !(s.IsActive(Some(EntryPaths(NavItems)[i])) && s.IsActive(Some(EntryPaths(NavItems)[j])))
  {
    NavPathsDistinct();
  }

  /** A prefix is not enough: on "/complaints/view" the complaint view is
      highlighted and the complaint form at "/complaints" is not; an entry
      without a path of its own is never highlighted. */
  lemma HighlightIsExact(s: Sidebar)
    requires s.pathname == "/complaints/view"
    ensures s.IsActive(Some(ComplaintView.path)) && !s.IsActive(Some(ComplaintForm.path))
    ensures !s.IsActive(Users.path) && !s.IsActive(Complaints.path)
  {
  }
}
