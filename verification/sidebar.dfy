/**
 * The sidebar: the static navigation table, the role and module-permission
 * filter over it, active-path matching, and the expand/collapse state.
 *
 * The module permission check belongs to the authentication service and is a
 * parameter here.
 */
module Sidebar {
  import opened Options
  import opened Sequences
  import opened Text

  datatype NavChild = NavChild(name: string, href: string)

  /** A menu entry: either a link (`href`) or a group of `children`. */
  datatype NavItem = NavItem(name: string, href: Option<string>, roles: seq<string>, children: Option<seq<NavChild>>)

  /** A group entry without a link of its own. */
  function Group(name: string, roles: seq<string>, children: seq<NavChild>): NavItem {
    NavItem(name, None, roles, Some(children))
  }

  /** The menu, in display order. */
  const Navigation: seq<NavItem> := [
    NavItem("Tổng quan", Some("/dashboard"), ["Admin", "Manager", "Sales", "Technician", "Customer"], None),
    Group("Đơn hàng", ["Admin", "Manager", "Sales", "Technician"], [
      NavChild("Danh sách đơn hàng", "/orders"),
      NavChild("Tạo đơn hàng mới", "/orders/create"),
      NavChild("Theo dõi tiến độ", "/orders/tracking")]),
    Group("Lắp đặt", ["Admin", "Technician"], [
      NavChild("Hàng đợi lắp đặt", "/installations/queue"),
      NavChild("Theo dõi lắp đặt", "/installations/tracking"),
      NavChild("Kiểm soát chất lượng", "/installations/quality")]),
    Group("Khách hàng", ["Admin", "Manager", "Sales"], [
      NavChild("Danh sách khách hàng", "/customers")]),
    Group("Phương tiện", ["Admin"], [
      NavChild("Danh sách xe", "/vehicles")]),
    Group("Thiết kế", ["Admin", "Manager", "Designer"], [
      NavChild("Thư viện thiết kế", "/designs"),
      NavChild("Soạn thảo thiết kế", "/designs/editor"),
      NavChild("Thư viện mẫu", "/templates"),
      NavChild("Duyệt thiết kế", "/designs/approval")]),
    Group("Nhân viên", ["Admin", "Manager"], [
      NavChild("Danh sách nhân viên", "/employees"),
      NavChild("Theo dõi hiệu suất", "/performance")]),
    Group("Cửa hàng", ["Admin"], [
      NavChild("Danh sách cửa hàng", "/stores")]),
    Group("Quản lý tài khoản", ["Admin"], [
      NavChild("Danh sách tài khoản", "/accounts")]),
    Group("Hệ thống thông báo", ["Admin", "Sales", "Technician"], [
      NavChild("Danh sách thông báo", "/notifications"),
      NavChild("Tạo thông báo mới", "/notifications/create")]),
    Group("Hệ thống tin nhắn", ["Admin", "Designer"], [
      NavChild("Trung tâm thông báo", "/notifications/center"),
      NavChild("Hệ thống tin nhắn", "/notifications/messages")]),
    Group("Dịch vụ & Kho", ["Admin", "Manager", "Sales"], [
      NavChild("Quản lí dịch vụ", "/services/list"),
      NavChild("Quản lý loại decal", "/decal-types")]),
    Group("Tài chính", ["Admin", "Manager"], [
      NavChild("Xử lý thanh toán", "/payments/processing"),
      NavChild("Quản lý hóa đơn", "/payments/invoices"),
      NavChild("Báo cáo tài chính", "/payments/reports"),
      NavChild("Theo dõi đặt cọc", "/payments/deposits")]),
    Group("Bảo hành & Hỗ trợ", ["Admin", "Manager", "Sales", "Technician"], [
      NavChild("Quản lý bảo hành", "/warranty/management"),
      NavChild("Hệ thống phản hồi", "/feedback"),
      NavChild("Ticket hỗ trợ", "/support/tickets")]),
    Group("Phân tích & Báo cáo", ["Admin", "Manager"], [
      NavChild("Phân tích bán hàng", "/analytics/sales"),
      NavChild("Hiệu suất nhân viên", "/analytics/performance"),
      NavChild("Thông tin khách hàng", "/analytics/customers"),
      NavChild("Báo cáo vận hành", "/analytics/operations")])
  ]

  /** Menu names to permission modules. "Cài đặt hệ thống" is mapped but has no menu entry. */
  const ModuleMapping: map<string, string> := map[
    "Tổng quan" := "dashboard",
    "Đơn hàng" := "orders",
    "Lắp đặt" := "installations",
    "Khách hàng" := "customers",
    "Phương tiện" := "vehicles",
    "Thiết kế" := "designs",
    "Nhân viên" := "employees",
    "Cửa hàng" := "stores",
    "Quản lý tài khoản" := "accounts",
    "Hệ thống thông báo" := "notifications",
    "Hệ thống tin nhắn" := "notifications",
    "Cài đặt hệ thống" := "settings",
    "Dịch vụ & Kho" := "services",
    "Tài chính" := "payments",
    "Bảo hành & Hỗ trợ" := "warranty",
    "Phân tích & Báo cáo" := "analytics"
  ]

  /** The signed-in user's role fields, as far as the sidebar reads them. */
  datatype User = User(role: Option<string>, accountRoleName: Option<string>)

  /** `getUserRole`: `role`, else `accountRoleName`, else null; never the empty string. */
  function UserRole(user: Option<User>): (r: Option<string>)
    ensures user.None? ==> r.None?
    ensures r.Some? ==> r.value != ""
    ensures user.Some? && Truthy(user.value.role) ==> r == user.value.role
    ensures user.Some? && !Truthy(user.value.role) ==> r == (if Truthy(user.value.accountRoleName) then user.value.accountRoleName else None)
  {
    match user
    case None => None
    case Some(u) =>
      if Truthy(u.role) then u.role
      else if Truthy(u.accountRoleName) then u.accountRoleName
      else None
  }

  /** `isActive`: the path is `href` itself or lies below it. */
  function IsActive(pathname: string, href: string): (r: bool)
    ensures r <==> pathname == href || (|href| < |pathname| && pathname[..|href|] == href && pathname[|href|] == '/')
  {
    assert StartsWith(pathname, href + "/") <==> |href| < |pathname| && pathname[..|href| + 1] == href + "/";
    assert |href| < |pathname| ==> pathname[..|href| + 1] == pathname[..|href|] + [pathname[|href|]];
    pathname == href || StartsWith(pathname, href + "/")
  }

  /** An active link is a prefix of the path. */
  lemma ActiveHrefIsPrefix(pathname: string, href: string)
    requires IsActive(pathname, href)
    ensures StartsWith(pathname, href)
  {
  }

  /** Matching follows path segments, not characters: "/orders" is not active on "/ordersX". */
  lemma SegmentBoundary()
    ensures !IsActive("/ordersX", "/orders")
    ensures IsActive("/orders/create", "/orders")
  {
    assert "/ordersX"[7] == 'X';
    assert "/orders/create"[..7] == "/orders";
  }

  /** Being active is inherited along the path: below an active link is below its parents. */
  lemma ActiveTransitive(pathname: string, href: string, parent: string)
    requires IsActive(pathname, href) && IsActive(href, parent)
    ensures IsActive(pathname, parent)
  {
    if href != parent {
      assert pathname[..|parent|] == href[..|parent|];
      assert pathname[|parent|] == href[|parent|];
    }
  }

  /** `isParentActive`: some child link is active (false when there are no children). */
  function IsParentActive(pathname: string, children: Option<seq<NavChild>>): (r: bool)
    ensures children.None? ==> !r
    ensures children.Some? ==> (r <==> exists i :: 0 <= i < |children.value| && IsActive(pathname, children.value[i].href))
  {
    match children
    case None => false
    case Some(cs) => Any(cs, (c: NavChild) => IsActive(pathname, c.href))
  }

  /** Whether an entry is highlighted: by its own `href` when that is non-empty, otherwise by its children. */
  function ItemActive(pathname: string, item: NavItem): (r: bool)
    ensures Truthy(item.href) ==> (r <==> IsActive(pathname, item.href.value))
    ensures !Truthy(item.href) ==> (r <==> item.children.Some? && exists i :: 0 <= i < |item.children.value| && IsActive(pathname, item.children.value[i].href))
  {
    if Truthy(item.href) then IsActive(pathname, item.href.value)
    else IsParentActive(pathname, item.children)
  }

  /** On "/orders/create" the order group is highlighted through its first two children at once. */
  lemma OrderGroupActiveOnCreate()
    ensures ItemActive("/orders/create", Navigation[1])
    ensures IsActive("/orders/create", Navigation[1].children.value[0].href)
    ensures IsActive("/orders/create", Navigation[1].children.value[1].href)
  {
    var group := Navigation[1];
    var children := [NavChild("Danh sách đơn hàng", "/orders"), NavChild("Tạo đơn hàng mới", "/orders/create"), NavChild("Theo dõi tiến độ", "/orders/tracking")];
    assert group == Group("Đơn hàng", ["Admin", "Manager", "Sales", "Technician"], children);
    SegmentBoundary();
    assert IsActive("/orders/create", children[1].href);
    assert IsParentActive("/orders/create", group.children);
  }

  /**
   * `hasModuleAccess`: names without a module are allowed; a mapped name needs
   * the "view" permission on its module.
   */
  function HasModuleAccess(name: string, hasModulePermission: (string, string) -> bool): (r: bool)
    ensures name !in ModuleMapping ==> r
    ensures name in ModuleMapping ==> (r <==> hasModulePermission(ModuleMapping[name], "view"))
  {
    if name !in ModuleMapping then true else hasModulePermission(ModuleMapping[name], "view")
  }

  /** Every menu entry has a module, so for the menu the permission check always decides. */
  lemma EveryMenuItemMapped(hasModulePermission: (string, string) -> bool)
    ensures forall i :: 0 <= i < |Navigation| ==> Navigation[i].name in ModuleMapping
    ensures forall i :: 0 <= i < |Navigation| ==>
              HasModuleAccess(Navigation[i].name, hasModulePermission) == hasModulePermission(ModuleMapping[Navigation[i].name], "view")
  {
  }

  /** The entry is shown to `role` with these permissions. */
  predicate Visible(role: Option<string>, hasModulePermission: (string, string) -> bool, item: NavItem) {
    role.Some? && role.value in item.roles && HasModuleAccess(item.name, hasModulePermission)
  }

  /** `filteredNavigation`: the entries the role may see and whose module may be viewed, in menu order. */
  function FilteredNavigation(role: Option<string>, hasModulePermission: (string, string) -> bool): (menu: seq<NavItem>)
    ensures IsSubsequence(menu, Navigation)
    ensures forall item :: item in menu <==> item in Navigation && role.Some? && role.value in item.roles
                                              && HasModuleAccess(item.name, hasModulePermission)
  {
    Filter(Navigation, VisibleTo(role, hasModulePermission))
  }

  /** `Visible` as the filter's callback. */
  function VisibleTo(role: Option<string>, hasModulePermission: (string, string) -> bool): NavItem -> bool {
    item => Visible(role, hasModulePermission, item)
  }

  /** Without a role no entry of any menu passes the filter. */
  lemma NoRoleHidesAll(items: seq<NavItem>, hasModulePermission: (string, string) -> bool)
    ensures Filter(items, VisibleTo(None, hasModulePermission)) == []
  {
    FilterKeepsNone(items, VisibleTo(None, hasModulePermission));
  }

  /** A customer is offered the overview entry alone, and only with the "dashboard" view permission. */
  lemma CustomerMenu(hasModulePermission: (string, string) -> bool)
    ensures FilteredNavigation(Some("Customer"), hasModulePermission)
         == if hasModulePermission("dashboard", "view") then [Navigation[0]] else []
  {
    var p := VisibleTo(Some("Customer"), hasModulePermission);
    assert forall i :: 1 <= i < |Navigation| ==> "Customer" !in Navigation[i].roles;
    assert "Customer" in Navigation[0].roles;
    assert ModuleMapping[Navigation[0].name] == "dashboard";
    assert p(Navigation[0]) == hasModulePermission("dashboard", "view");
    FilterOnlyHead(Navigation, p);
  }

  /** Without a signed-in user there is no role, and the menu is empty. */
  lemma NoUserNoMenu(hasModulePermission: (string, string) -> bool)
    ensures FilteredNavigation(UserRole(None), hasModulePermission) == []
  {
    NoRoleHidesAll(Navigation, hasModulePermission);
  }

  /** Truthiness of `expandedItems[name]`: a missing entry reads as collapsed. */
  predicate Expanded(expanded: map<string, bool>, name: string) {
    name in expanded && expanded[name]
  }

  /** The state update of `toggleExpanded`. */
  function Toggled(expanded: map<string, bool>, name: string): (r: map<string, bool>)
    ensures Expanded(r, name) == !Expanded(expanded, name)
    ensures name in r
    ensures forall k :: k != name ==> (k in r <==> k in expanded)
    ensures forall k :: k != name && k in expanded ==> r[k] == expanded[k]
  {
    expanded[name := !Expanded(expanded, name)]
  }

  /** Toggling twice restores what every entry reads as. */
  lemma ToggleTwice(expanded: map<string, bool>, name: string)
    ensures forall k :: Expanded(Toggled(Toggled(expanded, name), name), k) == Expanded(expanded, k)
  {
  }

  /** The sidebar's own state. */
  class SidebarState {
    var expandedItems: map<string, bool>

    constructor()
      ensures expandedItems == map[]
    {
      expandedItems := map[];
    }

    /** `toggleExpanded`. */
    method ToggleExpanded(name: string)
      modifies this
      ensures expandedItems == Toggled(old(expandedItems), name)
    {
      expandedItems := expandedItems[name := !(name in expandedItems && expandedItems[name])];
    }
  }
}
