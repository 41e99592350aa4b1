/**
 * The desktop side navigation: the items configured for the signed-in role,
 * each highlighted when its target occurs in the current pathname, followed
 * by a Logout item.
 */
module SideNav {

  import opened Maybe
  import opened Text

  /** A rendered icon element: its glyph and, when it was painted, the colour it was given. */
  datatype Node = Node(glyph: string, colour: Option<string>)

  /** An item's icon: a ready element, or a function that paints one in a colour. */
  datatype Icon = Fixed(node: Node) | Painted(paint: string -> Node)

  datatype NavItem = NavItem(to: string, icon: Icon, title: string)

  /** What `SideNavItem` renders for one item. */
  datatype RenderedItem = RenderedItem(to: string, title: string, active: bool, iconColour: string, icon: Node)

  /** The outcome of rendering the list; `Crashed` is the TypeError of mapping over `undefined`. */
  datatype Rendering = Rendered(items: seq<RenderedItem>) | Crashed

  const ActiveColour := "#FFFFFF"
  const InactiveColour := "#4B5563"
  const LogoutTarget := "/logout"

  /** The icon function `(color) => <Icons.x color={color} />`. */
  function Glyph(name: string): string -> Node
  {
    (c: string) => Node(name, Some(c))
  }

  /** `NavbarItems.admin`. */
  const AdminItems: seq<NavItem> := [
    NavItem("/dashboard/admin/home", Painted(Glyph("dashboard")), "Dashboard"),
    NavItem("/dashboard/admin/patients", Painted(Glyph("users")), "Patients"),
    NavItem("/dashboard/admin/pharmacy", Painted(Glyph("pharmacy")), "Pharmacy"),
    NavItem("/dashboard/admin/profile", Painted(Glyph("profile")), "My Profile"),
    NavItem("/dashboard/admin/users", Painted(Glyph("admin")), "Users")
  ]

  const LogoutItem := NavItem(LogoutTarget, Painted(Glyph("log-out")), "Logout")

  /** `location.indexOf(to) !== -1`: the target occurs somewhere in the pathname (case-sensitive). */
  function IsActive(location: string, to: string): (b: bool)
    ensures b <==> exists k :: OccursAt(location, to, k)
  {
    Contains(location, to)
  }

  /** `SideNavItem`: the highlight, the icon colour it implies and the icon drawn in it. */
  function RenderItem(item: NavItem, location: string): (r: RenderedItem)
    ensures r.to == item.to && r.title == item.title
    ensures r.active <==> exists k :: OccursAt(location, item.to, k)
    ensures r.iconColour == (if r.active then ActiveColour else InactiveColour)
    ensures item.icon.Fixed? ==> r.icon == item.icon.node
    ensures item.icon.Painted? ==> r.icon == item.icon.paint(r.iconColour)
  {
    var active := IsActive(location, item.to);
    var colour := if active then ActiveColour else InactiveColour;
    var node := match item.icon
      case Fixed(n) => n
      case Painted(paint) => paint(colour);
    RenderedItem(item.to, item.title, active, colour, node)
  }

  function RenderAll(items: seq<NavItem>, location: string): (rs: seq<RenderedItem>)
    ensures |rs| == |items|
    ensures forall i :: 0 <= i < |items| ==> rs[i] == RenderItem(items[i], location)
  {
    seq(|items|, i requires 0 <= i < |items| => RenderItem(items[i], location))
  }

  /** A role string is truthy when present and non-empty. */
  predicate Truthy(role: Option<string>)
  {
    role.Some? && role.value != ""
  }

  /**
   * `SideNav`: the role's items, or none when no role is stored, always
   * followed by Logout. A stored role with no entry in the item table makes
   * `settings` undefined and rendering fails.
   */
  function SideNavFor(role: Option<string>, location: string): (r: Rendering)
    ensures !Truthy(role) ==> r == Rendered([RenderItem(LogoutItem, location)])
    ensures role == Some("admin") ==> r.Rendered? && |r.items| == |AdminItems| + 1
    ensures role == Some("admin") ==> forall i :: 0 <= i < |AdminItems| ==> r.items[i] == RenderItem(AdminItems[i], location)
    ensures Truthy(role) && role != Some("admin") ==> r == Crashed
    ensures r.Rendered? ==> |r.items| >= 1 && r.items[|r.items| - 1] == RenderItem(LogoutItem, location)
  {
    if Truthy(role) && role.value != "admin" then Crashed
    else
      var settings := if Truthy(role) then AdminItems else [];
      var logout := RenderItem(LogoutItem, location);
      assert settings == [] ==> RenderAll(settings, location) + [logout] == [logout];
      Rendered(RenderAll(settings, location) + [logout])
  }

  /** An item whose target starts the pathname, as a page under its section does, is highlighted. */
  lemma {:induction false} TargetPrefixActivates(item: NavItem, rest: string)
    ensures RenderItem(item, item.to + rest).active
    ensures RenderItem(item, item.to + rest).iconColour == ActiveColour
  {
    assert (item.to + rest)[0..|item.to|] == item.to;
    assert OccursAt(item.to + rest, item.to, 0);
  }

  /** On a patient's detail page the Patients item is highlighted, its icon painted white. */
  lemma PatientsDetailHighlightsPatients()
    ensures var r := SideNavFor(Some("admin"), "/dashboard/admin/patients/7");
      r.Rendered? && r.items[1].active && r.items[1].icon == Node("users", Some(ActiveColour))
  {
    assert "/dashboard/admin/patients/7" == AdminItems[1].to + "/7";
    TargetPrefixActivates(AdminItems[1], "/7");
  }

}
