/**
 * The navigation bar: where each entry links to, which entry is
 * highlighted (from the route and the active section id) and the mobile
 * menu's open flag.
 */
module Navigation {
  import opened Wrappers
  import opened Content

  /** `pathname || "/"`: a missing or empty pathname reads as the root. */
  function CurrentPath(pathname: Option<string>): (path: string)
    ensures path != ""
    ensures pathname.Some? && pathname.value != "" ==> path == pathname.value
    ensures pathname.None? || pathname.value == "" ==> path == "/"
  {
    if pathname.Some? && pathname.value != "" then pathname.value else "/"
  }

  /** Only the root route is the home page. */
  predicate IsHome(path: string) { path == "/" }

  /**
   * `activeSectionId || (isHome ? "overview" : undefined)`: a non-empty
   * active id is kept, an empty or missing one falls back to "overview"
   * on the home page and to nothing elsewhere.
   */
  function NormalizedSectionId(activeSectionId: Option<string>, isHome: bool): (r: Option<string>)
    ensures r.Some? ==> r.value != ""
    ensures r.None? <==> !isHome && (activeSectionId.None? || activeSectionId.value == "")
    ensures activeSectionId.Some? && activeSectionId.value != "" ==> r == activeSectionId
    ensures isHome && (activeSectionId.None? || activeSectionId.value == "") ==> r == Some("overview")
  {
    if activeSectionId.Some? && activeSectionId.value != "" then activeSectionId
    else if isHome then Some("overview")
    else None
  }

  /** What one render of the bar derives from its props and the route. */
  datatype Context = Context(currentPath: string, isHome: bool, sectionId: Option<string>)

  /**
   * The render's context: the root route, also when the pathname is
   * missing or empty, is the only home page; a non-empty active id is the
   * selected section, and without one "overview" is selected on the home
   * page and nothing elsewhere.
   */
  function ContextOf(pathname: Option<string>, activeSectionId: Option<string>): (ctx: Context)
    ensures ctx.currentPath == CurrentPath(pathname)
    ensures activeSectionId.Some? && activeSectionId.value != "" ==> ctx.sectionId == activeSectionId
    ensures ctx.isHome <==> pathname.None? || pathname.value == "" || pathname.value == "/"
    ensures ctx.sectionId.Some? ==> ctx.sectionId.value != ""
    ensures ctx.sectionId.None? <==> !ctx.isHome && (activeSectionId.None? || activeSectionId.value == "")
    ensures ctx.isHome && (activeSectionId.None? || activeSectionId.value == "") ==> ctx.sectionId == Some("overview")
  {
    var path := CurrentPath(pathname);
    Context(path, IsHome(path), NormalizedSectionId(activeSectionId, IsHome(path)))
  }

  /**
   * `linkHref`: a section anchor, relative ("#") on the home page and
   * rooted ("/#") elsewhere, which on every page leads to the entry's
   * section; a route verbatim.
   */
  function LinkHref(item: NavItem, isHome: bool): (href: string)
    ensures item.kind == Section ==> AnchorTarget(href) == Some(item.href)
    ensures item.kind == Section ==> (href[0] == '#' <==> isHome)
    ensures item.kind == Page ==> href == item.href
  {
    match item.kind
    case Section =>
      var href := (if isHome then "#" else "/#") + item.href;
      if isHome then
        assert href[1..] == item.href;
        href
      else
        assert href[..2] == "/#" && href[2..] == item.href;
        href
    case Page => item.href
  }

  /** The section a link scrolls to: the text after a leading "#" or "/#". */
  function AnchorTarget(href: string): Option<string> {
    if |href| >= 1 && href[0] == '#' then Some(href[1..])
    else if |href| >= 2 && href[..2] == "/#" then Some(href[2..])
    else None
  }

  /** A route entry links to its route, which is no anchor when it starts with "/" and not "/#". */
  lemma PageLinkIsRoute(item: NavItem, isHome: bool)
    requires item.kind == Page
    requires |item.href| >= 2 && item.href[0] == '/' && item.href[1] != '#'
    ensures LinkHref(item, isHome) == item.href
    ensures AnchorTarget(LinkHref(item, isHome)) == None
  {
    assert item.href[..2] != "/#" by {
      assert item.href[..2][1] != '#';
    }
  }

  /**
   * `isItemActive = sectionMatch || pageMatch`: an entry is highlighted
   * exactly when its link leads where the reader is, the normalized
   * section for a section entry, the current route for a route entry.
   */
  function IsItemActive(item: NavItem, ctx: Context): (active: bool)
    ensures item.kind == Section ==>
      (active <==> ctx.sectionId.Some? && ctx.sectionId.value != "" &&
                   AnchorTarget(LinkHref(item, ctx.isHome)) == ctx.sectionId)
    ensures item.kind == Page ==> (active <==> LinkHref(item, ctx.isHome) == ctx.currentPath)
  {
    match item.kind
    case Section => ctx.sectionId.Some? && ctx.sectionId.value != "" && item.href == ctx.sectionId.value
    case Page => ctx.currentPath == item.href
  }

  /** A desktop link: React key, target, highlight and `aria-current`. */
  datatype NavLink = NavLink(key: string, href: string, active: bool, ariaCurrent: Option<string>)

  /** A mobile link: the same without `aria-current`. */
  datatype MobileLink = MobileLink(key: string, href: string, active: bool)

  function DesktopLink(item: NavItem, ctx: Context): NavLink {
    var active := IsItemActive(item, ctx);
    NavLink(item.labelText, LinkHref(item, ctx.isHome), active, if active then Some("page") else None)
  }

  /**
   * The desktop list: one link per entry, in order, keyed by label, and
   * `aria-current="page"` on exactly the highlighted ones.
   */
  function DesktopLinks(items: seq<NavItem>, ctx: Context): (links: seq<NavLink>)
    ensures |links| == |items|
    ensures forall i :: 0 <= i < |items| ==>
      && links[i].key == items[i].labelText
      && links[i].href == LinkHref(items[i], ctx.isHome)
      && (links[i].active <==> IsItemActive(items[i], ctx))
      && (links[i].ariaCurrent.Some? <==> links[i].active)
      && (links[i].ariaCurrent.Some? ==> links[i].ariaCurrent.value == "page")
  {
    if items == [] then [] else [DesktopLink(items[0], ctx)] + DesktopLinks(items[1..], ctx)
  }

  function MobileLinkFor(item: NavItem, ctx: Context): MobileLink {
    MobileLink(item.labelText, LinkHref(item, ctx.isHome), IsItemActive(item, ctx))
  }

  function MobileItems(items: seq<NavItem>, ctx: Context): (links: seq<MobileLink>)
    ensures |links| == |items|
    ensures forall i :: 0 <= i < |items| ==> links[i] == MobileLinkFor(items[i], ctx)
  {
    if items == [] then [] else [MobileLinkFor(items[0], ctx)] + MobileItems(items[1..], ctx)
  }

  /**
   * `{isMenuOpen && ...}`: the dropdown renders only while the menu is
   * open, and then shows the desktop list's keys, targets and highlights.
   */
  function MobileLinks(items: seq<NavItem>, ctx: Context, menuOpen: bool): (links: seq<MobileLink>)
    ensures !menuOpen ==> links == []
    ensures menuOpen ==> |links| == |DesktopLinks(items, ctx)|
    ensures menuOpen ==> forall i :: 0 <= i < |items| ==>
      var d := DesktopLinks(items, ctx)[i];
      links[i].key == d.key && links[i].href == d.href && links[i].active == d.active
  {
    if menuOpen then MobileItems(items, ctx) else []
  }

  predicate UniqueHrefs(items: seq<NavItem>) {
    forall i, j :: 0 <= i < j < |items| ==> items[i].href != items[j].href
  }

  /** With distinct hrefs, at most one section entry and at most one route entry are highlighted. */
  lemma AtMostOneActivePerKind(items: seq<NavItem>, ctx: Context, i: nat, j: nat)
    requires UniqueHrefs(items)
    requires i < |items| && j < |items|
    requires items[i].kind == items[j].kind
    requires IsItemActive(items[i], ctx) && IsItemActive(items[j], ctx)
    ensures i == j
  {
    assert items[i].href == items[j].href;
  }

  /** Off the home page, without an active id, no section entry is highlighted. */
  lemma OffHomeNoSectionActive(pathname: Option<string>, activeSectionId: Option<string>, item: NavItem)
    requires !IsHome(CurrentPath(pathname))
    requires activeSectionId.None? || activeSectionId.value == ""
    requires item.kind == Section
    ensures !IsItemActive(item, ContextOf(pathname, activeSectionId))
  {
  }

  /** On the home page, before any section is reported, "Overview" is the only highlighted entry. */
  lemma HomeDefaultsToOverview(pathname: Option<string>, activeSectionId: Option<string>)
    requires pathname.None? || pathname.value == "" || pathname.value == "/"
    requires activeSectionId.None? || activeSectionId.value == ""
    ensures forall i :: 0 <= i < |navigation| ==>
      (DesktopLinks(navigation, ContextOf(pathname, activeSectionId))[i].active <==> i == 0)
  {
    var ctx := ContextOf(pathname, activeSectionId);
    assert ctx.sectionId == Some("overview") && ctx.currentPath == "/";
    forall i | 0 <= i < |navigation|
      ensures IsItemActive(navigation[i], ctx) <==> i == 0
    {
      NavigationKeysDistinct();
      if navigation[i].kind == Page {
        assert navigation[i].href[0] == '/' && navigation[i].href != "/";
      } else if i != 0 {
        assert navigation[i].href != navigation[0].href;
      }
    }
  }

  /** No shipped route is the root. */
  lemma ShippedRoutesAreNotRoot()
    ensures forall k :: 0 <= k < |navigation| && navigation[k].kind == Page ==> navigation[k].href != "/"
  {
  }

  /**
   * On the home page the shipped entries highlight at most one link,
   * whatever the active id: no route entry is "/", and hrefs are distinct.
   */
  lemma HomeHighlightsAtMostOne(activeSectionId: Option<string>, i: nat, j: nat)
    requires i < |navigation| && j < |navigation|
    requires IsItemActive(navigation[i], ContextOf(Some("/"), activeSectionId))
    requires IsItemActive(navigation[j], ContextOf(Some("/"), activeSectionId))
    ensures i == j
  {
    var ctx := ContextOf(Some("/"), activeSectionId);
    assert ctx.currentPath == "/";
    NavigationKeysDistinct();
    ShippedRoutesAreNotRoot();
    assert navigation[i].kind == Section && navigation[j].kind == Section;
    AtMostOneActivePerKind(navigation, ctx, i, j);
  }

  /** The bar's own state: whether the mobile dropdown is open. */
  class NavigationBar {
    var isMenuOpen: bool

    constructor ()
      ensures !isMenuOpen
    {
      isMenuOpen := false;
    }

    /**
     * The links the dropdown shows in the current state: none while the
     * menu is closed, otherwise one per entry with the entry's target and
     * highlight.
     */
    function ShownMobileLinks(items: seq<NavItem>, ctx: Context): (links: seq<MobileLink>)
      reads this
      ensures !isMenuOpen ==> links == []
      ensures isMenuOpen ==> |links| == |items|
      ensures isMenuOpen ==> forall i :: 0 <= i < |items| ==>
        && links[i].key == items[i].labelText
        && links[i].href == LinkHref(items[i], ctx.isHome)
        && (links[i].active <==> IsItemActive(items[i], ctx))
    {
      MobileLinks(items, ctx, isMenuOpen)
    }

    /** The menu button flips the flag. */
    method ToggleMenu()
      modifies this
      ensures isMenuOpen == !old(isMenuOpen)
      ensures old(isMenuOpen) ==> forall items, ctx :: ShownMobileLinks(items, ctx) == []
    {
      isMenuOpen := !isMenuOpen;
    }

    /** Tapping a dropdown link, which exists only while open, closes the menu. */
    method TapMobileLink()
      requires isMenuOpen
      modifies this
      ensures !isMenuOpen
      ensures forall items, ctx :: ShownMobileLinks(items, ctx) == []
    {
      isMenuOpen := false;
    }
  }
}
