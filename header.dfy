/**
 * The site header: a mobile menu toggle, a `scrolled` style flag driven by a
 * window scroll listener registered on mount, and the active-item test of
 * the navigation links. The listener the mount effect registers is a
 * single function value; unmounting removes that same value.
 */
module Header {

  datatype NavItem = NavItem(name: string, path: string)

  const NavItems: seq<NavItem> := [
    NavItem("Home", "/"),
    NavItem("About", "/about"),
    NavItem("Services", "/services"),
    NavItem("Portfolio", "/portfolio"),
    NavItem("Contact", "/contact")
  ]

  /** `location.pathname === item.path`. */
  predicate IsActive(pathname: string, item: NavItem)
  {
    pathname == item.path
  }

  /** The navigation paths are pairwise distinct. */
  lemma PathsDistinct(i: nat, j: nat)
    requires i < |NavItems| && j < |NavItems| && i != j
    ensures NavItems[i].path != NavItems[j].path
  {
  }

  /** At most one navigation item is highlighted, whatever the current path. */
  lemma AtMostOneActive(pathname: string, i: nat, j: nat)
    requires i < |NavItems| && j < |NavItems|
    requires IsActive(pathname, NavItems[i]) && IsActive(pathname, NavItems[j])
    ensures i == j
  {
    if i != j {
      PathsDistinct(i, j);
    }
  }

  /** Each of the five paths highlights exactly its own item. */
  lemma ActiveIff(i: nat, j: nat)
    requires i < |NavItems| && j < |NavItems|
    ensures IsActive(NavItems[i].path, NavItems[j]) <==> i == j
  {
    if i != j {
      PathsDistinct(i, j);
    }
  }

  /** Which of the header's links was clicked. */
  datatype Link = DesktopNav(item: NavItem) | Logo | DesktopGetStarted | MobileNav(item: NavItem) | MobileGetStarted

  /** The route a link navigates to. */
  function Destination(l: Link): string
  {
    match l
    case DesktopNav(item) => item.path
    case Logo => "/"
    case DesktopGetStarted => "/contact"
    case MobileNav(item) => item.path
    case MobileGetStarted => "/contact"
  }

  /** Only the links inside the mobile menu close it. */
  predicate ClosesMenu(l: Link)
  {
    l.MobileNav? || l.MobileGetStarted?
  }

  class HeaderState {
    var isMenuOpen: bool
    var scrolled: bool
    var mounted: bool
    /** The window's scroll listeners, by the id of the function value. */
    var scrollListeners: set<nat>
    /** The id of the `handleScroll` created by the mount effect. */
    const handler: nat

    ghost predicate Valid()
      reads this
    {
      scrollListeners == if mounted then {handler} else {}
    }

    /** Mounting: closed menu, unscrolled, and the effect's handler registered. */
    constructor(handler: nat)
      ensures Valid()
      ensures !isMenuOpen && !scrolled && mounted && this.handler == handler
      ensures scrollListeners == {handler}
    {
      isMenuOpen := false;
      scrolled := false;
      mounted := true;
      this.handler := handler;
      scrollListeners := {handler};
    }

    /** A scroll event: while the listener is registered, `scrolled` is `scrollY > 50`, strictly. */
    method Scroll(scrollY: real)
      requires Valid()
      modifies this
      ensures Valid()
      ensures mounted ==> (scrolled <==> scrollY > 50.0)
      ensures !mounted ==> scrolled == old(scrolled)
      ensures isMenuOpen == old(isMenuOpen) && mounted == old(mounted) && scrollListeners == old(scrollListeners)
    {
      if handler in scrollListeners {
        scrolled := scrollY > 50.0;
      }
    }

    /** The menu button. */
    method ToggleMenu()
      requires Valid() && mounted
      modifies this
      ensures Valid()
      ensures isMenuOpen == !old(isMenuOpen)
      ensures scrolled == old(scrolled) && mounted == old(mounted) && scrollListeners == old(scrollListeners)
    {
      isMenuOpen := !isMenuOpen;
    }

    /** A click on a header link; the mobile menu's links are there only while it is open. */
    method ClickLink(l: Link) returns (route: string)
      requires Valid() && mounted
      requires ClosesMenu(l) ==> isMenuOpen
      modifies this
      ensures Valid()
      ensures route == Destination(l)
      ensures isMenuOpen == (old(isMenuOpen) && !ClosesMenu(l))
      ensures scrolled == old(scrolled) && mounted == old(mounted) && scrollListeners == old(scrollListeners)
    {
      if ClosesMenu(l) {
        isMenuOpen := false;
      }
      route := Destination(l);
    }

    /** Unmounting removes the very handler that was added: no scroll listener is left behind. */
    method Unmount()
      requires Valid() && mounted
      modifies this
      ensures Valid()
      ensures !mounted && scrollListeners == {}
      ensures isMenuOpen == old(isMenuOpen) && scrolled == old(scrolled)
    {
      scrollListeners := scrollListeners - {handler};
      mounted := false;
    }
  }
}
