/** The sidebar: which navigation entries are highlighted for the current
    path, which sub-entries are listed, and the mobile menu's open flag. */
module Sidebar {
  import opened Wrappers
  import opened Text

  /** `isActive(path)`: the root entry only on "/" itself, any other entry
      whenever the current path starts with its link. No path (`null`) is
      never active. */
  predicate IsActive(pathname: Option<string>, path: string)
  {
    if path == "/" then pathname == Some("/")
    else pathname.Some? && StartsWith(pathname.value, path)
  }

  /** `isSubActive(path)`: the current path is exactly the link. */
  predicate IsSubActive(pathname: Option<string>, path: string)
  {
    pathname == Some(path)
  }

  /** Every entry is active on its own page. */
  lemma ActiveOnOwnPath(path: string)
    ensures IsActive(Some(path), path)
  {
    assert path[..|path|] == path;
  }

  /** The root entry is active on "/" and nowhere else. */
  lemma RootOnlyOnRoot(pathname: Option<string>)
    ensures IsActive(pathname, "/") <==> pathname == Some("/")
  {
  }

  /** What `isActive` means: there is a current path, the link is the window
      of it at position 0, and the root link needs the path to be "/" itself. */
  lemma ActiveMeaning(pathname: Option<string>, path: string)
    ensures IsActive(pathname, path) <==>
      pathname.Some? && OccursAt(path, pathname.value, 0) && (path == "/" ==> pathname.value == "/")
  {
    if pathname.Some? && OccursAt(path, pathname.value, 0) {
      assert pathname.value[0..|path|] == pathname.value[..|path|];
    }
  }

  /** A sub-entry is highlighted exactly when the entry with the same link
      would be active and the current path is exactly as long as the link. */
  lemma SubActiveMeaning(pathname: Option<string>, path: string)
    ensures IsSubActive(pathname, path) <==>
      IsActive(pathname, path) && |pathname.value| == |path|
  {
    if IsSubActive(pathname, path) {
      ActiveOnOwnPath(path);
    }
    if IsActive(pathname, path) && |pathname.value| == |path| {
      assert pathname.value == pathname.value[..|path|];
    }
  }

  /** On a page below an entry, the entry is active too. */
  lemma NestedPathActive(pathname: Option<string>, path: string, child: string)
    requires path != "/" && StartsWith(child, path)
    requires IsActive(pathname, child) && child != "/"
    ensures IsActive(pathname, path)
  {
    var p := pathname.value;
    assert p[..|path|] == p[..|child|][..|path|] == child[..|path|];
  }

  /** The prefix test has no segment boundary: "/portfolios" lights up the
      "/portfolio" entry, and no path lights up anything when it is null. */
  lemma NoSegmentBoundary()
    ensures IsActive(Some("/portfolios"), "/portfolio")
    ensures !IsSubActive(Some("/portfolios"), "/portfolio")
    ensures forall path :: !IsActive(None, path)
  {
    assert "/portfolios"[..|"/portfolio"|] == "/portfolio";
  }

  datatype SubItem = SubItem(title: string, href: string)

  /** A navigation entry; only "Portfolio" carries sub-entries. */
  datatype NavItem = NavItem(title: string, href: string, subItems: Option<seq<SubItem>>)

  const PortfolioItem := NavItem("Portfolio", "/portfolio", Some([
    SubItem("Overview", "/portfolio"),
    SubItem("Stocks", "/portfolio/stocks"),
    SubItem("ETFs", "/portfolio/etfs"),
    SubItem("Crypto", "/portfolio/crypto")
  ]))

  const MainNavItems: seq<NavItem> := [
    NavItem("Dashboard", "/", None),
    PortfolioItem,
    NavItem("Transactions", "/transactions", None),
    NavItem("Budget", "/budget", None),
    NavItem("Forecast", "/forecast", None),
    NavItem("Sectors", "/sectors", None),
    NavItem("Performance", "/performance", None),
    NavItem("Watchlist", "/watchlist", None),
    NavItem("Alerts", "/alerts", None),
    NavItem("Settings", "/settings", None)
  ]

  /** The sub-entries listed under an entry: all of them while the entry is
      active, none otherwise. */
  function VisibleSubItems(item: NavItem, pathname: Option<string>): (r: seq<SubItem>)
    ensures r != [] ==> IsActive(pathname, item.href) && item.subItems.Some?
    ensures IsActive(pathname, item.href) && item.subItems.Some? ==> r == item.subItems.value
  {
    if item.subItems.Some? && IsActive(pathname, item.href) then item.subItems.value else []
  }

  /** On "/portfolio/stocks" the Portfolio entry lists its four sub-entries
      and only "Stocks" is highlighted among them. */
  lemma StocksPageHighlights()
    ensures VisibleSubItems(PortfolioItem, Some("/portfolio/stocks")) == PortfolioItem.subItems.value
    ensures forall k :: 0 <= k < |PortfolioItem.subItems.value| ==>
      (IsSubActive(Some("/portfolio/stocks"), PortfolioItem.subItems.value[k].href) <==> k == 1)
  {
    assert "/portfolio/stocks"[..|"/portfolio"|] == "/portfolio";
  }

  /** Away from "/portfolio" no sub-entry is listed. */
  lemma SubItemsHiddenElsewhere(pathname: string)
    requires !StartsWith(pathname, "/portfolio")
    ensures VisibleSubItems(PortfolioItem, Some(pathname)) == []
  {
  }

  /** The sidebar's state: the current path and the mobile menu flag. */
  class SidebarState {
    var pathname: Option<string>
    var isMobileMenuOpen: bool

    /** The menu starts closed. */
    constructor (initialPath: Option<string>)
      ensures pathname == initialPath && !isMobileMenuOpen
    {
      pathname := initialPath;
      isMobileMenuOpen := false;
    }

    /** The menu button flips the flag. */
    method ToggleMenu()
      modifies this
      ensures isMobileMenuOpen == !old(isMobileMenuOpen)
      ensures pathname == old(pathname)
    {
      isMobileMenuOpen := !isMobileMenuOpen;
    }

    /** The overlay exists only while the menu is open; clicking it closes
        the menu. */
    method ClickOverlay()
      requires isMobileMenuOpen
      modifies this
      ensures !isMobileMenuOpen
      ensures pathname == old(pathname)
    {
      isMobileMenuOpen := false;
    }

    /** Navigating: a new path closes the menu; the same path leaves it. */
    method Navigate(newPath: Option<string>)
      modifies this
      ensures pathname == newPath
      ensures newPath != old(pathname) ==> !isMobileMenuOpen
      ensures newPath == old(pathname) ==> isMobileMenuOpen == old(isMobileMenuOpen)
    {
      if newPath != pathname {
        isMobileMenuOpen := false;
      }
      pathname := newPath;
    }
  }
}
