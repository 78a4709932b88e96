/** The navigation chrome shared by the dashboard's layouts: the menus of
    apps/web-dashboard/components/Sidebar.tsx, TopBar.tsx and
    Layout/MainLayout.tsx, their active-item rule, and the state of the top
    bar's and the main layout's pop-up menus. */
module Navigation {
  import opened Optional
  import opened Text
  import opened Collections

  /** `isActive(path)` of all three menus: the root item is active only on
      the root, any other item whenever the location starts with its path. */
  predicate IsActive(pathname: string, path: string) {
    if path == "/" then pathname == "/" else StartsWith(pathname, path)
  }

  /** A menu entry; `title` holds the entry's `label`, a word Dafny reserves. */
  datatype MenuItem = MenuItem(id: string, title: string, path: string)

  const SidebarItems: seq<MenuItem> := [
    MenuItem("home", "Home", "/"),
    MenuItem("profile", "Profile", "/profile"),
    MenuItem("leads", "Leads", "/leads"),
    MenuItem("history", "History", "/history"),
    MenuItem("messages", "Messages", "/followup"),
    MenuItem("discover", "Discover", "/discover")]

  const TopBarItems: seq<MenuItem> := [
    MenuItem("dashboard", "Dashboard", "/"),
    MenuItem("leads", "Leads", "/leads"),
    MenuItem("followup", "Follow-up", "/followup")]

  const MainLayoutItems: seq<MenuItem> := [
    MenuItem("home", "Home", "/"),
    MenuItem("dashboard", "Dashboard", "/dashboard"),
    MenuItem("leads", "Leads", "/leads"),
    MenuItem("followup", "Follow-up", "/followup"),
    MenuItem("history", "History", "/history"),
    MenuItem("discover", "Discover", "/discover")]

  /** No two items can be highlighted together: at most one root item, and
      no other item's path is a prefix of another item's path. */
  predicate Unambiguous(items: seq<MenuItem>) {
    forall i, j | 0 <= i < |items| && 0 <= j < |items| && i != j ::
      if items[i].path == "/" then items[j].path != "/" else !(items[i].path <= items[j].path)
  }

  /** The items highlighted at `pathname`, in menu order. */
  function ActiveItems(items: seq<MenuItem>, pathname: string): seq<MenuItem> {
    Filter(items, (item: MenuItem) => IsActive(pathname, item.path))
  }

  /** Two prefixes of one string are prefixes of each other. */
  lemma {:induction false} PrefixesComparable(a: string, b: string, s: string)
    requires a <= s && b <= s
    ensures a <= b || b <= a
  {
    if |a| <= |b| {
      assert a == s[..|a|] && b == s[..|b|];
      assert b[..|a|] == a;
    } else {
      assert a == s[..|a|] && b == s[..|b|];
      assert a[..|b|] == b;
    }
  }

  /** In an unambiguous menu, two highlighted items are the same item. */
  lemma AtMostOneActive(items: seq<MenuItem>, pathname: string, i: int, j: int)
    requires Unambiguous(items)
    requires 0 <= i < |items| && 0 <= j < |items|
    requires IsActive(pathname, items[i].path) && IsActive(pathname, items[j].path)
    ensures i == j
  {
    if items[i].path != "/" && items[j].path != "/" {
      PrefixesComparable(items[i].path, items[j].path, pathname);
    }
  }

  /** An unambiguous menu highlights at most one item on any route. */
  lemma {:induction false} AtMostOneHighlighted(items: seq<MenuItem>, pathname: string)
    requires Unambiguous(items)
    ensures |ActiveItems(items, pathname)| <= 1
  {
    if items != [] {
      var rest := items[1..];
      forall i, j | 0 <= i < |rest| && 0 <= j < |rest| && i != j
        ensures if rest[i].path == "/" then rest[j].path != "/" else !(rest[i].path <= rest[j].path)
      {
        assert rest[i] == items[i + 1] && rest[j] == items[j + 1];
      }
      if IsActive(pathname, items[0].path) {
        forall k | 0 <= k < |rest|
          ensures !IsActive(pathname, rest[k].path)
        {
          if IsActive(pathname, rest[k].path) {
            AtMostOneActive(items, pathname, 0, k + 1);
          }
        }
        FilterKeepsNone(rest, (item: MenuItem) => IsActive(pathname, item.path));
      } else {
        AtMostOneHighlighted(rest, pathname);
      }
    }
  }

  /** `a` is a prefix of `b`, character by character. */
  predicate PrefixOf(a: string, b: string) {
    a == [] || (b != [] && a[0] == b[0] && PrefixOf(a[1..], b[1..]))
  }

  lemma {:induction false} PrefixOfIsPrefix(a: string, b: string)
    ensures PrefixOf(a, b) <==> a <= b
  {
    if a != [] && b != [] {
      PrefixOfIsPrefix(a[1..], b[1..]);
      assert a == [a[0]] + a[1..] && b == [b[0]] + b[1..];
    }
  }

  /** Items with paths `p` and `q` could be highlighted together. */
  predicate Clash(p: string, q: string) {
    if p == "/" then q == "/" else PrefixOf(p, q)
  }

  /** No two paths of the list clash, in either order. */
  predicate ClashFree(paths: seq<string>) {
    paths == [] || (ClashesWithNone(paths[0], paths[1..]) && ClashFree(paths[1..]))
  }

  /** Path `p` clashes with no path of `others`, in either order. */
  predicate ClashesWithNone(p: string, others: seq<string>) {
    others == [] || (!Clash(p, others[0]) && !Clash(others[0], p) && ClashesWithNone(p, others[1..]))
  }

  lemma {:induction false} ClashesWithNoneAt(p: string, others: seq<string>, k: int)
    requires ClashesWithNone(p, others) && 0 <= k < |others|
    ensures !Clash(p, others[k]) && !Clash(others[k], p)
  {
    if k > 0 {
      ClashesWithNoneAt(p, others[1..], k - 1);
    }
  }

  function Paths(items: seq<MenuItem>): (paths: seq<string>)
    ensures |paths| == |items| && forall i | 0 <= i < |items| :: paths[i] == items[i].path
  {
    seq(|items|, i requires 0 <= i < |items| => items[i].path)
  }

  lemma {:induction false} ClashFreePairs(paths: seq<string>, i: int, j: int)
    requires ClashFree(paths) && 0 <= i < |paths| && 0 <= j < |paths| && i != j
    ensures !Clash(paths[i], paths[j])
  {
    if i > 0 && j > 0 {
      ClashFreePairs(paths[1..], i - 1, j - 1);
    } else if i == 0 {
      ClashesWithNoneAt(paths[0], paths[1..], j - 1);
    } else {
      ClashesWithNoneAt(paths[0], paths[1..], i - 1);
    }
  }

  /** The list check establishes the menu property. */
  lemma ClashFreeUnambiguous(items: seq<MenuItem>)
    requires ClashFree(Paths(items))
    ensures Unambiguous(items)
  {
    forall i, j | 0 <= i < |items| && 0 <= j < |items| && i != j
      ensures if items[i].path == "/" then items[j].path != "/" else !(items[i].path <= items[j].path)
    {
      ClashFreePairs(Paths(items), i, j);
      PrefixOfIsPrefix(items[i].path, items[j].path);
    }
  }

  const SidebarPaths := ["/", "/profile", "/leads", "/history", "/followup", "/discover"]
  const TopBarPaths := ["/", "/leads", "/followup"]
  const MainLayoutPaths := ["/", "/dashboard", "/leads", "/followup", "/history", "/discover"]

  lemma SidebarPathsClashFree()
    ensures ClashFree(SidebarPaths)
  {
    assert ClashFree(["/discover"]);
    assert ClashFree(["/followup", "/discover"]);
    assert ClashFree(["/history", "/followup", "/discover"]);
    assert ClashFree(["/leads", "/history", "/followup", "/discover"]);
    assert ClashFree(["/profile", "/leads", "/history", "/followup", "/discover"]);
  }

  lemma TopBarPathsClashFree()
    ensures ClashFree(TopBarPaths)
  {
    assert ClashFree(["/followup"]);
    assert ClashFree(["/leads", "/followup"]);
  }

  lemma MainLayoutPathsClashFree()
    ensures ClashFree(MainLayoutPaths)
  {
    assert ClashFree(["/discover"]);
    assert ClashFree(["/history", "/discover"]);
    assert ClashFree(["/followup", "/history", "/discover"]);
    assert ClashFree(["/leads", "/followup", "/history", "/discover"]);
    assert "/dashboard"[1..] == "dashboard" && "/discover"[1..] == "discover";
    assert ClashFree(["/dashboard", "/leads", "/followup", "/history", "/discover"]);
  }

  /** Each of the three menus highlights at most one item. */
  lemma SidebarUnambiguous()
    ensures Unambiguous(SidebarItems)
  {
    SidebarPathsClashFree();
    assert Paths(SidebarItems) == SidebarPaths;
    ClashFreeUnambiguous(SidebarItems);
  }

  lemma TopBarUnambiguous()
    ensures Unambiguous(TopBarItems)
  {
    TopBarPathsClashFree();
    assert Paths(TopBarItems) == TopBarPaths;
    ClashFreeUnambiguous(TopBarItems);
  }

  lemma MainLayoutUnambiguous()
    ensures Unambiguous(MainLayoutItems)
  {
    MainLayoutPathsClashFree();
    assert Paths(MainLayoutItems) == MainLayoutPaths;
    ClashFreeUnambiguous(MainLayoutItems);
  }

  /** The active rule is a plain prefix test, not a path-segment test:
      "/leadsX" highlights Leads, and a detail page below an item highlights
      the item. On "/dashboard" the main layout highlights Dashboard, not
      Home, and "/login" highlights nothing in any menu. */
  lemma ActiveRuleExamples()
    ensures IsActive("/leadsX", "/leads")
    ensures IsActive("/followup/42", "/followup")
    ensures IsActive("/dashboard", "/dashboard") && !IsActive("/dashboard", "/")
    ensures forall item | item in SidebarItems + TopBarItems + MainLayoutItems :: !IsActive("/login", item.path)
  {
    assert "/leads" <= "/leadsX";
    assert "/followup" <= "/followup/42";
    forall item | item in SidebarItems + TopBarItems + MainLayoutItems
      ensures !IsActive("/login", item.path)
    {
      assert item.path == "/" || item.path[1] != 'l' || item.path[2] != 'o';
    }
  }

  /** On the root exactly the root item is highlighted. */
  lemma RootHighlightsRootOnly(items: seq<MenuItem>, k: int)
    requires Unambiguous(items) && 0 <= k < |items| && items[k].path == "/"
    ensures forall i | 0 <= i < |items| :: IsActive("/", items[i].path) <==> i == k
  {
    forall i | 0 <= i < |items| && IsActive("/", items[i].path)
      ensures i == k
    {
      AtMostOneActive(items, "/", i, k);
    }
  }

  /** On "/" the sidebar highlights Home and nothing else. */
  lemma SidebarRootHighlightsHome()
    ensures forall i | 0 <= i < |SidebarItems| :: IsActive("/", SidebarItems[i].path) <==> SidebarItems[i].id == "home"
  {
    SidebarUnambiguous();
    RootHighlightsRootOnly(SidebarItems, 0);
    assert forall i | 0 < i < |SidebarItems| :: SidebarItems[i].id != "home";
  }

  /** The top bar: its route, and the user and notification pop-ups, of
      which at most one is open. */
  class TopBar {
    var pathname: string
    var showUserMenu: bool
    var showNotifications: bool

    ghost predicate Valid()
      reads this
    {
      !(showUserMenu && showNotifications)
    }

    constructor (pathname: string)
      ensures Valid()
      ensures this.pathname == pathname && !showUserMenu && !showNotifications
    {
      this.pathname, showUserMenu, showNotifications := pathname, false, false;
    }

    /** The bell: toggles the notifications and closes the user menu. */
    method ClickNotifications()
      requires Valid()
      modifies this
      ensures Valid()
      ensures showNotifications == !old(showNotifications) && !showUserMenu && pathname == old(pathname)
    {
      showNotifications := !showNotifications;
      showUserMenu := false;
    }

    /** The avatar: toggles the user menu and closes the notifications. */
    method ClickUserMenu()
      requires Valid()
      modifies this
      ensures Valid()
      ensures showUserMenu == !old(showUserMenu) && !showNotifications && pathname == old(pathname)
    {
      showUserMenu := !showUserMenu;
      showNotifications := false;
    }

    /** A menu item or the logo. */
    method Navigate(path: string)
      modifies this
      ensures pathname == path
      ensures showUserMenu == old(showUserMenu) && showNotifications == old(showNotifications)
    {
      pathname := path;
    }

    /** `handleLogout`: goes to the login page; no session is cleared and the
        open user menu is not closed. */
    method Logout()
      modifies this
      ensures pathname == "/login"
      ensures showUserMenu == old(showUserMenu) && showNotifications == old(showNotifications)
    {
      pathname := "/login";
    }

    /** The menu items highlighted on the current route: the active ones,
        and never more than one. */
    function Highlighted(): (r: seq<MenuItem>)
      reads this
      ensures forall item :: item in r <==> item in TopBarItems && IsActive(pathname, item.path)
      ensures |r| <= 1
    {
      TopBarUnambiguous();
      AtMostOneHighlighted(TopBarItems, pathname);
      ActiveItems(TopBarItems, pathname)
    }
  }

  /** An element a pop-up menu is anchored to. */
  type Element = nat

  /** The main layout: its route and the anchors of the user and
      notification menus; a menu is open while it has an anchor. */
  class MainLayout {
    var pathname: string
    var userMenuAnchor: Option<Element>
    var notifMenuAnchor: Option<Element>

    constructor (pathname: string)
      ensures this.pathname == pathname && userMenuAnchor == None && notifMenuAnchor == None
    {
      this.pathname, userMenuAnchor, notifMenuAnchor := pathname, None, None;
    }

    function UserMenuOpen(): bool
      reads this
    {
      userMenuAnchor.Some?
    }

    function NotifMenuOpen(): bool
      reads this
    {
      notifMenuAnchor.Some?
    }

    method OpenUserMenu(target: Element)
      modifies this
      ensures userMenuAnchor == Some(target) && UserMenuOpen()
      ensures notifMenuAnchor == old(notifMenuAnchor) && pathname == old(pathname)
    {
      userMenuAnchor := Some(target);
    }

    /** Closing the menu, also what its Profile, Settings and Help items do. */
    method CloseUserMenu()
      modifies this
      ensures userMenuAnchor == None && !UserMenuOpen()
      ensures notifMenuAnchor == old(notifMenuAnchor) && pathname == old(pathname)
    {
      userMenuAnchor := None;
    }

    method OpenNotifMenu(target: Element)
      modifies this
      ensures notifMenuAnchor == Some(target) && NotifMenuOpen()
      ensures userMenuAnchor == old(userMenuAnchor) && pathname == old(pathname)
    {
      notifMenuAnchor := Some(target);
    }

    /** Closing the notifications, also what each notification item does. */
    method CloseNotifMenu()
      modifies this
      ensures notifMenuAnchor == None && !NotifMenuOpen()
      ensures userMenuAnchor == old(userMenuAnchor) && pathname == old(pathname)
    {
      notifMenuAnchor := None;
    }

    method Navigate(path: string)
      modifies this
      ensures pathname == path
      ensures userMenuAnchor == old(userMenuAnchor) && notifMenuAnchor == old(notifMenuAnchor)
    {
      pathname := path;
    }

    /** `handleLogout`: closes the user menu, then goes to the login page. */
    method HandleLogout()
      modifies this
      ensures !UserMenuOpen() && pathname == "/login"
      ensures notifMenuAnchor == old(notifMenuAnchor)
    {
      CloseUserMenu();
      Navigate("/login");
    }

    /** The menu items highlighted on the current route: the active ones,
        and never more than one. */
    function Highlighted(): (r: seq<MenuItem>)
      reads this
      ensures forall item :: item in r <==> item in MainLayoutItems && IsActive(pathname, item.path)
      ensures |r| <= 1
    {
      MainLayoutUnambiguous();
      AtMostOneHighlighted(MainLayoutItems, pathname);
      ActiveItems(MainLayoutItems, pathname)
    }
  }
}
