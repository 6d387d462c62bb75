/** The bottom navigation bar (`src/components/BottomNav.jsx`): hidden on the sign-in pages,
    otherwise three links of which the one for the current page is highlighted. */
module BottomNav {
  import opened Common
  import opened Routes

  datatype NavItem = NavItem(name: string, path: string)

  /** `navItems`, in display order. */
  const NavItems: seq<NavItem> := [NavItem("Home", "/"), NavItem("Search", "/search"), NavItem("Saved", "/profile")]

  /** `isActive` of one item: its exact path, or any path under `/search` for the search item. */
  predicate IsActive(pathname: string, path: string) {
    pathname == path || (path == "/search" && StartsWith(pathname, "/search"))
  }

  /** The bar for a location: nothing on a sign-in page, otherwise which of the items are active. */
  function Bar(pathname: string): (r: Option<seq<bool>>)
    ensures r.None? <==> pathname == "/login" || pathname == "/register" || pathname == "/forgot-password"
    ensures r.Some? ==> |r.value| == |NavItems| &&
                        (r.value[0] <==> pathname == "/") &&
                        (r.value[1] <==> StartsWith(pathname, "/search")) &&
                        (r.value[2] <==> pathname == "/profile")
  {
    if IsAuthPage(pathname) then None
    else
      assert StartsWith("/search", "/search");
      Some(seq(|NavItems|, i requires 0 <= i < |NavItems| => IsActive(pathname, NavItems[i].path)))
  }

  /** No location highlights two items. */
  lemma AtMostOneActive(pathname: string)
    ensures Bar(pathname).Some? ==> forall i, j :: 0 <= i < j < |Bar(pathname).value| ==> !(Bar(pathname).value[i] && Bar(pathname).value[j])
  {
    if StartsWith(pathname, "/search") {
      assert pathname[1] == 's';
      assert pathname != "/" && pathname != "/profile" by {
        assert "/profile"[1] == 'p';
      }
    }
  }

  /** Each of the three pages highlights its own item. */
  lemma EachPageHighlightsItsItem(i: nat)
    requires i < |NavItems|
    ensures Bar(NavItems[i].path).Some? && Bar(NavItems[i].path).value[i]
  {
  }
}
