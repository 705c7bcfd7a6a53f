/**
 * Which navigation item is highlighted for the current path.
 */
module Navigation {
  import opened Wrappers
  import opened Collections
  import opened Text

  /** The `href` of each navigation item, in menu order. */
  const NAV_HREFS: seq<string> := ["/", "/search", "/dashboard", "/categories", "/database"]

  /**
   * `isActiveRoute`: the home item only on the root path itself, any other
   * item on every path that starts with its `href`. A missing pathname makes
   * `pathname?.startsWith(href)` undefined, which counts as inactive.
   */
  function IsActiveRoute(pathname: Option<string>, href: string): bool {
    if href == "/" then pathname == Some("/")
    else pathname.Some? && StartsWith(pathname.value, href)
  }

  lemma IsActiveRouteFacts(pathname: Option<string>, href: string)
    ensures IsActiveRoute(pathname, "/") <==> pathname == Some("/")
    ensures href != "/" ==> (IsActiveRoute(pathname, href) <==> pathname.Some? && StartsWith(pathname.value, href))
    ensures pathname.None? ==> !IsActiveRoute(pathname, href)
    ensures IsActiveRoute(Some(href), href)
  {
    assert Some(href).value[..|href|] == href;
  }

  /** The match is on characters, not path segments: `/search` is active on `/searchx`. */
  lemma PrefixNotSegmentAware()
    ensures IsActiveRoute(Some("/searchx"), "/search")
    ensures !IsActiveRoute(Some("/search"), "/searchx")
  {
    assert "/searchx"[..|"/search"|] == "/search";
  }

  function ActiveIn(pathname: Option<string>): string -> bool {
    (href: string) => IsActiveRoute(pathname, href)
  }

  /** The highlighted items for a path. */
  function ActiveItems(pathname: Option<string>): seq<string> {
    Filter(NAV_HREFS, ActiveIn(pathname))
  }

  /** The non-root items differ in their second or fourth character, and each has at least four. */
  lemma HrefsApart(a: string, b: string)
    requires a in NAV_HREFS && b in NAV_HREFS && a != b && a != "/" && b != "/"
    ensures |a| >= 4 && |b| >= 4 && (a[1] != b[1] || a[3] != b[3])
  {
  }

  /** Two different items are never active on the same path. */
  lemma ActiveApart(pathname: Option<string>, a: string, b: string)
    requires a in NAV_HREFS && b in NAV_HREFS && a != b
    ensures !(IsActiveRoute(pathname, a) && IsActiveRoute(pathname, b))
  {
    if pathname.Some? {
      var p := pathname.value;
      if a != "/" && b != "/" {
        HrefsApart(a, b);
        assert StartsWith(p, a) ==> p[1] == a[1] && p[3] == a[3];
        assert StartsWith(p, b) ==> p[1] == b[1] && p[3] == b[3];
      } else if a == "/" {
        assert |b| > 1;
      } else {
        assert |a| > 1;
      }
    }
  }

  /** No two items of the menu are highlighted together, on any path. */
  lemma AtMostOneActive(pathname: Option<string>)
    ensures |ActiveItems(pathname)| <= 1
  {
    var r := ActiveItems(pathname);
    if |r| > 1 {
      FilterNoDups(NAV_HREFS, ActiveIn(pathname));
      ActiveApart(pathname, r[0], r[1]);
      assert false;
    }
  }
}
