/** The navigation of components/layout/MobileMenu.tsx: the same five items,
    links and active test as the site header (its `buildHref` and `isActive`,
    lines 34-41, are the header's, which `SiteHeader` models). */
module MobileMenu {
  import opened Wrappers
  import opened Strings
  import SiteHeader

  /** The hrefs the menu renders, one per navigation item in order (lines 26-32, 53-55). */
  function NavLinks(locale: string): (links: seq<string>)
    ensures |links| == |SiteHeader.NAV_PATHS| == 5
    ensures links[0] == "/" + locale
    ensures forall i | 1 <= i < |links| :: links[i] == "/" + locale + "/" + SiteHeader.NAV_PATHS[i]
  {
    seq(|SiteHeader.NAV_PATHS|, i requires 0 <= i < |SiteHeader.NAV_PATHS| => SiteHeader.BuildHref(locale, SiteHeader.NAV_PATHS[i]))
  }

  /** Which items are highlighted for the current pathname (line 55). */
  function ActiveItems(locale: string, pathname: Option<string>): (flags: seq<bool>)
    ensures |flags| == |SiteHeader.NAV_PATHS|
    ensures forall i | 0 <= i < |flags| :: flags[i] == SiteHeader.IsActive(locale, pathname, SiteHeader.NAV_PATHS[i])
  {
    seq(|SiteHeader.NAV_PATHS|, i requires 0 <= i < |SiteHeader.NAV_PATHS| => SiteHeader.IsActive(locale, pathname, SiteHeader.NAV_PATHS[i]))
  }

  /** A string cannot start with two strings that differ at a position both have. */
  lemma NotBothPrefixes(p: string, a: string, b: string, k: nat)
    requires k < |a| && k < |b| && a[k] != b[k]
    ensures !(StartsWith(p, a) && StartsWith(p, b))
  {
  }

  /** At most one item is highlighted, whatever the pathname: the home item
      only on its exact path, and no other item's link is a prefix of another's. */
  lemma {:induction false} AtMostOneActive(locale: string, pathname: Option<string>)
    ensures var flags := ActiveItems(locale, pathname);
            forall i, j | 0 <= i < j < |flags| :: !(flags[i] && flags[j])
  {
    var flags := ActiveItems(locale, pathname);
    var paths := SiteHeader.NAV_PATHS;
    forall i, j | 0 <= i < j < |flags| ensures !(flags[i] && flags[j]) {
      var a := SiteHeader.BuildHref(locale, paths[i]);
      var b := SiteHeader.BuildHref(locale, paths[j]);
      if i == 0 {
        assert |b| > |"/" + locale|;
      } else if pathname.Some? {
        // the paths differ at their first letter, or at the second for archive and about
        var k := if i == 2 && j == 4 then 1 else 0;
        var n := |locale| + 2;
        assert a[n + k] == paths[i][k];
        assert b[n + k] == paths[j][k];
        NotBothPrefixes(pathname.value, a, b, n + k);
      }
    }
  }

  /** On the page a menu link leads to, exactly that item is highlighted. */
  lemma OnlyOwnItemActive(locale: string, i: nat)
    requires i < |SiteHeader.NAV_PATHS|
    ensures var flags := ActiveItems(locale, Some(NavLinks(locale)[i]));
            forall j | 0 <= j < |flags| :: flags[j] <==> j == i
  {
    var flags := ActiveItems(locale, Some(NavLinks(locale)[i]));
    SiteHeader.ActiveOnOwnPage(locale, SiteHeader.NAV_PATHS[i], "");
    assert flags[i];
    AtMostOneActive(locale, Some(NavLinks(locale)[i]));
  }
}
