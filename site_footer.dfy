/** The page links of components/layout/SiteFooter.tsx: the header's link
    builder, except that `admin` always leads to `/admin`. */
module SiteFooter {
  import SiteHeader

  const ADMIN := "admin"

  /** The page links' paths, in display order (lines 33-37). */
  const PAGE_PATHS: seq<string> := ["about", "contact", ADMIN]

  /** `buildHref(path)` (lines 30-31). */
  function BuildHref(locale: string, path: string): (href: string)
    ensures path == ADMIN ==> href == "/admin"
    ensures path != ADMIN ==> href == SiteHeader.BuildHref(locale, path)
  {
    if path == ADMIN then "/admin" else SiteHeader.BuildHref(locale, path)
  }

  /** The pages links resolve to `/locale/about`, `/locale/contact` and `/admin`. */
  function PagesLinks(locale: string): (links: seq<string>)
    ensures links == ["/" + locale + "/" + "about", "/" + locale + "/" + "contact", "/admin"]
  {
    [BuildHref(locale, PAGE_PATHS[0]), BuildHref(locale, PAGE_PATHS[1]), BuildHref(locale, PAGE_PATHS[2])]
  }

  /** The admin link ignores the locale; every other link is the header's. */
  lemma OnlyAdminIgnoresLocale(locale: string, other: string, path: string)
    ensures path == ADMIN ==> BuildHref(locale, path) == BuildHref(other, path)
    ensures path != ADMIN && locale != other ==> BuildHref(locale, path) != BuildHref(other, path)
  {
    if path != ADMIN && locale != other {
      var a := BuildHref(locale, path);
      var b := BuildHref(other, path);
      if |locale| == |other| {
        assert locale == a[1..1 + |locale|];
        assert other == b[1..1 + |other|];
      }
    }
  }
}
