/** The admin navigation of components/layout/DashboardHeader.tsx: menu
    groups of admin paths, links built by plain concatenation, and an active
    test by substring containment. */
module DashboardHeader {
  import opened Wrappers
  import opened Strings

  const DEFAULT_LOCALE := "tr"
  const DASHBOARD := "/admin/dashboard"

  /** The item hrefs of the three menu groups (lines 57-85). */
  const MENU_GROUPS: seq<seq<string>> := [
    ["/admin/categories", "/admin/subjects", "/admin/learning-objectives", "/admin/lessons", "/admin/materials"],
    ["/admin/questions", "/admin/tests"],
    ["/admin/users", "/admin/settings"]
  ]

  /** `params.locale || "tr"` (line 44). */
  function RouteLocale(param: Option<string>): (locale: string)
    ensures locale != ""
    ensures param.Some? && param.value != "" ==> locale == param.value
    ensures param.None? || param == Some("") ==> locale == DEFAULT_LOCALE
  {
    if param.Some? && param.value != "" then param.value else DEFAULT_LOCALE
  }

  /** `buildHref(path)` (line 87): no separator is added, the path brings its own. */
  function BuildHref(locale: string, path: string): (href: string)
    ensures |href| == 1 + |locale| + |path|
    ensures StartsWith(href, "/" + locale)
    ensures href[1 + |locale|..] == path
  {
    "/" + locale + path
  }

  /** `isActive(href)` (line 88): the pathname contains the href; false when
      there is no pathname. */
  function IsActive(pathname: Option<string>, href: string): bool {
    pathname.Some? && Contains(pathname.value, href)
  }

  /** `isGroupActive(items)` (lines 89-90): `items.some(isActive)`. */
  function IsGroupActive(pathname: Option<string>, items: seq<string>): (active: bool)
    ensures active <==> exists i | 0 <= i < |items| :: IsActive(pathname, items[i])
    decreases |items|
  {
    if items == [] then false
    else IsActive(pathname, items[0]) || IsGroupActive(pathname, items[1..])
  }

  /** Every menu link leads under `/locale/admin/`. */
  lemma MenuLinksUnderAdmin(locale: string)
    ensures forall g, i | 0 <= g < |MENU_GROUPS| && 0 <= i < |MENU_GROUPS[g]| ::
              StartsWith(BuildHref(locale, MENU_GROUPS[g][i]), "/" + locale + "/admin/")
  {
    forall g, i | 0 <= g < |MENU_GROUPS| && 0 <= i < |MENU_GROUPS[g]|
      ensures StartsWith(BuildHref(locale, MENU_GROUPS[g][i]), "/" + locale + "/admin/")
    {
      var h := MENU_GROUPS[g][i];
      assert h[..7] == "/admin/";
      assert BuildHref(locale, h)[..|locale| + 8] == "/" + locale + h[..7];
    }
  }

  /** On the page a menu link leads to, that item and its group are active. */
  lemma OwnLinkActive(locale: string, items: seq<string>, i: nat)
    requires i < |items|
    ensures IsActive(Some(BuildHref(locale, items[i])), items[i])
    ensures IsGroupActive(Some(BuildHref(locale, items[i])), items)
  {
    var href := BuildHref(locale, items[i]);
    ContainsAt(href, items[i], 1 + |locale|);
  }
}
