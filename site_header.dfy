/** The link helpers of components/layout/SiteHeader.tsx: building a
    locale-prefixed href, deciding which navigation item is active for the
    current pathname, and switching the locale segment of the current path. */
module SiteHeader {
  import opened Wrappers
  import opened Strings

  /** The navigation items' paths, in display order (lines 35-42). */
  const NAV_PATHS: seq<string> := ["", "videos", "archive", "tags", "about"]

  /** `buildHref(path)` (line 43): `/locale`, then `/path` unless the path is empty. */
  function BuildHref(locale: string, path: string): (href: string)
    ensures StartsWith(href, "/" + locale)
    ensures path == "" <==> href == "/" + locale
    ensures path != "" ==> href == "/" + locale + "/" + path
  {
    "/" + locale + (if path != "" then "/" + path else "")
  }

  /** Different paths give different links. */
  lemma BuildHrefInjective(locale: string, p: string, q: string)
    requires BuildHref(locale, p) == BuildHref(locale, q)
    ensures p == q
  {
    if p != "" && q != "" {
      var n := |"/" + locale + "/"|;
      assert p == BuildHref(locale, p)[n..];
      assert q == BuildHref(locale, q)[n..];
    }
  }

  /** `isActive(itemHref)` (lines 45-50), for the pathname `usePathname`
      gives (`None` before it is known). An empty pathname is falsy too. */
  function IsActive(locale: string, pathname: Option<string>, itemPath: string): (active: bool)
    ensures pathname.None? || pathname == Some("") ==> !active
    ensures itemPath == "" ==> (active <==> pathname == Some("/" + locale))
    ensures itemPath != "" ==> (active <==> pathname.Some? && StartsWith(pathname.value, BuildHref(locale, itemPath)))
  {
    var full := BuildHref(locale, itemPath);
    if pathname.None? || pathname.value == "" then false
    else if full == "/" + locale then pathname.value == full
    else StartsWith(pathname.value, full)
  }

  /** The item a link points to is active on the page that link leads to, and
      on every page below it unless it is the home item. */
  lemma ActiveOnOwnPage(locale: string, itemPath: string, below: string)
    ensures IsActive(locale, Some(BuildHref(locale, itemPath)), itemPath)
    ensures itemPath != "" ==> IsActive(locale, Some(BuildHref(locale, itemPath) + below), itemPath)
  {
    var href := BuildHref(locale, itemPath);
    assert (href + below)[..|href|] == href;
  }

  /** The active test on other items is a plain prefix test, not a segment
      test: `/tr/videos2` activates `videos`. */
  lemma PrefixNotSegment()
    ensures IsActive("tr", Some("/tr/videos2"), "videos")
  {
    assert "/tr/videos2"[..|"/tr/videos"|] == "/tr/videos";
  }

  /** `switchLocalePath(target)` (lines 52-57): segment 1 of the `/`-split
      pathname becomes the target locale. */
  function SwitchLocalePath(pathname: Option<string>, target: string): (path: string)
    ensures path != ""
    ensures pathname.None? || pathname == Some("") ==> path == "/" + target
  {
    if pathname.None? || pathname.value == "" then "/" + target
    else
      var segments := Split(pathname.value, '/');
      var replaced := if |segments| > 1 then segments[1 := target] else segments;
      var joined := Join(replaced, '/');
      if joined != "" then joined else "/" + target
  }

  /** A join of more than one part holds the separator, so it is not empty. */
  lemma JoinManyNonEmpty(parts: seq<string>, sep: char)
    requires |parts| > 1
    ensures Join(parts, sep) != []
  {
    assert Join(parts, sep) == parts[0] + [sep] + Join(parts[1..], sep);
  }

  /** Switching replaces segment 1 only: the result has as many segments as
      the path, segment 1 is the target and every other segment is unchanged.
      A path without a `/` comes back as it was. */
  lemma {:induction false} SwitchReplacesSegment(pathname: string, target: string)
    requires pathname != ""
    requires '/' !in target
    ensures '/' in pathname ==>
              && |Split(pathname, '/')| > 1
              && Split(SwitchLocalePath(Some(pathname), target), '/') == Split(pathname, '/')[1 := target]
    ensures '/' !in pathname ==> SwitchLocalePath(Some(pathname), target) == pathname
  {
    var segments := Split(pathname, '/');
    SplitMany(pathname, '/');
    if '/' in pathname {
      var replaced := segments[1 := target];
      JoinManyNonEmpty(replaced, '/');
      assert forall i | 0 <= i < |replaced| :: '/' !in replaced[i] by {
        forall i | 0 <= i < |replaced| ensures '/' !in replaced[i] {
          if i != 1 { assert replaced[i] == segments[i]; }
        }
      }
      SplitJoin(replaced, '/');
    } else {
      JoinSplit(pathname, '/');
    }
  }

  /** Switching to another locale and back to the path's own segment 1 gives
      the path back. */
  lemma {:induction false} SwitchRoundTrip(pathname: string, target: string)
    requires '/' in pathname
    requires '/' !in target
    ensures |Split(pathname, '/')| > 1
    ensures var original := Split(pathname, '/')[1];
            SwitchLocalePath(Some(SwitchLocalePath(Some(pathname), target)), original) == pathname
  {
    var segments := Split(pathname, '/');
    SplitMany(pathname, '/');
    var original := segments[1];
    var switched := SwitchLocalePath(Some(pathname), target);
    SwitchReplacesSegment(pathname, target);
    var back := Split(switched, '/')[1 := original];
    assert back == segments;
    JoinSplit(pathname, '/');
  }

  /** A path of several segments switches to the join of its segments with
      segment 1 replaced. */
  lemma SwitchBySegments(pathname: string, target: string)
    requires |Split(pathname, '/')| > 1
    ensures SwitchLocalePath(Some(pathname), target) == Join(Split(pathname, '/')[1 := target], '/')
  {
    JoinManyNonEmpty(Split(pathname, '/')[1 := target], '/');
    assert pathname != "";
  }

  /** The segments of a built link: empty, the locale, then the path's segments. */
  lemma {:induction false} BuiltLinkSegments(locale: string, path: string)
    requires '/' !in locale
    ensures path == "" ==> Split(BuildHref(locale, path), '/') == ["", locale]
    ensures path != "" ==> Split(BuildHref(locale, path), '/') == ["", locale] + Split(path, '/')
  {
    var href := BuildHref(locale, path);
    if path == "" {
      assert href == [] + ['/'] + locale;
      SplitCons([], locale, '/');
      SplitNoSep(locale, '/');
    } else {
      assert href == [] + ['/'] + (locale + ['/'] + path);
      SplitCons([], locale + ['/'] + path, '/');
      SplitCons(locale, path, '/');
    }
  }

  /** Switching the locale of a link built for one locale gives the link built
      for the target locale. */
  lemma {:induction false} SwitchBuiltLink(locale: string, path: string, target: string)
    requires '/' !in locale && '/' !in target
    ensures SwitchLocalePath(Some(BuildHref(locale, path)), target) == BuildHref(target, path)
  {
    var href := BuildHref(locale, path);
    BuiltLinkSegments(locale, path);
    SwitchBySegments(href, target);
    if path == "" {
      assert Split(href, '/')[1 := target] == ["", target];
      JoinRootLink(target);
    } else {
      var tail := Split(path, '/');
      assert Split(href, '/')[1 := target] == ["", target] + tail;
      JoinSplit(path, '/');
      JoinPathLink(target, path, tail);
    }
  }

  /** Joining the segments of a bare locale link rebuilds it. */
  lemma JoinRootLink(target: string)
    ensures Join(["", target], '/') == BuildHref(target, "")
  {
    var replaced := ["", target];
    assert replaced[1..] == [target];
    assert Join(replaced, '/') == "" + ['/'] + target;
  }

  /** Joining the segments of a locale link with a path rebuilds it. */
  lemma JoinPathLink(target: string, path: string, tail: seq<string>)
    requires |tail| >= 1 && path != "" && Join(tail, '/') == path
    ensures Join(["", target] + tail, '/') == BuildHref(target, path)
  {
    RegroupFront("", target, tail);
    JoinCons("", [target] + tail, '/');
    JoinCons(target, tail, '/');
    LinkShape(target, path);
  }

  /** A two-element front regroups as one element, then the rest. */
  lemma RegroupFront<T>(a: T, b: T, tail: seq<T>)
    ensures [a, b] + tail == [a] + ([b] + tail)
  {
  }

  /** A link with a path is a slash, the locale, a slash and the path. */
  lemma LinkShape(target: string, path: string)
    requires path != ""
    ensures "" + ['/'] + (target + ['/'] + path) == BuildHref(target, path)
  {
  }
}
