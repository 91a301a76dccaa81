/** The edge middleware of middleware.ts: a guard that sends visitors without
    the access-token cookie away from the admin dashboard, a bypass for
    framework and API paths and for files, and a redirect that puts a locale
    in front of every other path that has none. The locale negotiated from
    the request's `Accept-Language` header is an input. */
module Middleware {
  import opened Strings

  /** i18n.ts:2-3 */
  const LOCALES: seq<string> := ["tr", "en"]
  const DEFAULT_LOCALE := "tr"

  const ADMIN_DASHBOARD := "/admin/dashboard"
  const ADMIN_LOGIN := "/" + DEFAULT_LOCALE + "/admin/login"

  /** What the middleware answers: let the request through, or redirect it to a path. */
  datatype Decision = Next | Redirect(target: string)

  /** The admin guard fires: a dashboard path and no `kovancilar_access_token`
      cookie. A cookie that is present counts whatever its value, since
      `cookies.get` gives an object. */
  predicate Guarded(pathname: string, hasCookie: bool) {
    Contains(pathname, ADMIN_DASHBOARD) && !hasCookie
  }

  /** Framework assets, API routes and anything that looks like a file. */
  predicate Bypassed(pathname: string) {
    StartsWith(pathname, "/_next") || StartsWith(pathname, "/api") || '.' in pathname
  }

  /** The path is `/locale` or lies under `/locale/`. */
  predicate UnderLocale(pathname: string, locale: string) {
    pathname == "/" + locale || StartsWith(pathname, "/" + locale + "/")
  }

  /** `i18n.locales.some(...)` */
  predicate HasLocale(pathname: string) {
    exists i | 0 <= i < |LOCALES| :: UnderLocale(pathname, LOCALES[i])
  }

  /** The locale redirect target: the locale, a slash when the path lacks a
      leading one, and the path. */
  function LocalePath(pathname: string, locale: string): (t: string)
    ensures StartsWith(pathname, "/") ==> t == "/" + locale + pathname
    ensures !StartsWith(pathname, "/") ==> t == "/" + locale + "/" + pathname
  {
    "/" + locale + (if StartsWith(pathname, "/") then "" else "/") + pathname
  }

  /** `middleware(request)` (middleware.ts:25-63). */
  function Decide(pathname: string, hasCookie: bool, locale: string): (d: Decision)
    ensures Guarded(pathname, hasCookie) ==> d == Redirect(ADMIN_LOGIN)
    ensures d.Next? <==> !Guarded(pathname, hasCookie) && (Bypassed(pathname) || HasLocale(pathname))
    ensures d.Redirect? && !Guarded(pathname, hasCookie) ==> d.target == LocalePath(pathname, locale)
  {
    if Guarded(pathname, hasCookie) then Redirect(ADMIN_LOGIN)
    else if Bypassed(pathname) then Next
    else if !HasLocale(pathname) then Redirect(LocalePath(pathname, locale))
    else Next
  }

  /** A path has a locale exactly when it is `/tr` or `/en` or lies under
      `/tr/` or `/en/`. */
  lemma HasLocaleCases(pathname: string)
    ensures HasLocale(pathname) <==>
              || pathname == "/tr" || pathname == "/en"
              || StartsWith(pathname, "/tr/") || StartsWith(pathname, "/en/")
  {
    if UnderLocale(pathname, LOCALES[0]) || UnderLocale(pathname, LOCALES[1]) {
      assert HasLocale(pathname);
    }
  }

  /** The test is on whole segments: `/trx` has no locale. */
  lemma NoLocaleInTrx()
    ensures !HasLocale("/trx")
  {
    HasLocaleCases("/trx");
    assert !StartsWith("/trx", "/tr/") by { assert "/trx"[3] != "/tr/"[3]; }
    assert !StartsWith("/trx", "/en/") by { assert "/trx"[1] != "/en/"[1]; }
  }

  /** A string too short to hold `sub` does not contain it. */
  lemma ShortNotContains(s: string, sub: string)
    requires |s| < |sub|
    ensures !Contains(s, sub)
  {
    if Contains(s, sub) {
      var i := ContainsWitness(s, sub);
    }
  }

  /** A locale of two letters followed by a path that starts with `/`: any
      occurrence of the dashboard marker lies inside the path. */
  lemma {:induction false} DashboardInsidePath(locale: string, pathname: string)
    requires locale in LOCALES
    requires StartsWith(pathname, "/")
    requires Contains("/" + locale + pathname, ADMIN_DASHBOARD)
    ensures Contains(pathname, ADMIN_DASHBOARD)
  {
    var t := "/" + locale + pathname;
    var i := ContainsWitness(t, ADMIN_DASHBOARD);
    MarkerHead(t[i..i + |ADMIN_DASHBOARD|]);
    SlashAfterLocale(locale, pathname, i);
    ShiftedOccurrence(locale, pathname, ADMIN_DASHBOARD, i);
  }

  /** The dashboard marker opens with `/a`. */
  lemma MarkerHead(w: string)
    requires w == ADMIN_DASHBOARD
    ensures |w| >= 2 && w[0] == '/' && w[1] == 'a'
  {
  }

  /** In `/` + locale + path, a `/` followed by `a` lies inside the path. */
  lemma SlashAfterLocale(locale: string, pathname: string, i: nat)
    requires locale in LOCALES
    requires i + 1 < |"/" + locale + pathname|
    requires ("/" + locale + pathname)[i] == '/' && ("/" + locale + pathname)[i + 1] == 'a'
    ensures i >= 3
  {
    var t := "/" + locale + pathname;
    assert locale == "tr" || locale == "en";
    assert t[1] == locale[0] && t[2] == locale[1];
  }

  /** An occurrence in `/` + locale + path past the locale is an occurrence in the path. */
  lemma ShiftedOccurrence(locale: string, pathname: string, sub: string, i: nat)
    requires |locale| == 2 && i >= 3
    requires i + |sub| <= |"/" + locale + pathname|
    requires ("/" + locale + pathname)[i..i + |sub|] == sub
    ensures Contains(pathname, sub)
  {
    var t := "/" + locale + pathname;
    assert t[3..] == pathname;
    assert t[i..i + |sub|] == t[3..][i - 3..i - 3 + |sub|];
    ContainsAt(pathname, sub, i - 3);
  }

  /** Redirects settle: when the negotiated locale is a configured one and the
      path starts with `/` (as request paths do) or the cookie is present, a
      redirect's target passes straight through on the next request with the
      same cookie, whatever locale that request negotiates. */
  lemma {:induction false} RedirectSettles(pathname: string, hasCookie: bool, locale: string, nextLocale: string)
    requires locale in LOCALES
    requires StartsWith(pathname, "/") || hasCookie
    requires Decide(pathname, hasCookie, locale).Redirect?
    ensures Decide(Decide(pathname, hasCookie, locale).target, hasCookie, nextLocale) == Next
  {
    if Guarded(pathname, hasCookie) {
      LoginSettles(hasCookie, nextLocale);
    } else {
      LocalePathUnguarded(pathname, hasCookie, locale);
      LocalePathHasLocale(pathname, locale);
    }
  }

  /** The login page passes through the middleware. */
  lemma LoginSettles(hasCookie: bool, nextLocale: string)
    ensures Decide(ADMIN_LOGIN, hasCookie, nextLocale) == Next
  {
    ShortNotContains(ADMIN_LOGIN, ADMIN_DASHBOARD);
    assert UnderLocale(ADMIN_LOGIN, LOCALES[0]) by { assert ADMIN_LOGIN[..4] == "/tr/"; }
  }

  /** A locale redirect of a path that escaped the guard escapes it again. */
  lemma LocalePathUnguarded(pathname: string, hasCookie: bool, locale: string)
    requires locale in LOCALES
    requires StartsWith(pathname, "/") || hasCookie
    requires !Guarded(pathname, hasCookie)
    ensures !Guarded(LocalePath(pathname, locale), hasCookie)
  {
    if !hasCookie && Contains(LocalePath(pathname, locale), ADMIN_DASHBOARD) {
      DashboardInsidePath(locale, pathname);
    }
  }

  /** A locale redirect target lies under that locale. */
  lemma LocalePathHasLocale(pathname: string, locale: string)
    requires locale in LOCALES
    ensures HasLocale(LocalePath(pathname, locale))
  {
    var t := LocalePath(pathname, locale);
    var prefix := "/" + locale + "/";
    var rest := if StartsWith(pathname, "/") then pathname[1..] else pathname;
    assert t == prefix + rest by {
      if StartsWith(pathname, "/") {
        assert pathname == "/" + pathname[1..];
      }
    }
    assert UnderLocale(t, locale) by { assert t[..|prefix|] == prefix; }
    var k :| 0 <= k < |LOCALES| && LOCALES[k] == locale;
  }

  /** A short path without a leading slash, a dot or a locale escapes the
      guard and is redirected with a slash inserted. */
  lemma SlashlessRedirect(p: string, locale: string)
    requires 0 < |p| < |ADMIN_DASHBOARD| && p[0] != '/' && '.' !in p
    ensures Decide(p, false, locale) == Redirect("/" + locale + "/" + p)
  {
    ShortNotContains(p, ADMIN_DASHBOARD);
    HasLocaleCases(p);
  }

  /** The precondition above is needed: a path without its leading slash
      that ends in `admin/dashboard` escapes the guard on the first request,
      and its redirect target is then sent to the login page. */
  lemma SlashlessDashboard(p: string)
    requires p == "admin/dashboard"
    ensures Decide(p, false, DEFAULT_LOCALE) == Redirect("/tr/" + p)
    ensures Decide("/tr/" + p, false, DEFAULT_LOCALE) == Redirect(ADMIN_LOGIN)
  {
    assert p[0] == 'a' && '.' !in p;
    SlashlessRedirect(p, DEFAULT_LOCALE);
    var t := "/tr/" + p;
    assert t == "/tr" + ADMIN_DASHBOARD;
    assert t[3..] == ADMIN_DASHBOARD;
    ContainsAt(t, ADMIN_DASHBOARD, 3);
  }
}
