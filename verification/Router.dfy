/**
 The request router, written twice: next-js-boilerplate/src/proxy.ts and its port
 tanstack-boilerplate/src/start.ts. Only the routing decision is modelled: which path and status
 is answered, and which language cookie is set. Query strings and other headers are left out.
 `accepted` is the locale negotiated from Accept-Language, which is always a supported one.
 */
module Router {
  import opened Wrappers

  datatype Config = Config(versions: seq<string>, locales: seq<string>, defaultVersion: string, defaultLocale: string)
  {
    predicate Valid() {
      && defaultVersion in versions && defaultLocale in locales
      && (forall i :: 0 <= i < |versions| ==> Segment(versions[i]))
      && (forall i :: 0 <= i < |locales| ==> Segment(locales[i]))
    }
  }

  const SHIPPED := Config(["v1"], ["en", "tr"], "v1", "en")

  /** The shipped defaults are a supported version and locale, and the version looks like one. */
  lemma ShippedIsValid()
    ensures SHIPPED.Valid() && IsVersionLike(SHIPPED.defaultVersion)
  {
    assert |SHIPPED.locales| == 2 && SHIPPED.locales[0] == "en" && SHIPPED.locales[1] == "tr";
  }

  const LOGIN_PATH := "/auth/login"

  /** A non-empty string without slashes. */
  predicate Segment(s: string) {
    s != "" && '/' !in s
  }

  /** `/^v\d+$/` */
  predicate IsVersionLike(s: string) {
    |s| >= 2 && s[0] == 'v' && forall i :: 1 <= i < |s| ==> '0' <= s[i] <= '9'
  }

  // ---------------------------------------------------------------- paths

  /** JavaScript's `split("/")`. */
  function Split(s: string): (parts: seq<string>)
    ensures parts != [] && forall i :: 0 <= i < |parts| ==> '/' !in parts[i]
  {
    if s == "" then [""]
    else if s[0] == '/' then [""] + Split(s[1..])
    else
      var r := Split(s[1..]);
      [[s[0]] + r[0]] + r[1..]
  }

  function Join(parts: seq<string>): string {
    if parts == [] then "" else if |parts| == 1 then parts[0] else parts[0] + "/" + Join(parts[1..])
  }

  /** `filter(Boolean)` */
  function NonEmpty(parts: seq<string>): (r: seq<string>)
    ensures (forall i :: 0 <= i < |parts| ==> '/' !in parts[i]) ==> forall i :: 0 <= i < |r| ==> Segment(r[i])
  {
    if parts == [] then [] else (if parts[0] != "" then [parts[0]] else []) + NonEmpty(parts[1..])
  }

  function Segments(path: string): seq<string> {
    NonEmpty(Split(path))
  }

  function FirstSegment(path: string): string {
    if |Split(path)| > 1 then Split(path)[1] else ""
  }

  /** The non-empty segments from the third on. */
  function Tail(path: string): seq<string> {
    if |Segments(path)| <= 2 then [] else Segments(path)[2..]
  }

  // ---------------------------------------------------------------- the two ports

  datatype Visitor = Visitor(hasToken: bool, langCookie: Option<string>, accepted: string)

  datatype Response =
    | Redirect(to: string, status: int, setLang: Option<string>)
    | NotFound
    | Bypassed
    | Secured
    | Passed(lang: string, setLangOnPass: bool)

  function ResolveLocale(c: Config, v: Visitor): string {
    if v.langCookie.Some? && v.langCookie.value in c.locales then v.langCookie.value else v.accepted
  }

  /** A falsy cookie counts as absent when the page is served. */
  function LangCookieAbsent(v: Visitor): bool {
    v.langCookie.None? || v.langCookie.value == ""
  }

  /**
   The two ports, branch by branch. The last segment test of the version branch never fails: a
   version-like first segment is itself a non-empty segment (VersionedPath).
   */
  datatype Port = NextJs | TanStack(serverFn: bool)

  /** The matcher of proxy.ts leaves these prefixes to Next.js itself. */
  predicate MatcherSkips(path: string) {
    "/api" <= path || "/_next/static" <= path || "/_next/image" <= path
    || (|path| >= 12 && "/favicon" <= path && path[9..12] == "ico")
  }

  function Proxy(c: Config, path: string, v: Visitor): Response {
    if MatcherSkips(path) then Bypassed
    else if path == "/old-about" then Redirect("/about", 308, None)
    else if path == "/i18n" || path == "/i18n/" then
      var locale := ResolveLocale(c, v);
      Redirect("/i18n/" + locale, 307, Some(locale))
    else if "/i18n/" <= path && |Split(path)| > 2 && Split(path)[2] != "" && Split(path)[2] !in c.locales then NotFound
    else if IsVersionLike(FirstSegment(path)) && Segments(path) != [] then
      var parts := Segments(path);
      if parts[0] !in c.versions then Redirect("/" + Join([c.defaultVersion] + parts[1..]), 308, None)
      else if |parts| == 1 then
        var locale := ResolveLocale(c, v);
        Redirect("/" + parts[0] + "/" + locale, 307, Some(locale))
      else if parts[1] !in c.locales then
        Redirect("/" + Join([parts[0], c.defaultLocale] + parts[2..]), 307, Some(c.defaultLocale))
      else if !v.hasToken then Redirect(LOGIN_PATH, 302, None)
      else Passed(ResolveLocale(c, v), LangCookieAbsent(v))
    else if "/security" <= path then Secured
    else if "/dashboard" <= path && !v.hasToken then Redirect("/auth/login", 302, None)
    else Passed(ResolveLocale(c, v), LangCookieAbsent(v))
  }

  function Middleware(c: Config, path: string, v: Visitor, serverFn: bool): Response {
    if serverFn || path == "/api" || "/api/" <= path || "/_serverFn" <= path then Bypassed
    else if path == "/old-about" then Redirect("/about", 308, None)
    else if path == "/i18n" || path == "/i18n/" then
      var locale := ResolveLocale(c, v);
      Redirect("/i18n/" + locale, 307, Some(locale))
    else if "/i18n/" <= path && |Split(path)| > 2 && Split(path)[2] != "" && Split(path)[2] !in c.locales then NotFound
    else if IsVersionLike(FirstSegment(path)) && Segments(path) != [] then
      var parts := Segments(path);
      if parts[0] !in c.versions then Redirect("/" + Join([c.defaultVersion] + parts[1..]), 308, None)
      else if |parts| == 1 then
        var locale := ResolveLocale(c, v);
        Redirect("/" + parts[0] + "/" + locale, 307, Some(locale))
      else if parts[1] !in c.locales then
        Redirect("/" + Join([parts[0], c.defaultLocale] + parts[2..]), 307, Some(c.defaultLocale))
      else if !v.hasToken then Redirect(LOGIN_PATH, 302, None)
      else Passed(ResolveLocale(c, v), LangCookieAbsent(v))
    else if "/security" <= path then Secured
    else if (path == "/dashboard" || "/dashboard/" <= path) && !v.hasToken then Redirect(LOGIN_PATH, 302, None)
    else Passed(ResolveLocale(c, v), LangCookieAbsent(v))
  }

  function Decide(port: Port, c: Config, path: string, v: Visitor): Response {
    match port
    case NextJs => Proxy(c, path, v)
    case TanStack(serverFn) => Middleware(c, path, v, serverFn)
  }

  predicate Possible(c: Config, path: string, v: Visitor) {
    c.Valid() && |path| > 0 && path[0] == '/' && v.accepted in c.locales
  }

  // ---------------------------------------------------------------- splitting and joining

  lemma {:induction false} SplitSegment(s: string, rest: string)
    requires '/' !in s
    ensures Split(s) == [s]
    ensures Split(s + "/" + rest) == [s] + Split(rest)
  {
    if s == "" {
      assert "" + "/" + rest == "/" + rest;
      assert ("/" + rest)[1..] == rest;
    } else {
      SplitSegment(s[1..], rest);
      assert (s + "/" + rest)[1..] == s[1..] + "/" + rest;
      assert s == [s[0]] + s[1..];
    }
  }

  /** Joining segments and splitting the path gives the segments back. */
  lemma {:induction false} SplitOfJoin(parts: seq<string>)
    requires parts != [] && forall i :: 0 <= i < |parts| ==> Segment(parts[i])
    ensures Split(Join(parts)) == parts
    ensures Split("/" + Join(parts)) == [""] + parts
    ensures Segments("/" + Join(parts)) == parts && FirstSegment("/" + Join(parts)) == parts[0]
  {
    assert Segment(parts[0]);
    if |parts| == 1 {
      SplitSegment(parts[0], "");
      assert [parts[0]] == parts;
    } else {
      SplitOfJoin(parts[1..]);
      SplitSegment(parts[0], Join(parts[1..]));
      assert [parts[0]] + parts[1..] == parts;
    }
    var path := "/" + Join(parts);
    assert path[1..] == Join(parts);
    NonEmptyKeeps(parts);
    assert ([""] + parts)[1..] == parts;
  }

  lemma {:induction false} NonEmptyKeeps(parts: seq<string>)
    requires forall i :: 0 <= i < |parts| ==> Segment(parts[i])
    ensures NonEmpty(parts) == parts
  {
    if parts != [] {
      assert Segment(parts[0]);
      NonEmptyKeeps(parts[1..]);
    }
  }

  /** A path's first segment starts with the character after the leading slash. */
  lemma FirstSegmentStarts(path: string)
    requires |path| > 1 && path[0] == '/' && path[1] != '/'
    ensures FirstSegment(path) != "" && FirstSegment(path)[0] == path[1]
    ensures Segments(path) != [] && Segments(path)[0] == FirstSegment(path)
  {
    var s := path[1..];
    assert Split(path) == [""] + Split(s);
    assert Split(s)[0][0] == s[0];
    assert ([""] + Split(s))[1..] == Split(s);
    assert NonEmpty(Split(path)) == [] + NonEmpty(Split(s));
  }

  lemma SplitHead(s: string)
    ensures s == "" || s[0] == '/' ==> Split(s)[0] == ""
  {
  }

  /** A version-like first segment is the first non-empty segment, and starts with a v. */
  lemma VersionedPath(path: string)
    requires |path| > 0 && path[0] == '/' && IsVersionLike(FirstSegment(path))
    ensures |path| > 1 && path[1] == 'v' && Segments(path) != [] && Segments(path)[0] == FirstSegment(path)
  {
    var s := path[1..];
    assert Split(path) == [""] + Split(s);
    SplitHead(s);
    FirstSegmentStarts(path);
  }

  // ---------------------------------------------------------------- redirects terminate

  /** How many redirects a path can still lead through. */
  function Rank(c: Config, path: string, v: Visitor): nat {
    if !Proxy(c, path, v).Redirect? then 0
    else if !IsVersionLike(FirstSegment(path)) || Segments(path) == [] then 1
    else if Segments(path)[0] !in c.versions then 3
    else if |Segments(path)| == 1 || Segments(path)[1] !in c.locales then 2
    else 1
  }

  /** The cookie jar after a response. */
  function After(v: Visitor, r: Response): Visitor {
    if r.Redirect? && r.setLang.Some? then v.(langCookie := r.setLang) else v
  }

  lemma ResolvedIsLocale(c: Config, v: Visitor)
    requires c.Valid() && v.accepted in c.locales
    ensures ResolveLocale(c, v) in c.locales && Segment(ResolveLocale(c, v))
  {
    var locale := ResolveLocale(c, v);
    var i :| 0 <= i < |c.locales| && c.locales[i] == locale;
  }

  lemma DefaultsAreSegments(c: Config)
    requires c.Valid()
    ensures Segment(c.defaultVersion) && Segment(c.defaultLocale)
  {
    var i :| 0 <= i < |c.versions| && c.versions[i] == c.defaultVersion;
    var j :| 0 <= j < |c.locales| && c.locales[j] == c.defaultLocale;
  }

  /** A path of a known version and locale leads at most to the login page. */
  lemma LocalizedPathRank(c: Config, path: string, v: Visitor)
    requires Possible(c, path, v) && IsVersionLike(FirstSegment(path))
    requires |Segments(path)| >= 2 && Segments(path)[0] in c.versions && Segments(path)[1] in c.locales
    ensures Rank(c, path, v) <= 1 && (Proxy(c, path, v).Redirect? ==> Proxy(c, path, v).to == LOGIN_PATH)
  {
    VersionedPath(path);
  }

  /** A path whose first segment is not version-like is redirected only by its own name. */
  lemma UnversionedRoute(c: Config, path: string, v: Visitor)
    requires !IsVersionLike(FirstSegment(path)) && path != "/old-about" && path != "/i18n" && path != "/i18n/"
    requires !("/dashboard" <= path)
    ensures !Proxy(c, path, v).Redirect?
  {
  }

  lemma AboutIsFinal(c: Config, v: Visitor)
    ensures !Proxy(c, "/about", v).Redirect?
  {
    var path := "/about";
    FirstSegmentStarts(path);
    assert path[1] == 'a' && path[2] == 'b';
    UnversionedRoute(c, path, v);
  }

  lemma LoginIsFinal(c: Config, v: Visitor)
    ensures !Proxy(c, LOGIN_PATH, v).Redirect?
  {
    var path := LOGIN_PATH;
    FirstSegmentStarts(path);
    assert path[1] == 'a';
    UnversionedRoute(c, path, v);
  }

  lemma LocalizedDemoIsFinal(c: Config, v: Visitor, locale: string)
    requires Segment(locale)
    ensures !Proxy(c, "/i18n/" + locale, v).Redirect?
  {
    var path := "/i18n/" + locale;
    FirstSegmentStarts(path);
    assert path[1] == 'i' && |path| > 6;
    UnversionedRoute(c, path, v);
  }

  /** How a versioned path is answered. */
  lemma VersionedRoute(c: Config, path: string, v: Visitor)
    requires |path| > 0 && path[0] == '/' && IsVersionLike(FirstSegment(path))
    ensures var r, parts := Proxy(c, path, v), Segments(path);
            && parts != [] && parts[0] == FirstSegment(path)
            && if parts[0] !in c.versions then r.Redirect? && r.to == "/" + Join([c.defaultVersion] + parts[1..])
               else if |parts| == 1 then r.Redirect? && r.to == "/" + parts[0] + "/" + ResolveLocale(c, v)
               else if parts[1] !in c.locales then r.Redirect? && r.to == "/" + Join([parts[0], c.defaultLocale] + parts[2..])
               else if v.hasToken then r.Passed?
               else r == Redirect(LOGIN_PATH, 302, None)
    ensures Proxy(c, path, v).Redirect? ==>
              var r, parts := Proxy(c, path, v), Segments(path);
              if parts[0] !in c.versions then r.status == 308 && r.setLang.None?
              else if |parts| == 1 then r.status == 307 && r.setLang == Some(ResolveLocale(c, v))
              else if parts[1] !in c.locales then r.status == 307 && r.setLang == Some(c.defaultLocale)
              else r.status == 302 && r.setLang.None?
  {
    VersionedPath(path);
  }

  /** The segments a versioned path is redirected to. */
  function Rewritten(c: Config, parts: seq<string>, v: Visitor): seq<string>
    requires parts != []
  {
    if parts[0] !in c.versions then [c.defaultVersion] + parts[1..]
    else if |parts| == 1 then [parts[0], ResolveLocale(c, v)]
    else [parts[0], c.defaultLocale] + parts[2..]
  }

  /** The version and locale of a versioned path are mended one at a time. */
  predicate NeedsRewrite(c: Config, parts: seq<string>) {
    parts != [] && !(parts[0] in c.versions && |parts| > 1 && parts[1] in c.locales)
  }

  lemma RewrittenIsSegments(c: Config, parts: seq<string>, v: Visitor)
    requires c.Valid() && v.accepted in c.locales
    requires parts != [] && forall i :: 0 <= i < |parts| ==> Segment(parts[i])
    ensures var target := Rewritten(c, parts, v);
            target != [] && forall i :: 0 <= i < |target| ==> Segment(target[i])
  {
    DefaultsAreSegments(c);
    ResolvedIsLocale(c, v);
  }

  lemma JoinTwo(a: string, b: string)
    ensures "/" + Join([a, b]) == "/" + a + "/" + b
  {
    assert [a, b][1..] == [b];
    assert Join([b]) == b;
  }

  lemma VersionedTarget(c: Config, path: string, v: Visitor)
    requires Possible(c, path, v) && Proxy(c, path, v).Redirect? && IsVersionLike(FirstSegment(path))
    requires Proxy(c, path, v).to != LOGIN_PATH
    ensures var parts, to := Segments(path), Proxy(c, path, v).to;
            && NeedsRewrite(c, parts)
            && to == "/" + Join(Rewritten(c, parts, v))
            && Segments(to) == Rewritten(c, parts, v) && FirstSegment(to) == Segments(to)[0] && IsVersionLike(parts[0])
  {
    VersionedRoute(c, path, v);
    var parts := Segments(path);
    RewrittenIsSegments(c, parts, v);
    SplitOfJoin(Rewritten(c, parts, v));
    JoinTwo(parts[0], ResolveLocale(c, v));
  }

  /** Each redirect leads to a path of lower rank, which keeps the tail unless it is the login page. */
  lemma RedirectsDescend(c: Config, path: string, v: Visitor)
    requires Possible(c, path, v) && Proxy(c, path, v).Redirect?
    ensures var r := Proxy(c, path, v);
            && Possible(c, r.to, After(v, r))
            && Rank(c, r.to, After(v, r)) < Rank(c, path, v) <= 3
            && (r.to != LOGIN_PATH ==> Tail(r.to) == Tail(path))
  {
    var r := Proxy(c, path, v);
    if r.to == LOGIN_PATH {
      LoginIsFinal(c, After(v, r));
    } else if IsVersionLike(FirstSegment(path)) {
      VersionedDescends(c, path, v);
    } else {
      UnversionedDescends(c, path, v);
    }
  }

  lemma VersionedDescends(c: Config, path: string, v: Visitor)
    requires Possible(c, path, v) && Proxy(c, path, v).Redirect? && IsVersionLike(FirstSegment(path))
    requires Proxy(c, path, v).to != LOGIN_PATH
    ensures var r := Proxy(c, path, v);
            && Possible(c, r.to, After(v, r))
            && Rank(c, r.to, After(v, r)) < Rank(c, path, v) <= 3
            && Tail(r.to) == Tail(path)
  {
    var r := Proxy(c, path, v);
    VersionedTarget(c, path, v);
    ResolvedIsLocale(c, v);
    RankOfVersioned(c, path, v);
    var parts, target := Segments(path), Segments(r.to);
    if parts[0] in c.versions {
      LocalizedPathRank(c, r.to, After(v, r));
    } else {
      KnownVersionRank(c, r.to, After(v, r));
    }
  }

  lemma RankOfVersioned(c: Config, path: string, v: Visitor)
    requires Possible(c, path, v) && Proxy(c, path, v).Redirect? && IsVersionLike(FirstSegment(path)) && Segments(path) != []
    ensures var parts := Segments(path);
            Rank(c, path, v) == if parts[0] !in c.versions then 3
                                else if |parts| == 1 || parts[1] !in c.locales then 2 else 1
  {
  }

  lemma KnownVersionRank(c: Config, path: string, v: Visitor)
    requires Segments(path) != [] && Segments(path)[0] in c.versions
    ensures Rank(c, path, v) <= 2
  {
  }

  /** Which redirect a path without a version gets, if any. */
  lemma UnversionedRedirect(c: Config, path: string, v: Visitor)
    requires Proxy(c, path, v).Redirect? && !IsVersionLike(FirstSegment(path)) && Proxy(c, path, v).to != LOGIN_PATH
    ensures path in ["/old-about", "/i18n", "/i18n/"]
    ensures Proxy(c, path, v).to == if path == "/old-about" then "/about" else "/i18n/" + ResolveLocale(c, v)
  {
  }

  lemma UnversionedDescends(c: Config, path: string, v: Visitor)
    requires Possible(c, path, v) && Proxy(c, path, v).Redirect? && !IsVersionLike(FirstSegment(path))
    requires Proxy(c, path, v).to != LOGIN_PATH
    ensures var r := Proxy(c, path, v);
            && Possible(c, r.to, After(v, r))
            && Rank(c, r.to, After(v, r)) < Rank(c, path, v) <= 3
            && Tail(r.to) == Tail(path)
  {
    var r := Proxy(c, path, v);
    UnversionedRedirect(c, path, v);
    if path == "/old-about" {
      ShortAbout(path, r.to);
      AboutIsFinal(c, After(v, r));
      FinalDescends(c, path, v);
    } else {
      ResolvedIsLocale(c, v);
      ShortDemo(path, r.to, ResolveLocale(c, v));
      LocalizedDemoIsFinal(c, After(v, r), ResolveLocale(c, v));
      FinalDescends(c, path, v);
    }
  }

  lemma FinalDescends(c: Config, path: string, v: Visitor)
    requires Proxy(c, path, v).Redirect? && !IsVersionLike(FirstSegment(path))
    requires !Proxy(c, Proxy(c, path, v).to, After(v, Proxy(c, path, v))).Redirect?
    ensures var r := Proxy(c, path, v); Rank(c, r.to, After(v, r)) < Rank(c, path, v) <= 3
  {
  }

  /** A path whose only slash is its first character has at most one segment. */
  lemma OneSlash(path: string)
    requires |path| > 0 && path[0] == '/' && '/' !in path[1..]
    ensures |Segments(path)| <= 1
  {
    SplitSegment(path[1..], "");
    assert Split(path) == [""] + [path[1..]];
    NonEmptyShrinks(Split(path));
  }

  lemma TwoSlashes(path: string, a: string, b: string)
    requires path == "/" + (a + "/" + b) && '/' !in a && '/' !in b
    ensures |Segments(path)| <= 2
  {
    SplitSegment(a, b);
    SplitSegment(b, "");
    assert path[1..] == a + "/" + b;
    assert Split(path) == [""] + ([a] + [b]);
    NonEmptyShrinks(Split(path));
  }

  lemma ShortAbout(path: string, to: string)
    requires path == "/old-about" && to == "/about"
    ensures Tail(path) == [] == Tail(to)
  {
    OneSlash(path);
    OneSlash(to);
  }

  lemma ShortDemo(path: string, to: string, locale: string)
    requires Segment(locale) && (path == "/i18n" || path == "/i18n/") && to == "/i18n/" + locale
    ensures Tail(path) == [] == Tail(to)
  {
    if path == "/i18n" { OneSlash(path); } else { TwoSlashes(path, "i18n", ""); }
    TwoSlashes(to, "i18n", locale);
  }

  lemma {:induction false} NonEmptyShrinks(parts: seq<string>)
    requires parts != [] && parts[0] == ""
    ensures |NonEmpty(parts)| < |parts|
  {
    NonEmptyIsShort(parts[1..]);
  }

  lemma {:induction false} NonEmptyIsShort(parts: seq<string>)
    ensures |NonEmpty(parts)| <= |parts|
  {
    if parts != [] { NonEmptyIsShort(parts[1..]); }
  }

  /** A redirect of the port is a redirect of the original: it never redirects where the original does not. */
  lemma PortRedirectsAreProxys(c: Config, path: string, v: Visitor, serverFn: bool)
    requires Possible(c, path, v) && Middleware(c, path, v, serverFn).Redirect?
    ensures Proxy(c, path, v) == Middleware(c, path, v, serverFn)
  {
    if IsVersionLike(FirstSegment(path)) {
      VersionedPath(path);
    }
  }

  /** The paths a browser is sent through, and the response it finally gets. */
  function Follow(port: Port, c: Config, path: string, v: Visitor): (seq<string>, Response)
    requires Possible(c, path, v)
    decreases Rank(c, path, v)
  {
    var r := Decide(port, c, path, v);
    if !r.Redirect? then ([], r)
    else
      assert Proxy(c, path, v) == r by {
        if port.TanStack? { PortRedirectsAreProxys(c, path, v, port.serverFn); }
      }
      RedirectsDescend(c, path, v);
      var (hops, last) := Follow(port, c, r.to, After(v, r));
      ([r.to] + hops, last)
  }

  /**
   From any path and cookies, on either port, following redirects reaches a response that is not
   one within three hops; every path on the way but the login page keeps all non-empty segments
   from the third on.
   */
  lemma {:induction false} FollowEnds(port: Port, c: Config, path: string, v: Visitor)
    requires Possible(c, path, v)
    ensures var (hops, last) := Follow(port, c, path, v);
            && !last.Redirect?
            && |hops| <= Rank(c, path, v) <= 3
            && forall i :: 0 <= i < |hops| ==> (hops[i] == LOGIN_PATH && i == |hops| - 1) || Tail(hops[i]) == Tail(path)
    decreases Rank(c, path, v)
  {
    var r := Decide(port, c, path, v);
    if r.Redirect? {
      if port.TanStack? { PortRedirectsAreProxys(c, path, v, port.serverFn); }
      RedirectsDescend(c, path, v);
      FollowEnds(port, c, r.to, After(v, r));
      if r.to == LOGIN_PATH {
        LoginIsLast(port, c, path, After(v, r));
      }
    }
  }

  lemma LoginIsLast(port: Port, c: Config, path: string, v: Visitor)
    requires Possible(c, path, v) && Possible(c, LOGIN_PATH, v)
    ensures Follow(port, c, LOGIN_PATH, v).0 == []
  {
    LoginIsFinal(c, v);
    if port.TanStack? && Middleware(c, LOGIN_PATH, v, port.serverFn).Redirect? {
      PortRedirectsAreProxys(c, LOGIN_PATH, v, port.serverFn);
    }
  }

  /**
   How a path made of segments is answered when the first one is version-like: the version is mended
   for good, the locale for now and in the cookie, and then a visitor without a session has to log in.
   */
  lemma VersionedAnswer(c: Config, parts: seq<string>, v: Visitor)
    requires c.Valid() && v.accepted in c.locales && parts != [] && IsVersionLike(parts[0])
    requires forall i :: 0 <= i < |parts| ==> Segment(parts[i])
    ensures var r, path := Proxy(c, "/" + Join(parts), v), "/" + Join(Rewritten(c, parts, v));
            if NeedsRewrite(c, parts) then
              r == if parts[0] !in c.versions then Redirect(path, 308, None)
                   else if |parts| == 1 then Redirect(path, 307, Some(ResolveLocale(c, v)))
                   else Redirect(path, 307, Some(c.defaultLocale))
            else if v.hasToken then r.Passed?
            else r == Redirect("/auth/login", 302, None)
  {
    SplitOfJoin(parts);
    VersionedRoute(c, "/" + Join(parts), v);
    JoinTwo(parts[0], ResolveLocale(c, v));
  }

  /** The language cookie wins when it names a supported locale; otherwise the negotiated one is used. */
  lemma CookieWins(c: Config, v: Visitor)
    requires v.accepted in c.locales
    ensures forall l :: v.langCookie == Some(l) && l in c.locales ==> ResolveLocale(c, v) == l
    ensures (forall l :: v.langCookie == Some(l) ==> l !in c.locales) ==> ResolveLocale(c, v) == v.accepted
  {
  }

  /** A page that is served gets the visitor's locale, and sets the cookie exactly for a visitor without one. */
  lemma ServedPageSetsLanguage(c: Config, path: string, v: Visitor)
    requires Proxy(c, path, v).Passed?
    ensures Proxy(c, path, v).lang == ResolveLocale(c, v)
    ensures Proxy(c, path, v).setLangOnPass <==> v.langCookie == None || v.langCookie == Some("")
  {
  }

  /** Under /i18n/ a path is refused exactly when its locale segment is not empty and not supported; otherwise it passes. */
  lemma UnknownDemoLocaleIsRefused(c: Config, segment: string, rest: string, v: Visitor)
    requires '/' !in segment && (segment != "" || rest != "")
    ensures var path := "/i18n/" + segment + (if rest == "" then "" else "/" + rest);
            && (Proxy(c, path, v).NotFound? <==> segment != "" && segment !in c.locales)
            && (!Proxy(c, path, v).NotFound? ==> Proxy(c, path, v).Passed?)
  {
    var tail := segment + (if rest == "" then "" else "/" + rest);
    var path := "/i18n/" + tail;
    assert path == "/i18n/" + segment + (if rest == "" then "" else "/" + rest);
    assert path == "/" + ("i18n" + "/" + tail);
    SplitTwice(path, "i18n", tail);
    SplitSegment(segment, rest);
    assert rest == "" ==> tail == segment;
    assert rest != "" ==> tail == segment + "/" + rest;
    assert Split(path)[2] == segment;
    DemoRoute(c, path, tail, v);
  }

  lemma SplitTwice(path: string, first: string, tail: string)
    requires path == "/" + (first + "/" + tail) && '/' !in first
    ensures Split(path) == ["", first] + Split(tail)
  {
    SplitSegment(first, tail);
    assert path[1..] == first + "/" + tail;
    assert Split(path) == [""] + Split(path[1..]);
  }

  lemma DemoRoute(c: Config, path: string, tail: string, v: Visitor)
    requires path == "/i18n/" + tail && tail != "" && Split(path) == ["", "i18n"] + Split(tail)
    ensures Proxy(c, path, v).NotFound? <==> Split(path)[2] != "" && Split(path)[2] !in c.locales
    ensures !Proxy(c, path, v).NotFound? ==> Proxy(c, path, v).Passed?
  {
    assert "/i18n/" <= path && |path| > 6 && path[1] == 'i';
    assert FirstSegment(path)[0] == 'i';
  }

  /** The bare demo path leads to the visitor's locale and remembers it; the old about page has moved for good. */
  lemma NamedRedirects(c: Config, v: Visitor)
    ensures Proxy(c, "/i18n", v) == Redirect("/i18n/" + ResolveLocale(c, v), 307, Some(ResolveLocale(c, v)))
    ensures Proxy(c, "/i18n/", v) == Redirect("/i18n/" + ResolveLocale(c, v), 307, Some(ResolveLocale(c, v)))
    ensures Proxy(c, "/old-about", v) == Redirect("/about", 308, None)
  {
    NamedRedirect(c, "/i18n", v);
    NamedRedirect(c, "/i18n/", v);
    NamedRedirect(c, "/old-about", v);
  }

  lemma NamedRedirect(c: Config, path: string, v: Visitor)
    requires path in ["/i18n", "/i18n/", "/old-about"]
    ensures Proxy(c, path, v) == if path == "/old-about" then Redirect("/about", 308, None)
                                 else Redirect("/i18n/" + ResolveLocale(c, v), 307, Some(ResolveLocale(c, v)))
  {
    assert path[1] == 'i' || path[1] == 'o';
  }

  /** Dashboard paths are gated by the session, security paths get their own policy, and the api and framework paths are left alone. */
  lemma PrefixRoutes(c: Config, rest: string, v: Visitor)
    ensures Proxy(c, "/dashboard" + rest, v).Passed? <==> v.hasToken
    ensures !v.hasToken ==> Proxy(c, "/dashboard" + rest, v) == Redirect("/auth/login", 302, None)
    ensures Proxy(c, "/security" + rest, v).Secured?
    ensures Proxy(c, "/api" + rest, v).Bypassed? && Proxy(c, "/_next/static" + rest, v).Bypassed?
    ensures Proxy(c, "/_next/image" + rest, v).Bypassed? && Proxy(c, "/favicon.ico" + rest, v).Bypassed?
  {
    PrefixRoute(c, "/dashboard" + rest, v);
    PrefixRoute(c, "/security" + rest, v);
    var icon := "/favicon.ico" + rest;
    assert "/favicon" <= icon && icon[9..12] == "ico";
    assert "/api" <= "/api" + rest && "/_next/static" <= "/_next/static" + rest && "/_next/image" <= "/_next/image" + rest;
  }

  lemma PrefixRoute(c: Config, path: string, v: Visitor)
    requires "/dashboard" <= path || "/security" <= path
    ensures "/dashboard" <= path ==> Proxy(c, path, v) == if v.hasToken then Passed(ResolveLocale(c, v), LangCookieAbsent(v))
                                                          else Redirect("/auth/login", 302, None)
    ensures "/security" <= path ==> Proxy(c, path, v).Secured?
  {
    assert path[0] == '/' && (path[1] == 'd' || path[1] == 's');
    if IsVersionLike(FirstSegment(path)) { VersionedPath(path); }
  }

  /**
   The bound of three is reached by every path of an unknown version and an unknown locale: the
   version is mended, then the locale, and then a visitor without a session has to log in.
   */
  lemma ThreeHopsHappen(c: Config, parts: seq<string>, v: Visitor)
    requires c.Valid() && v.accepted in c.locales && IsVersionLike(c.defaultVersion) && !v.hasToken
    requires |parts| >= 2 && IsVersionLike(parts[0]) && parts[0] !in c.versions && parts[1] !in c.locales
    requires forall i :: 0 <= i < |parts| ==> Segment(parts[i])
    ensures Follow(NextJs, c, "/" + Join(parts), v).0
         == ["/" + Join([c.defaultVersion] + parts[1..]), "/" + Join([c.defaultVersion, c.defaultLocale] + parts[2..]), LOGIN_PATH]
  {
    var once := Rewritten(c, parts, v);
    var first, second := "/" + Join(parts), "/" + Join(once);
    VersionedAnswer(c, parts, v);
    RewrittenIsSegments(c, parts, v);
    var w := After(v, Proxy(c, first, v));
    VersionedAnswer(c, once, w);
    var twice := Rewritten(c, once, w);
    assert once[2..] == parts[2..];
    RewrittenIsSegments(c, once, w);
    var third := "/" + Join(twice);
    var x := After(w, Proxy(c, second, w));
    VersionedAnswer(c, twice, x);
    LoginIsLast(NextJs, c, third, x);
    assert Follow(NextJs, c, third, x).0 == [LOGIN_PATH];
    assert Follow(NextJs, c, second, w).0 == [third] + [LOGIN_PATH];
  }

  // ---------------------------------------------------------------- the ports agree

  /** Paths that only look like the dashboard, such as /dashboards. */
  predicate DashboardLookAlike(path: string) {
    "/dashboard" <= path && path != "/dashboard" && !("/dashboard/" <= path)
  }

  /** Paths one port leaves to its framework and the other answers, such as /apiary. */
  predicate BypassDiffers(path: string, serverFn: bool) {
    MatcherSkips(path) != (serverFn || path == "/api" || "/api/" <= path || "/_serverFn" <= path)
  }

  /** The same redirect or refusal, or on both sides neither. */
  predicate SameRoute(a: Response, b: Response) {
    a.Redirect? || b.Redirect? || a.NotFound? || b.NotFound? ==> a == b
  }

  /** The whole decision, cookies included, differs only on the two kinds of look-alikes. */
  lemma PortsAgreeExactly(c: Config, path: string, v: Visitor, serverFn: bool)
    requires Possible(c, path, v)
    ensures Proxy(c, path, v) == Middleware(c, path, v, serverFn)
       <==> !BypassDiffers(path, serverFn) && !(DashboardLookAlike(path) && !v.hasToken && !serverFn)
  {
    if IsVersionLike(FirstSegment(path)) {
      VersionedPath(path);
    }
  }

  /** Where only one port bypasses, neither redirects or refuses. */
  lemma BypassIsNoRoute(c: Config, path: string, v: Visitor)
    requires Possible(c, path, v) && BypassDiffers(path, false)
    ensures !("/dashboard" <= path)
    ensures Proxy(c, path, v).Bypassed? || Proxy(c, path, v).Passed?
    ensures Middleware(c, path, v, false).Bypassed? || Middleware(c, path, v, false).Passed?
  {
    assert path[1] == 'a' || path[1] == '_' || path[1] == 'f';
    if IsVersionLike(FirstSegment(path)) {
      VersionedPath(path);
    }
  }

  /** Both ports decide alike on a page request, except that only proxy.ts gates dashboard look-alikes. */
  lemma PortsAgree(c: Config, path: string, v: Visitor)
    requires Possible(c, path, v)
    ensures SameRoute(Proxy(c, path, v), Middleware(c, path, v, false)) <==> !(DashboardLookAlike(path) && !v.hasToken)
  {
    if BypassDiffers(path, false) {
      BypassIsNoRoute(c, path, v);
    } else if DashboardLookAlike(path) && !v.hasToken {
      GatedLookAlike(c, path, v);
    } else {
      PortsAgreeExactly(c, path, v, false);
    }
  }

  lemma GatedLookAlike(c: Config, path: string, v: Visitor)
    requires Possible(c, path, v) && DashboardLookAlike(path) && !v.hasToken
    ensures Proxy(c, path, v).Redirect? && Middleware(c, path, v, false).Passed?
  {
    assert path[1] == 'd';
    if IsVersionLike(FirstSegment(path)) {
      VersionedPath(path);
    }
  }
}
