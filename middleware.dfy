/** The edge route guard: for every request it runs on (the login pages and
    the dashboard), it decides, from the path, the query string and whether a
    session cookie is present, whether to let the request through or to
    redirect it. */
module Middleware {
  import opened Common

  datatype Decision = Next | Redirect(location: string)

  const SessionCookie := "authjs.session-token"
  const SecureSessionCookie := "__Secure-authjs.session-token"
  const AuthPrefix := "/auth"
  const DashboardPrefix := "/dashboard"
  const LoginPath := "/auth/login"
  const FromParam := "?from="

  /** A request counts as authenticated when either session cookie is sent,
      whatever its value. */
  predicate IsAuth(cookies: map<string, string>)
  {
    SessionCookie in cookies || SecureSessionCookie in cookies
  }

  /** The page to come back to after logging in. */
  function From(pathname: string, search: string): string
  {
    if search != "" then pathname + search else pathname
  }

  function LoginLocation(from: string, encode: string -> string): string
  {
    LoginPath + FromParam + encode(from)
  }

  /** `encodeURIComponent` is left abstract; it is injective. */
  ghost predicate Injective(encode: string -> string)
  {
    forall a, b :: encode(a) == encode(b) ==> a == b
  }

  function Decide(pathname: string, search: string, cookies: map<string, string>,
                  encode: string -> string): (d: Decision)
    ensures StartsWith(pathname, AuthPrefix) && IsAuth(cookies) ==>
              d == Redirect(DashboardPrefix)
    ensures StartsWith(pathname, DashboardPrefix) && !IsAuth(cookies) ==>
              d == Redirect(LoginLocation(From(pathname, search), encode))
    ensures d == Next <==>
              (StartsWith(pathname, AuthPrefix) ==> !IsAuth(cookies)) &&
              (StartsWith(pathname, DashboardPrefix) ==> IsAuth(cookies))
  {
    var isAuth := IsAuth(cookies);
    var isAuthPage := StartsWith(pathname, AuthPrefix);
    var isDashboard := StartsWith(pathname, DashboardPrefix);
    if isAuthPage && isAuth then
      Redirect(DashboardPrefix)
    else if isDashboard && !isAuth then
      Redirect(LoginLocation(From(pathname, search), encode))
    else
      Next
  }

  /** No path lies under both prefixes, so at most one redirect rule applies. */
  lemma PrefixesExclusive(pathname: string)
    ensures !(StartsWith(pathname, AuthPrefix) && StartsWith(pathname, DashboardPrefix))
  {
    if StartsWith(pathname, AuthPrefix) {
      assert pathname[1] == AuthPrefix[1] != DashboardPrefix[1];
    }
  }

  /** Paths outside both areas are never redirected. */
  lemma OtherPathsPass(pathname: string, search: string, cookies: map<string, string>,
                       encode: string -> string)
    requires !StartsWith(pathname, AuthPrefix) && !StartsWith(pathname, DashboardPrefix)
    ensures Decide(pathname, search, cookies, encode) == Next
  {
  }

  /** A logged-in user on the dashboard, and an anonymous user on the
      login pages, both pass through. */
  lemma OwnAreaPasses(pathname: string, search: string, cookies: map<string, string>,
                      encode: string -> string)
    ensures StartsWith(pathname, DashboardPrefix) && IsAuth(cookies) ==>
              Decide(pathname, search, cookies, encode) == Next
    ensures StartsWith(pathname, AuthPrefix) && !IsAuth(cookies) ==>
              Decide(pathname, search, cookies, encode) == Next
  {
    PrefixesExclusive(pathname);
  }

  /** The decision depends on which session cookies are present, never on
      their values or on other cookies. */
  lemma CookieValuesIrrelevant(pathname: string, search: string,
                               c1: map<string, string>, c2: map<string, string>,
                               encode: string -> string)
    requires (SessionCookie in c1 <==> SessionCookie in c2)
    requires (SecureSessionCookie in c1 <==> SecureSessionCookie in c2)
    ensures Decide(pathname, search, c1, encode) == Decide(pathname, search, c2, encode)
  {
  }

  /** A URL path never holds a "?"; a query string is empty or starts
      with one. */
  predicate IsPath(pathname: string)
  {
    forall i :: 0 <= i < |pathname| ==> pathname[i] != '?'
  }

  predicate IsSearch(search: string)
  {
    search == "" || search[0] == '?'
  }

  /** The path of the other request cannot be longer: at its end `from`
      holds either nothing or the "?" opening the query string, and a path
      holds no "?". */
  lemma {:induction false} FromPathNotLonger(p1: string, s1: string, p2: string, s2: string)
    requires IsPath(p2) && IsSearch(s1)
    requires From(p1, s1) == From(p2, s2)
    ensures |p2| <= |p1|
  {
    assert p1 + "" == p1 && p2 + "" == p2;
    var f := p1 + s1;
    assert f == From(p1, s1) && f == p2 + s2;
    if s1 != "" {
      assert (p2 + s2)[|p1|] == s1[0] == '?';
    }
  }

  /** `from` records the path and the query string exactly: two requests
      with the same `from` had the same path and the same query string. */
  lemma {:induction false} FromDeterminesRequest(p1: string, s1: string, p2: string, s2: string)
    requires IsPath(p1) && IsPath(p2) && IsSearch(s1) && IsSearch(s2)
    ensures From(p1, s1) == From(p2, s2) ==> p1 == p2 && s1 == s2
  {
    if From(p1, s1) == From(p2, s2) {
      FromPathNotLonger(p1, s1, p2, s2);
      FromPathNotLonger(p2, s2, p1, s1);
      assert p1 + "" == p1 && p2 + "" == p2;
      var f := p1 + s1;
      assert f == p2 + s2;
      assert p1 == f[..|p1|] && p2 == f[..|p2|];
      assert s1 == f[|p1|..] && s2 == f[|p2|..];
    }
  }

  /** Following a redirect does not redirect again: the dashboard lets the
      authenticated user in, and the login page lets the anonymous one in. */
  lemma {:induction false} RedirectTargetsPass(pathname: string, search: string,
                                              cookies: map<string, string>,
                                              encode: string -> string)
    ensures Decide(pathname, search, cookies, encode) == Redirect(DashboardPrefix) ==>
              Decide(DashboardPrefix, "", cookies, encode) == Next
    ensures Decide(pathname, search, cookies, encode).Redirect? && !IsAuth(cookies) ==>
              Decide(LoginPath, FromParam + encode(From(pathname, search)), cookies, encode) == Next
  {
    assert StartsWith(DashboardPrefix, DashboardPrefix);
    assert StartsWith(LoginPath, AuthPrefix) by { assert LoginPath[..|AuthPrefix|] == AuthPrefix; }
    PrefixesExclusive(DashboardPrefix);
    PrefixesExclusive(LoginPath);
  }

  /** The login redirect determines the page it came from: distinct
      pages give distinct redirect locations. */
  lemma {:induction false} LoginLocationDeterminesFrom(f1: string, f2: string, encode: string -> string)
    requires Injective(encode)
    requires LoginLocation(f1, encode) == LoginLocation(f2, encode)
    ensures f1 == f2
  {
    var n := |LoginPath + FromParam|;
    assert encode(f1) == LoginLocation(f1, encode)[n..];
    assert encode(f2) == LoginLocation(f2, encode)[n..];
  }

  /** The login redirect identifies the page that was asked for, query
      string included. */
  lemma LoginRedirectDeterminesRequest(p1: string, s1: string, p2: string, s2: string,
                                       encode: string -> string)
    requires Injective(encode)
    requires IsPath(p1) && IsPath(p2) && IsSearch(s1) && IsSearch(s2)
    requires LoginLocation(From(p1, s1), encode) == LoginLocation(From(p2, s2), encode)
    ensures p1 == p2 && s1 == s2
  {
    LoginLocationDeterminesFrom(From(p1, s1), From(p2, s2), encode);
    FromDeterminesRequest(p1, s1, p2, s2);
  }

  /** The `matcher` `/auth/:path*`: the path /auth itself or anything below it. */
  predicate InAuthArea(pathname: string)
  {
    pathname == AuthPrefix || StartsWith(pathname, AuthPrefix + "/")
  }

  /** The `matcher` `/dashboard/:path*`. */
  predicate InDashboardArea(pathname: string)
  {
    pathname == DashboardPrefix || StartsWith(pathname, DashboardPrefix + "/")
  }

  /** A matched path starts with the area's prefix. */
  lemma MatchedStartsWith(pathname: string, prefix: string)
    requires pathname == prefix || StartsWith(pathname, prefix + "/")
    ensures StartsWith(pathname, prefix)
  {
    if pathname != prefix {
      assert pathname[..|prefix|] == (prefix + "/")[..|prefix|];
    }
  }

  /** The guard as the application runs it: only on matched paths, every
      other request passing untouched. */
  function Guard(pathname: string, search: string, cookies: map<string, string>,
                 encode: string -> string): (d: Decision)
    ensures InAuthArea(pathname) && IsAuth(cookies) ==> d == Redirect(DashboardPrefix)
    ensures InDashboardArea(pathname) && !IsAuth(cookies) ==>
              d == Redirect(LoginLocation(From(pathname, search), encode))
    ensures d == Next <==>
              (InAuthArea(pathname) ==> !IsAuth(cookies)) &&
              (InDashboardArea(pathname) ==> IsAuth(cookies))
  {
    if InAuthArea(pathname) then
      MatchedStartsWith(pathname, AuthPrefix);
      PrefixesExclusive(pathname);
      Decide(pathname, search, cookies, encode)
    else if InDashboardArea(pathname) then
      MatchedStartsWith(pathname, DashboardPrefix);
      PrefixesExclusive(pathname);
      Decide(pathname, search, cookies, encode)
    else
      Next
  }

  /** A path that merely begins like a guarded area, such as /authors or
      /dashboards, is not matched: the guard lets it through even though
      the decision function alone would redirect it. */
  lemma AuthorsNotGuarded(encode: string -> string)
    ensures Decide("/authors", "", map[SessionCookie := ""], encode) == Redirect(DashboardPrefix)
    ensures Guard("/authors", "", map[SessionCookie := ""], encode) == Next
    ensures Decide("/dashboards", "", map[], encode).Redirect?
    ensures Guard("/dashboards", "", map[], encode) == Next
  {
    assert StartsWith("/authors", AuthPrefix) by { assert "/authors"[..5] == AuthPrefix; }
    assert !StartsWith("/authors", AuthPrefix + "/") by { assert "/authors"[5] != '/'; }
    assert StartsWith("/dashboards", DashboardPrefix) by { assert "/dashboards"[..10] == DashboardPrefix; }
    assert !StartsWith("/dashboards", DashboardPrefix + "/") by { assert "/dashboards"[10] != '/'; }
    PrefixesExclusive("/authors");
    PrefixesExclusive("/dashboards");
  }

  /** Following a redirect of the guard does not redirect again. */
  lemma {:induction false} GuardRedirectTargetsPass(pathname: string, search: string,
                                                   cookies: map<string, string>,
                                                   encode: string -> string)
    ensures Guard(pathname, search, cookies, encode) == Redirect(DashboardPrefix) ==>
              Guard(DashboardPrefix, "", cookies, encode) == Next
    ensures Guard(pathname, search, cookies, encode).Redirect? && !IsAuth(cookies) ==>
              Guard(LoginPath, FromParam + encode(From(pathname, search)), cookies, encode) == Next
  {
    assert InAuthArea(LoginPath) by { assert LoginPath[..|AuthPrefix + "/"|] == AuthPrefix + "/"; }
    assert !InDashboardArea(LoginPath) by { assert LoginPath[1] != DashboardPrefix[1]; }
    assert !InAuthArea(DashboardPrefix) by { assert DashboardPrefix[1] != AuthPrefix[1]; }
  }
}
