/** The route guard that runs before every page request: static assets and
    API routes are let through, the public authentication pages are only for
    visitors without a session, and every other page needs a session. */
module Middleware {
  import opened Js

  /** The authentication pages a visitor without a session may open. */
  const PublicAuthPaths: seq<string> := ["/giris", "/kayit", "/sifremi-unuttum"]

  /** Where a signed-in user asking for an authentication page is sent. */
  const DashboardPath: string := "/dashboard"

  /** Where a visitor without a session asking for a protected page is sent. */
  const LoginPath: string := "/giris"

  /** The query parameter that remembers the page asked for. */
  const CallbackParam: string := "callbackUrl"

  /** The request URL as far as the guard looks at it or changes it: the
      origin stays as it is, only the path and the query are rewritten. */
  datatype NextUrl = NextUrl(origin: string, pathname: string, query: map<string, string>)

  /** `NextResponse.next()` or `NextResponse.redirect(url)`. */
  datatype Response = Next | Redirect(location: NextUrl)

  /** `pathname` is `path` itself or a page below it. */
  predicate UnderPath(pathname: string, path: string) {
    pathname == path || StartsWith(pathname, path + "/")
  }

  /** `paths.some(path => UnderPath(pathname, path))`. */
  function AnyUnder(paths: seq<string>, pathname: string): (r: bool)
    ensures r <==> exists i :: 0 <= i < |paths| && UnderPath(pathname, paths[i])
  {
    if paths == [] then false
    else if UnderPath(pathname, paths[0]) then true
    else
      var rest := AnyUnder(paths[1..], pathname);
      assert forall i :: 1 <= i < |paths| ==> paths[i] == paths[1..][i - 1];
      rest
  }

  /** The public authentication pages: each of the three paths itself, or a
      page below one of them; a longer word such as `/girisX` is not one. */
  function IsPublicAuthPath(pathname: string): (r: bool)
    ensures r <==>
      || pathname == "/giris" || StartsWith(pathname, "/giris/")
      || pathname == "/kayit" || StartsWith(pathname, "/kayit/")
      || pathname == "/sifremi-unuttum" || StartsWith(pathname, "/sifremi-unuttum/")
  {
    var r := AnyUnder(PublicAuthPaths, pathname);
    assert r <==> UnderPath(pathname, PublicAuthPaths[0]) || UnderPath(pathname, PublicAuthPaths[1])
                  || UnderPath(pathname, PublicAuthPaths[2]);
    r
  }

  /** Framework internals, API routes and anything that looks like a file
      are never guarded. */
  function Bypassed(pathname: string): (r: bool)
    // the first two tests are on the text, not on path segments
    ensures r <==>
      || (|pathname| >= 6 && pathname[..6] == "/_next")
      || (|pathname| >= 4 && pathname[..4] == "/api")
      || exists k :: 0 <= k < |pathname| && pathname[k] == '.'
  {
    StartsWith(pathname, "/_next") || StartsWith(pathname, "/api") || Includes(pathname, '.')
  }

  /** The guard's decision for a request URL, given whether a session token
      was found (the token lookup itself is not modelled). */
  function Decide(url: NextUrl, isAuthenticated: bool): (r: Response)
    // passed through exactly when the path is bypassed, or when it is a
    // public page and there is no session, or a protected page and there is one
    ensures r.Next? <==>
      Bypassed(url.pathname) || (IsPublicAuthPath(url.pathname) <==> !isAuthenticated)
    // a bypassed path is passed through whatever the session state
    ensures Bypassed(url.pathname) ==> r == Next
    // a signed-in user is sent to the dashboard, keeping the query as it was
    ensures r.Redirect? && isAuthenticated ==>
      r.location == url.(pathname := DashboardPath)
    // a visitor without a session is sent to the login page, and the page
    // asked for is remembered in the callback parameter
    ensures r.Redirect? && !isAuthenticated ==>
      r.location == url.(pathname := LoginPath, query := url.query[CallbackParam := url.pathname])
  {
    if Bypassed(url.pathname) then Next
    else if IsPublicAuthPath(url.pathname) then
      if isAuthenticated then Redirect(url.(pathname := DashboardPath)) else Next
    else if !isAuthenticated then
      Redirect(url.(pathname := LoginPath, query := url.query[CallbackParam := url.pathname]))
    else Next
  }

  /** The three outcomes a request can have. */
  datatype Outcome = PassThrough | ToDashboard | ToLogin(callbackUrl: string)

  /** Which of the three outcomes a response is, for a request to `url`. */
  function OutcomeOf(url: NextUrl, r: Response): Outcome {
    if r.Next? then PassThrough
    else if r.location.pathname == DashboardPath then ToDashboard
    else ToLogin(if CallbackParam in r.location.query then r.location.query[CallbackParam] else "")
  }

  /** Every request gets exactly one of the three outcomes, decided by
      whether the page is public and whether there is a session. */
  lemma {:induction false} OutcomeTable(url: NextUrl, isAuthenticated: bool)
    ensures var o := OutcomeOf(url, Decide(url, isAuthenticated));
      && (Bypassed(url.pathname) ==> o == PassThrough)
      && (!Bypassed(url.pathname) && IsPublicAuthPath(url.pathname) && isAuthenticated ==> o == ToDashboard)
      && (!Bypassed(url.pathname) && IsPublicAuthPath(url.pathname) && !isAuthenticated ==> o == PassThrough)
      && (!Bypassed(url.pathname) && !IsPublicAuthPath(url.pathname) && !isAuthenticated ==>
            o == ToLogin(url.pathname) && Decide(url, isAuthenticated).location.pathname == LoginPath)
      && (!Bypassed(url.pathname) && !IsPublicAuthPath(url.pathname) && isAuthenticated ==> o == PassThrough)
  {
  }

  /** The prefix tests do not stop at a segment boundary: `/apiary`,
      `/api-docs` and `/_nextjs` are passed through without a session. */
  lemma TextPrefixesAreBypassed()
    ensures Bypassed("/apiary") && Bypassed("/api-docs") && Bypassed("/_nextjs")
    ensures Decide(NextUrl("", "/apiary", map[]), false) == Next
  {
    assert "/apiary"[..4] == "/api";
    assert "/api-docs"[..4] == "/api";
    assert "/_nextjs"[..6] == "/_next";
  }

  /** The dashboard is an ordinary protected page. */
  lemma DashboardIsProtected()
    ensures !Bypassed(DashboardPath) && !IsPublicAuthPath(DashboardPath)
  {
    assert !StartsWith(DashboardPath, "/_next") by { assert DashboardPath[1] != '_'; }
    assert !StartsWith(DashboardPath, "/api") by { assert DashboardPath[1] != "/api"[1]; }
    assert !StartsWith(DashboardPath, "/giris/") by { assert DashboardPath[1] != 'g'; }
    assert !StartsWith(DashboardPath, "/kayit/") by { assert DashboardPath[1] != 'k'; }
    assert !StartsWith(DashboardPath, "/sifremi-unuttum/") by { assert |DashboardPath| < 17; }
  }

  /** The login page is a public page that is not bypassed. */
  lemma LoginIsPublic()
    ensures !Bypassed(LoginPath) && IsPublicAuthPath(LoginPath)
  {
    assert !StartsWith(LoginPath, "/_next") by { assert LoginPath[1] != '_'; }
    assert !StartsWith(LoginPath, "/api") by { assert LoginPath[1] != 'a'; }
  }

  /** A signed-in user is never redirected to a public authentication page. */
  lemma {:induction false} SignedInNeverSentToPublicPage(url: NextUrl)
    requires Decide(url, true).Redirect?
    ensures !IsPublicAuthPath(Decide(url, true).location.pathname)
  {
    DashboardIsProtected();
  }

  /** Following a redirect leads to a page that is passed through for the same
      session state, so the guard never redirects twice in a row. */
  lemma {:induction false} NoRedirectLoop(url: NextUrl, isAuthenticated: bool)
    requires Decide(url, isAuthenticated).Redirect?
    ensures Decide(Decide(url, isAuthenticated).location, isAuthenticated) == Next
  {
  }

  /** A page below a public path is public. */
  lemma {:induction false} BelowPublicPathIsPublic(i: nat, rest: string)
    requires i < |PublicAuthPaths|
    ensures IsPublicAuthPath(PublicAuthPaths[i] + "/" + rest)
  {
  }

  /** A public path followed by anything other than `/` is not public:
      the match is on whole path segments, not on prefixes. */
  lemma {:induction false} PublicPathIsWholeSegment(i: nat, c: char, rest: string)
    requires i < |PublicAuthPaths|
    requires c != '/'
    ensures !IsPublicAuthPath(PublicAuthPaths[i] + [c] + rest)
  {
    var base := PublicAuthPaths[i];
    var p := base + [c] + rest;
    assert p[..|base|] == base;
    assert p[|base|] == c;
    forall j | 0 <= j < |PublicAuthPaths|
      ensures !UnderPath(p, PublicAuthPaths[j])
    {
      var other := PublicAuthPaths[j];
      if j == i {
        assert |p| > |base|;
      } else {
        // the three paths differ at their second character
        assert base[1] != other[1];
        assert p[1] == base[1];
        assert p != other by { assert |other| > 1; }
        assert (other + "/")[1] == other[1];
      }
    }
    assert !AnyUnder(PublicAuthPaths, p);
  }

  /** `/girisX` is not a public authentication page. */
  lemma GirisXIsProtected()
    ensures !IsPublicAuthPath("/girisX")
    ensures Decide(NextUrl("", "/girisX", map[]), false)
         == Redirect(NextUrl("", LoginPath, map[CallbackParam := "/girisX"]))
  {
    assert "/girisX" == PublicAuthPaths[0] + ['X'] + "";
    PublicPathIsWholeSegment(0, 'X', "");
    assert !StartsWith("/girisX", "/_next") by { assert "/girisX"[1] != '_'; }
    assert !StartsWith("/girisX", "/api") by { assert "/girisX"[1] != 'a'; }
  }
}
