/**
 * The Next.js route guard of the client: public paths pass untouched, paths under
 * the protected prefixes need the three login cookies and otherwise redirect to the
 * login page, every other path passes.
 */
module Middleware {
  import opened Wrappers
  import opened Text

  const ProtectedRoutes: seq<string> := ["/get-did-document"]

  const PublicRoutes: seq<string> := [
    "/", "/create-did", "/login", "/blockexplorer", "/debug", "/api", "/_next",
    "/favicon.ico", "/logo.svg", "/manifest.json", "/thumbnail.jpg"
  ]

  /** `pathname === route || pathname.startsWith(route + '/')` */
  predicate UnderRoute(pathname: string, route: string) {
    pathname == route || StartsWith(pathname, route + "/")
  }

  /** `PUBLIC_ROUTES.some(...)`: the path is a public route or lies below one. */
  function IsPublicRoute(pathname: string): (public: bool)
    ensures public <==> exists i :: 0 <= i < |PublicRoutes| && UnderRoute(pathname, PublicRoutes[i])
  {
    AnyUnder(pathname, PublicRoutes)
  }

  function AnyUnder(pathname: string, routes: seq<string>): (found: bool)
    ensures found <==> exists i :: 0 <= i < |routes| && UnderRoute(pathname, routes[i])
  {
    if |routes| == 0 then false
    else if UnderRoute(pathname, routes[0]) then true
    else
      var found := AnyUnder(pathname, routes[1..]);
      assert found ==> exists i :: 0 <= i < |routes| && UnderRoute(pathname, routes[i]) by {
        if found {
          var i :| 0 <= i < |routes| - 1 && UnderRoute(pathname, routes[1..][i]);
          assert UnderRoute(pathname, routes[i + 1]);
        }
      }
      assert (exists i :: 0 <= i < |routes| && UnderRoute(pathname, routes[i])) ==> found by {
        if i :| 0 <= i < |routes| && UnderRoute(pathname, routes[i]) {
          assert i != 0;
          assert UnderRoute(pathname, routes[1..][i - 1]);
        }
      }
      found
  }

  /** `PROTECTED_ROUTES.some(route => pathname.startsWith(route))`: no "/" boundary is required. */
  function IsProtectedRoute(pathname: string): (protected: bool)
    ensures protected <==> StartsWith(pathname, "/get-did-document")
  {
    |ProtectedRoutes| > 0 && StartsWith(pathname, ProtectedRoutes[0])
  }

  /** The cookies the guard reads; a missing cookie is `None`. */
  datatype Cookies = Cookies(authToken: Option<string>, isLoggedIn: Option<string>, currentDid: Option<string>)

  /** A header the guard sets on the response it lets through. */
  datatype Header = Header(name: string, value: string)

  /** `NextResponse.next()` with added headers, or a redirect to /login carrying the path. */
  datatype Decision = Next(headers: seq<Header>) | RedirectToLogin(redirect: string)

  /** A cookie counts as present when it exists and is not empty. */
  predicate Present(cookie: Option<string>) {
    cookie.Some? && cookie.value != ""
  }

  /** `middleware`: the public check first, then the protected check with the cookies. */
  function Guard(pathname: string, cookies: Cookies): (d: Decision)
    ensures IsPublicRoute(pathname) ==> d == Next([])
    ensures !IsPublicRoute(pathname) && !IsProtectedRoute(pathname) ==> d == Next([])
    ensures !IsPublicRoute(pathname) && IsProtectedRoute(pathname) ==>
      (d.RedirectToLogin? <==>
         !Present(cookies.authToken) || cookies.isLoggedIn != Some("true") || !Present(cookies.currentDid))
    ensures d.RedirectToLogin? ==> d.redirect == pathname
    ensures !IsPublicRoute(pathname) && IsProtectedRoute(pathname) && !d.RedirectToLogin? ==>
      d == Next([Header("x-auth-token", cookies.authToken.value),
                 Header("x-current-did", cookies.currentDid.value),
                 Header("x-is-logged-in", "true")])
  {
    if IsPublicRoute(pathname) then Next([])
    else if IsProtectedRoute(pathname) then
      if !Present(cookies.authToken) || cookies.isLoggedIn != Some("true") || !Present(cookies.currentDid) then
        RedirectToLogin(pathname)
      else
        Next([Header("x-auth-token", cookies.authToken.value),
              Header("x-current-did", cookies.currentDid.value),
              Header("x-is-logged-in", "true")])
    else Next([])
  }

  /** The protected prefix is not below any public route, so the cookie check is reachable. */
  lemma ProtectedPathIsNotPublic(pathname: string)
    requires StartsWith(pathname, "/get-did-document")
    ensures !IsPublicRoute(pathname) && IsProtectedRoute(pathname)
  {
    assert pathname[1] == 'g';
    forall i | 0 <= i < |PublicRoutes| ensures !UnderRoute(pathname, PublicRoutes[i]) {
      SecondCharOfPublicRoute(i);
    }
  }

  /** Every public route, followed by "/", has a second character other than 'g'. */
  lemma SecondCharOfPublicRoute(i: nat)
    requires i < |PublicRoutes|
    ensures |PublicRoutes[i]| >= 1 && (PublicRoutes[i] + "/")[1] != 'g'
  {
    if i == 0 {} else if i == 1 {} else if i == 2 {} else if i == 3 {} else if i == 4 {}
    else if i == 5 {} else if i == 6 {} else if i == 7 {} else if i == 8 {} else if i == 9 {}
    else {}
  }

  /** Without the login cookies the document page redirects to the login page. */
  lemma LoggedOutDocumentRequestRedirects(cookies: Cookies)
    requires cookies.authToken.None?
    ensures Guard("/get-did-document", cookies) == RedirectToLogin("/get-did-document")
  {
    ProtectedPathIsNotPublic("/get-did-document");
  }

  /** A path that only shares a prefix with a public route is not public: "/loginx" is not below "/login". */
  lemma PublicNeedsSegmentBoundary()
    ensures !IsPublicRoute("/loginx")
  {
    forall i | 0 <= i < |PublicRoutes| ensures !UnderRoute("/loginx", PublicRoutes[i]) {
      SecondCharOfPublicRoute(i);
      if i == 2 {
        assert "/loginx"[6] != '/';
      }
    }
  }
}
