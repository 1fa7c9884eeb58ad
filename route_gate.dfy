/**
 * The page gate of frontend/middleware.ts: a decision, per request, to let
 * the page load or to redirect, from the path, the presence of the
 * `token` cookie and whether the API is served from another host.
 */
module RouteGate {
  import opened Wrappers

  /** `host.split(':')[0]`: the host header up to its first colon. */
  function HostnameOf(host: string): (r: string)
    ensures r <= host
    ensures ':' !in r
    ensures |r| < |host| ==> host[|r|] == ':'
  {
    if host == [] || host[0] == ':' then []
    else [host[0]] + HostnameOf(host[1..])
  }

  /**
   * The cross-domain test. `apiHostname` is the hostname `new URL` reads
   * from the API URL, None when that constructor throws; a relative or
   * missing API URL means same domain.
   */
  function IsCrossDomain(apiUrl: string, apiHostname: Option<string>, host: string): (r: bool)
    ensures apiUrl == "" ==> !r
    ensures "/" <= apiUrl ==> !r
    ensures apiHostname.None? ==> !r
    ensures r <==> apiUrl != "" && apiUrl[0] != '/' && apiHostname.Some? && apiHostname.value != HostnameOf(host)
  {
    if apiUrl == "" || apiUrl[0] == '/' then false
    else match apiHostname
      case None => false
      case Some(h) => h != HostnameOf(host)
  }

  /** The hostname of `name:port` is `name`. */
  lemma {:induction false} HostnameDropsPort(name: string, port: string)
    requires ':' !in name
    ensures HostnameOf(name + ":" + port) == name
  {
    var host := name + ":" + port;
    if name == [] {
      assert host[0] == ':';
    } else {
      assert host[0] == name[0];
      assert host[1..] == name[1..] + ":" + port;
      HostnameDropsPort(name[1..], port);
    }
  }

  /** The host header's port never makes the API look cross-domain. */
  lemma PortIgnored(apiUrl: string, name: string, port: string)
    requires ':' !in name && apiUrl != "" && apiUrl[0] != '/'
    ensures !IsCrossDomain(apiUrl, Some(name), name + ":" + port)
  {
    HostnameDropsPort(name, port);
  }

  datatype Decision = Next | RedirectDashboard | RedirectLogin(redirect: string)

  function PublicRoutes(): seq<string> { ["/", "/about", "/features", "/contact"] }

  function AuthRoutes(): seq<string> { ["/login", "/register"] }

  function ProtectedRoutes(): seq<string> { ["/dashboard", "/customers", "/cheques", "/transactions"] }

  /** `routes.some(route => pathname.startsWith(route))`. */
  predicate StartsWithAny(path: string, routes: seq<string>) {
    exists i | 0 <= i < |routes| :: routes[i] <= path
  }

  /** `middleware` for a request to `path`. */
  function Middleware(path: string, hasToken: bool, crossDomain: bool): (r: Decision)
    ensures crossDomain ==> r == Next
    ensures r.RedirectLogin? ==> !hasToken && r.redirect == path && StartsWithAny(path, ProtectedRoutes())
    ensures r == RedirectDashboard ==> hasToken && StartsWithAny(path, AuthRoutes())
    ensures path in PublicRoutes() ==> r == Next
  {
    if crossDomain then Next
    else if path in PublicRoutes() then Next
    else if StartsWithAny(path, AuthRoutes()) then
      if hasToken then RedirectDashboard else Next
    else if StartsWithAny(path, ProtectedRoutes()) then
      if !hasToken then RedirectLogin(path) else Next
    else Next
  }

  /** No public route starts with an auth or a protected prefix. */
  lemma PublicRoutesAreUnguarded(path: string)
    ensures path in PublicRoutes() ==> !StartsWithAny(path, AuthRoutes()) && !StartsWithAny(path, ProtectedRoutes())
  {
    forall i, j | 0 <= i < |PublicRoutes()| && 0 <= j < |AuthRoutes()|
      ensures !(AuthRoutes()[j] <= PublicRoutes()[i])
    {
      assert |PublicRoutes()[i]| < 2 || PublicRoutes()[i][1] != AuthRoutes()[j][1];
    }
    forall i, j | 0 <= i < |PublicRoutes()| && 0 <= j < |ProtectedRoutes()|
      ensures !(ProtectedRoutes()[j] <= PublicRoutes()[i])
    {
      assert |PublicRoutes()[i]| < 3 || PublicRoutes()[i][2] != ProtectedRoutes()[j][2]
          || PublicRoutes()[i][1] != ProtectedRoutes()[j][1];
    }
  }

  /** On the same domain, a login or register page redirects to the dashboard exactly when a token is present. */
  lemma AuthPagesRedirectSignedIn(path: string, hasToken: bool)
    requires StartsWithAny(path, AuthRoutes())
    ensures Middleware(path, hasToken, false) == (if hasToken then RedirectDashboard else Next)
  {
    PublicRoutesAreUnguarded(path);
  }

  /** On the same domain, a protected page without a token redirects to login, carrying the path. */
  lemma ProtectedPagesNeedToken(path: string, hasToken: bool)
    requires StartsWithAny(path, ProtectedRoutes())
    ensures Middleware(path, hasToken, false) == (if hasToken then Next else RedirectLogin(path))
  {
    PublicRoutesAreUnguarded(path);
    var i :| 0 <= i < |ProtectedRoutes()| && ProtectedRoutes()[i] <= path;
    forall j | 0 <= j < |AuthRoutes()|
      ensures !(AuthRoutes()[j] <= path)
    {
      assert path[1] == ProtectedRoutes()[i][1];
      assert path[1] != AuthRoutes()[j][1];
    }
  }

  /** A path outside every listed group loads whatever the token. */
  lemma OtherPagesPass(path: string, hasToken: bool, crossDomain: bool)
    requires !StartsWithAny(path, AuthRoutes()) && !StartsWithAny(path, ProtectedRoutes())
    ensures Middleware(path, hasToken, crossDomain) == Next
  {
  }

  /** A signed-in visitor is never sent to login, and a signed-out one never to the dashboard. */
  lemma RedirectsMatchToken(path: string, hasToken: bool, crossDomain: bool)
    ensures hasToken ==> !Middleware(path, hasToken, crossDomain).RedirectLogin?
    ensures !hasToken ==> Middleware(path, hasToken, crossDomain) != RedirectDashboard
  {
  }

  /** The auth test is a prefix test: "/login-help" is treated as a login page. */
  lemma PrefixCatchesNeighbours()
    ensures Middleware("/login-help", true, false) == RedirectDashboard
    ensures Middleware("/cheques/abc", false, false) == RedirectLogin("/cheques/abc")
  {
    assert AuthRoutes()[0] <= "/login-help";
    assert ProtectedRoutes()[2] <= "/cheques/abc";
    ProtectedPagesNeedToken("/cheques/abc", false);
  }
}
