/**
 * The access guard wrapped around every private page: once the session has
 * resolved it pushes at most one route, and it hides the page while loading.
 */
module AuthGuard {
  import opened Outcomes
  import opened Session

  const LoginRoute: string := "/auth/login"
  const DashboardRoute: string := "/dashboard"

  /** Routes reachable without a session; membership is exact string equality. */
  const PublicRoutes: seq<string> := ["/", "/auth/login", "/auth/signup", "/auth/verify"]

  predicate IsPublicRoute(pathname: string) {
    pathname in PublicRoutes
  }

  /** The single `router.push` an evaluation of the effect may issue. */
  datatype Redirect = NoRedirect | ToLogin | ToDashboard {
    function Target(): Option<string> {
      match this
      case NoRedirect => None
      case ToLogin => Some(LoginRoute)
      case ToDashboard => Some(DashboardRoute)
    }
  }

  /** The redirect effect, evaluated whenever `user`, `loading` or `pathname` changes. */
  function RedirectFor(loading: bool, user: Option<User>, pathname: string): (r: Redirect)
    ensures loading ==> r == NoRedirect
    ensures r == ToLogin <==> !loading && user.None? && !IsPublicRoute(pathname)
    ensures r == ToDashboard <==> !loading && user.Some? && IsPublicRoute(pathname) && pathname != "/"
  {
    if loading then NoRedirect
    else if user.None? && !IsPublicRoute(pathname) then ToLogin
    else if user.Some? && IsPublicRoute(pathname) && pathname != "/" then ToDashboard
    else NoRedirect
  }

  /** Whether the guard renders its children (it renders `null` while loading). */
  function RendersChildren(loading: bool): (shown: bool)
    ensures shown <==> !loading
  {
    !loading
  }

  /**
   * The guard shows the page even while it pushes a redirect, and shows nothing and
   * pushes nothing while the session is loading.
   */
  lemma RenderingIgnoresRedirect(user: Option<User>, pathname: string)
    ensures RedirectFor(false, user, pathname) != NoRedirect ==> RendersChildren(false)
    ensures RedirectFor(true, user, pathname) == NoRedirect && !RendersChildren(true)
  {
  }

  /**
   * The combinations that are left alone: a signed-in user on the landing page,
   * or an anonymous user on any public route (and everything while loading).
   */
  lemma NoRedirectCases(loading: bool, user: Option<User>, pathname: string)
    ensures RedirectFor(loading, user, pathname) == NoRedirect <==>
              || loading
              || (user.Some? && (pathname == "/" || !IsPublicRoute(pathname)))
              || (user.None? && IsPublicRoute(pathname))
  {
  }

  /**
   * A redirect never bounces: once the router is on the pushed route, the same
   * session yields no further redirect.
   */
  lemma RedirectSettles(user: Option<User>, pathname: string)
    ensures var r := RedirectFor(false, user, pathname);
            r.Target().Some? ==> RedirectFor(false, user, r.Target().value) == NoRedirect
  {
    var r := RedirectFor(false, user, pathname);
    if r == ToLogin {
      assert IsPublicRoute(LoginRoute);
    } else if r == ToDashboard {
      assert DashboardRoute != PublicRoutes[0] && DashboardRoute != PublicRoutes[1];
      assert DashboardRoute != PublicRoutes[2] && DashboardRoute != PublicRoutes[3];
    }
  }

  /** A public route followed by a slash is not public, so `/auth/login/` needs a session. */
  lemma TrailingSlashIsPrivate(pathname: string)
    requires IsPublicRoute(pathname)
    ensures !IsPublicRoute(pathname + "/")
  {
    var p := pathname + "/";
    assert p[|p| - 1] == '/';
    forall q | q in PublicRoutes ensures p != q {
      if q != "/" { assert q[|q| - 1] != '/'; }
    }
  }

  /**
   * Extending a public `/auth/...` route by anything gives a private route: there is no
   * prefix matching. (Every path starts with `/`, so the exception is the root itself.)
   */
  lemma ExtensionsArePrivate(pathname: string, rest: string)
    requires IsPublicRoute(pathname) && pathname != "/" && rest != []
    ensures !IsPublicRoute(pathname + rest)
  {
    var p := pathname + rest;
    assert p[..6] == "/auth/";
    forall q | q in PublicRoutes ensures p != q {
      if q == "/auth/login" || q == "/auth/signup" || q == "/auth/verify" {
        if |p| == |q| {
          assert |pathname| < |q|;
          assert pathname == "/auth/login";
          assert p[6] == 'l' && q[6] != 'l';
        }
      }
    }
  }

  /**
   * A proper prefix of a public route is private unless it is the root: no public
   * route extends another one, so `/auth` or `/auth/log` needs a session.
   */
  lemma PrefixesArePrivate(pathname: string, rest: string)
    requires IsPublicRoute(pathname + rest) && pathname != "/" && rest != []
    ensures !IsPublicRoute(pathname)
  {
    if IsPublicRoute(pathname) {
      ExtensionsArePrivate(pathname, rest);
    }
  }
}
