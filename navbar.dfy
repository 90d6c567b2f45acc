/** The top navigation bar: hidden on the auth pages, otherwise links chosen by the session. */
module Navbar {
  import opened Outcomes
  import opened Text
  import opened Session
  import opened AuthGuard

  datatype NavItem = NavItem(text: string, href: string)

  /**
   * What the bar shows: the logo's target, the nav links, the button beside the theme
   * toggle, and the avatar letter for a signed-in user.
   */
  datatype View = View(homeLink: string, items: seq<NavItem>, button: NavItem, avatar: Option<string>)

  /** `pathname.startsWith('/auth')`. */
  predicate IsHidden(pathname: string) {
    "/auth" <= pathname
  }

  function HomeLink(user: Option<User>): (href: string)
    ensures href == DashboardRoute <==> user.Some?
    ensures user.None? ==> href == "/"
  {
    if user.Some? then DashboardRoute else "/"
  }

  const SignedInItems: seq<NavItem> := [NavItem("Dashboard", "/dashboard"), NavItem("New Note", "/notes/new")]
  const AnonymousItems: seq<NavItem> :=
    [NavItem("Home", "/"), NavItem("Sign In", "/auth/login"), NavItem("Sign Up", "/auth/signup")]

  function NavItems(user: Option<User>): (items: seq<NavItem>)
    ensures user.Some? ==> |items| == 2 && items[0] == NavItem("Dashboard", DashboardRoute)
                           && items[1] == NavItem("New Note", "/notes/new")
    ensures user.None? ==> |items| == 3 && items[0] == NavItem("Home", "/")
                           && items[1] == NavItem("Sign In", LoginRoute) && items[2] == NavItem("Sign Up", "/auth/signup")
  {
    if user.Some? then SignedInItems else AnonymousItems
  }

  /** The header button: New Note for a signed-in user (beside the avatar menu), Sign In otherwise. */
  function HeaderButton(user: Option<User>): (b: NavItem)
    ensures user.Some? ==> b == NavItem("New Note", "/notes/new")
    ensures user.None? ==> b == NavItem("Sign In", LoginRoute)
  {
    if user.Some? then NavItem("New Note", "/notes/new") else NavItem("Sign In", LoginRoute)
  }

  /** The header button repeats the second nav link, whichever session is current. */
  lemma ButtonRepeatsSecondItem(user: Option<User>)
    ensures HeaderButton(user) == NavItems(user)[1]
  {
  }

  /**
   * `user?.email?.charAt(0).toUpperCase() || 'U'`: one letter, 'U' when there is
   * no e-mail or it is empty.
   */
  function AvatarFallback(email: Option<string>): (letter: string)
    ensures |letter| == 1
    ensures email.None? || email.value == [] ==> letter == "U"
    ensures email.Some? && email.value != [] ==> letter[0] == UpperAscii(email.value[0])
  {
    if email.Some? && email.value != [] then [UpperAscii(email.value[0])] else "U"
  }

  /** The bar for the current session and path; `None` is the `return null` on auth pages. */
  function Render(user: Option<User>, pathname: string): (v: Option<View>)
    ensures v.None? <==> IsHidden(pathname)
    ensures v.Some? ==> v.value.homeLink == HomeLink(user) && v.value.items == NavItems(user)
                        && v.value.button == HeaderButton(user)
    ensures v.Some? ==> (v.value.avatar.Some? <==> user.Some?)
    ensures v.Some? && user.Some? ==> v.value.avatar == Some(AvatarFallback(user.value.email))
  {
    if IsHidden(pathname) then None
    else
      var avatar := if user.Some? then Some(AvatarFallback(user.value.email)) else None;
      Some(View(HomeLink(user), NavItems(user), HeaderButton(user), avatar))
  }

  /** The links of each list have distinct targets, as their use as React keys needs. */
  lemma NavHrefsDistinct(user: Option<User>)
    ensures var items := NavItems(user);
            forall i, j :: 0 <= i < j < |items| ==> items[i].href != items[j].href
  {
    var items := NavItems(user);
    if user.Some? {
      assert items[0].href[1] == 'd' && items[1].href[1] == 'n';
    } else {
      assert |items[0].href| == 1 && |items[1].href| == 11 && |items[2].href| == 12;
    }
  }

  /** Every link the bar offers, the logo included, lands without the access guard redirecting. */
  lemma NavLinksLandWithoutRedirect(user: Option<User>)
    ensures RedirectFor(false, user, HomeLink(user)) == NoRedirect
    ensures forall i :: 0 <= i < |NavItems(user)| ==> RedirectFor(false, user, NavItems(user)[i].href) == NoRedirect
    ensures RedirectFor(false, user, HeaderButton(user).href) == NoRedirect
  {
    var items := NavItems(user);
    ButtonRepeatsSecondItem(user);
    if user.Some? {
      assert !IsPublicRoute("/dashboard") by {
        assert "/dashboard"[1] != "/auth/login"[1] && |"/dashboard"| != 1;
        assert "/dashboard"[1] == 'd' && "/auth/signup"[1] == 'a' && "/auth/verify"[1] == 'a';
      }
      assert !IsPublicRoute("/notes/new") by {
        assert "/notes/new"[1] == 'n' && "/auth/login"[1] == 'a' && "/auth/signup"[1] == 'a';
        assert "/auth/verify"[1] == 'a' && |"/notes/new"| != 1;
      }
    } else {
      assert forall i :: 0 <= i < |items| ==> items[i].href in PublicRoutes;
    }
  }

  /** The auth pages an anonymous visitor is offered have no navigation bar. */
  lemma SignInPagesHideBar()
    ensures IsHidden(AnonymousItems[1].href) && IsHidden(AnonymousItems[2].href)
    ensures !IsHidden(AnonymousItems[0].href)
  {
    assert AnonymousItems[1].href[..5] == "/auth";
    assert AnonymousItems[2].href[..5] == "/auth";
  }
}
