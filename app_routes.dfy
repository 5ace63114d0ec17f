/** The route table of `App` and its `AdminRedirect` component. */
module AppRoutes {
  import opened Wrappers
  import Text
  import ProtectedRoute

  datatype Page =
    | Home | PostPropertyNotice | Listing | ListingByLocation | PropertyDetail
    | AdminRedirectPage | AdminLogin | AdminDashboard | AdminPostProperty | AdminProperties

  /** One `<Route>`: its path pattern, the page it renders, and whether that page is wrapped in `ProtectedRoute`. */
  datatype Route = Route(path: string, page: Page, guarded: bool)

  const Routes: seq<Route> := [
    Route("/", Home, false),
    Route("/post-property", PostPropertyNotice, false),
    Route("/properties", Listing, false),
    Route("/properties/:location", ListingByLocation, false),
    Route("/property/:id", PropertyDetail, false),
    Route("/admin", AdminRedirectPage, false),
    Route("/admin/login", AdminLogin, false),
    Route("/admin/dashboard", AdminDashboard, true),
    Route("/admin/post-property", AdminPostProperty, true),
    Route("/admin/properties", AdminProperties, true)
  ]

  /** The guarded routes are exactly the admin pages below `/admin/` other than the login page. */
  lemma GuardedRoutesAreAdminPages()
    ensures forall i :: 0 <= i < |Routes| ==>
              (Routes[i].guarded <==> Text.IsPrefix("/admin/", Routes[i].path) && Routes[i].path != "/admin/login")
  {
    forall i | 0 <= i < |Routes|
      ensures Routes[i].guarded <==> Text.IsPrefix("/admin/", Routes[i].path) && Routes[i].path != "/admin/login"
    {
      var p := Routes[i].path;
      if 1 <= i < 5 {
        assert p[1] != 'a';
      } else if i == 0 || i == 5 {
        assert |p| < 7;
      } else {
        assert p[..7] == "/admin/";
      }
    }
  }

  /** `AdminRedirect`: the spinner while loading, then a replace-navigation to the dashboard or the login page. */
  function AdminRedirect(isLoading: bool, isAdminAuthenticated: bool): (v: ProtectedRoute.View)
    ensures v != ProtectedRoute.Children
    ensures v == ProtectedRoute.Spinner <==> isLoading
    ensures !isLoading && isAdminAuthenticated ==> v == ProtectedRoute.Navigate("/admin/dashboard", true)
    ensures !isLoading && !isAdminAuthenticated ==> v == ProtectedRoute.Navigate("/admin/login", true)
  {
    if isLoading then ProtectedRoute.Spinner
    else if isAdminAuthenticated then ProtectedRoute.Navigate("/admin/dashboard", true)
    else ProtectedRoute.Navigate("/admin/login", true)
  }

  /** What the browser ends up with on one route: a page, a navigation, or the spinner. */
  datatype Screen = Loading | Redirect(to: string) | Show(page: Page)

  function Element(r: Route, isLoading: bool, isAdminAuthenticated: bool): (s: Screen)
    ensures s.Show? ==> s.page == r.page
    ensures r.guarded && s.Show? ==> !isLoading && isAdminAuthenticated
    ensures !r.guarded && r.page != AdminRedirectPage ==> s == Show(r.page)
    ensures r.guarded && r.page != AdminRedirectPage && isLoading ==> s == Loading
    ensures r.guarded && r.page != AdminRedirectPage && !isLoading && isAdminAuthenticated ==> s == Show(r.page)
    ensures r.guarded && r.page != AdminRedirectPage && !isLoading && !isAdminAuthenticated ==> s == Redirect("/admin/login")
    ensures r.page == AdminRedirectPage ==>
      s == (if isLoading then Loading else if isAdminAuthenticated then Redirect("/admin/dashboard") else Redirect("/admin/login"))
  {
    var v := if r.page == AdminRedirectPage then AdminRedirect(isLoading, isAdminAuthenticated)
             else if r.guarded then ProtectedRoute.Guard(isLoading, isAdminAuthenticated)
             else ProtectedRoute.Children;
    match v
    case Spinner => Loading
    case Navigate(to, _) => Redirect(to)
    case Children => Show(r.page)
  }

  /**
   * Once loading has finished, `/admin` navigates to a route that shows its
   * page at once: the redirect never leads to a second redirect.
   */
  lemma AdminRedirectSettles(isAdminAuthenticated: bool)
    ensures Routes[5].path == "/admin"
    ensures var target := if isAdminAuthenticated then Routes[7] else Routes[6];
            Element(Routes[5], false, isAdminAuthenticated) == Redirect(target.path)
            && Element(target, false, isAdminAuthenticated) == Show(target.page)
  {
  }
}
