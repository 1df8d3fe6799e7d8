/** The browser routes of the application (`main.jsx`): the public menu, the admin login
    page behind `PublicRoute`, the dashboard behind `ProtectedRoute`, and a fallback that
    sends every other path to the menu. */
module Routes {
  import opened Text

  /** What a route guard renders. */
  datatype Guarded = Spinner | Navigate(to: string) | Children

  /** The pages the router can show. */
  datatype Page = MenuApp | LoginPage | Dashboard

  /** What the router shows for a location: a page, a loading spinner, or a redirect. */
  datatype View = Show(page: Page) | Loading | Redirect(to: string)

  /** `ProtectedRoute`: a spinner while loading, the login page when unauthenticated,
      otherwise its children. */
  function ProtectedRoute(isAuthenticated: bool, loading: bool): (g: Guarded)
    ensures g == Spinner <==> loading
    ensures g == Children <==> !loading && isAuthenticated
    ensures g.Navigate? ==> g.to == "/admin/login"
  {
    if loading then Spinner
    else if !isAuthenticated then Navigate("/admin/login")
    else Children
  }

  /** `PublicRoute`: a spinner while loading, the dashboard when already authenticated,
      otherwise its children. */
  function PublicRoute(isAuthenticated: bool, loading: bool): (g: Guarded)
    ensures g == Spinner <==> loading
    ensures g == Children <==> !loading && !isAuthenticated
    ensures g.Navigate? ==> g.to == "/admin"
  {
    if loading then Spinner
    else if isAuthenticated then Navigate("/admin")
    else Children
  }

  /** Once loading is over, exactly one of the two guards lets its children through. */
  lemma GuardsComplement(isAuthenticated: bool)
    ensures (ProtectedRoute(isAuthenticated, false) == Children) !=
            (PublicRoute(isAuthenticated, false) == Children)
  {
  }

  /** A path without its trailing slashes. */
  function StripTrailingSlashes(path: string): (r: string)
    ensures r <= path && (|r| == 0 || r[|r| - 1] != '/')
    ensures forall i :: |r| <= i < |path| ==> path[i] == '/'
  {
    if |path| > 0 && path[|path| - 1] == '/' then StripTrailingSlashes(path[..|path| - 1])
    else path
  }

  /** Route matching: letter case and trailing slashes do not matter. */
  predicate Matches(routePath: string, pathname: string) {
    ToLower(StripTrailingSlashes(routePath)) == ToLower(StripTrailingSlashes(pathname))
  }

  /** How a guard's decision shows as a view. */
  function Guard(g: Guarded, page: Page): View {
    match g
    case Spinner => Loading
    case Navigate(to) => Redirect(to)
    case Children => Show(page)
  }

  /** The route table: "/" is the menu, "/admin/login" the guarded login page, "/admin" the
      guarded dashboard, and any other path redirects to "/". */
  function Route(pathname: string, isAuthenticated: bool, loading: bool): (v: View)
    ensures v == Show(Dashboard) <==> Matches("/admin", pathname) && !loading && isAuthenticated
    ensures v == Show(LoginPage) <==> Matches("/admin/login", pathname) && !loading && !isAuthenticated
    ensures v == Loading ==> loading
    ensures v.Redirect? ==> v.to in {"/", "/admin", "/admin/login"}
    ensures Matches("/", pathname) ==> v == Show(MenuApp)
    ensures !Matches("/", pathname) && !Matches("/admin", pathname) && !Matches("/admin/login", pathname) ==>
      v == Redirect("/")
  {
    if Matches("/", pathname) then Show(MenuApp)
    else if Matches("/admin/login", pathname) then Guard(PublicRoute(isAuthenticated, loading), LoginPage)
    else if Matches("/admin", pathname) then Guard(ProtectedRoute(isAuthenticated, loading), Dashboard)
    else Redirect("/")
  }

  /** The three route paths are told apart: no location matches two of them. */
  lemma RoutesDistinct(pathname: string)
    ensures !(Matches("/", pathname) && Matches("/admin", pathname))
    ensures !(Matches("/", pathname) && Matches("/admin/login", pathname))
    ensures !(Matches("/admin", pathname) && Matches("/admin/login", pathname))
  {
    assert ToLower(StripTrailingSlashes("/")) == "";
    assert StripTrailingSlashes("/admin") == "/admin";
    assert StripTrailingSlashes("/admin/login") == "/admin/login";
  }

  /** Redirects never chain: the location a redirect leads to shows a page or the spinner,
      for the same authentication state. */
  lemma RedirectSettles(pathname: string, isAuthenticated: bool, loading: bool)
    requires Route(pathname, isAuthenticated, loading).Redirect?
    ensures !Route(Route(pathname, isAuthenticated, loading).to, isAuthenticated, loading).Redirect?
  {
    var to := Route(pathname, isAuthenticated, loading).to;
    RoutesDistinct(to);
    assert StripTrailingSlashes("/") == "";
    assert StripTrailingSlashes("/admin") == "/admin";
    assert StripTrailingSlashes("/admin/login") == "/admin/login";
  }
}
