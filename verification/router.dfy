/** The route table of the application shell: a pure function of the session's
    `loading` and `isAuthenticated` flags and the requested path. Paths are compared
    exactly as strings. */
module Router {
  import opened Common

  datatype Page =
    | Spinner
    | SignupPage | OwnerSignupPage | VerifyEmailPage | LoginPage
    | ForgotPasswordPage | VerifyOtpPage | UpdatePasswordPage
    | HomePage
    | BusinessProfilePage(placeId: string)

  datatype View = Show(page: Page) | Redirect(target: string)

  /** The seven routes that render regardless of authentication. */
  function AuthRoute(path: string): Option<Page> {
    if path == "/signup" then Some(SignupPage)
    else if path == "/signup-owner" then Some(OwnerSignupPage)
    else if path == "/verify-email" then Some(VerifyEmailPage)
    else if path == "/login" then Some(LoginPage)
    else if path == "/forgot-password" then Some(ForgotPasswordPage)
    else if path == "/verify-otp" then Some(VerifyOtpPage)
    else if path == "/update-password" then Some(UpdatePasswordPage)
    else None
  }

  const BusinessPrefix := "/business/"

  /** The `:placeId` of a path matching `/business/:placeId`: one non-empty segment. */
  function BusinessPlaceId(path: string): Option<string> {
    if |BusinessPrefix| < |path| && path[..|BusinessPrefix|] == BusinessPrefix
       && '/' !in path[|BusinessPrefix|..]
    then Some(path[|BusinessPrefix|..])
    else None
  }

  predicate IsProtected(p: Page) {
    p.HomePage? || p.BusinessProfilePage?
  }

  /** No path matches both an auth route and the business route. */
  lemma RoutesDisjoint(path: string)
    ensures AuthRoute(path).Some? ==> BusinessPlaceId(path).None? && path != "/"
  {
    if AuthRoute(path).Some? && |BusinessPrefix| < |path| {
      assert path[..|BusinessPrefix|][1] == path[1] != BusinessPrefix[1];
    }
  }

  /** What the shell renders for `path`. */
  function Route(loading: bool, isAuthenticated: bool, path: string): (v: View)
    ensures loading ==> v == Show(Spinner)
    ensures !loading && AuthRoute(path).Some? ==> v == Show(AuthRoute(path).value)
    ensures !loading && path == "/" ==>
      v == (if isAuthenticated then Show(HomePage) else Redirect("/login"))
    ensures !loading && BusinessPlaceId(path).Some? ==>
      v == (if isAuthenticated then Show(BusinessProfilePage(BusinessPlaceId(path).value)) else Redirect("/login"))
    ensures !loading && AuthRoute(path).None? && path != "/" && BusinessPlaceId(path).None? ==>
      v == Redirect("/")
    ensures v.Show? && IsProtected(v.page) ==> isAuthenticated
  {
    RoutesDisjoint(path);
    if loading then Show(Spinner)
    else if AuthRoute(path).Some? then Show(AuthRoute(path).value)
    else if path == "/" then
      if isAuthenticated then Show(HomePage) else Redirect("/login")
    else if BusinessPlaceId(path).Some? then
      if isAuthenticated then Show(BusinessProfilePage(BusinessPlaceId(path).value)) else Redirect("/login")
    else Redirect("/")
  }

  /** Follows at most `hops` redirects from `path`. */
  function Settle(loading: bool, isAuthenticated: bool, path: string, hops: nat): View
    decreases hops
  {
    match Route(loading, isAuthenticated, path)
    case Show(p) => Show(p)
    case Redirect(t) => if hops == 0 then Redirect(t) else Settle(loading, isAuthenticated, t, hops - 1)
  }

  /** Every path settles on a page after at most two redirects, and an unauthenticated
      session that has finished loading never reaches the home page or a business profile. */
  lemma SettlesWithinTwoRedirects(loading: bool, isAuthenticated: bool, path: string)
    ensures Settle(loading, isAuthenticated, path, 2).Show?
    ensures !loading && !isAuthenticated ==>
      !IsProtected(Settle(loading, isAuthenticated, path, 2).page)
    ensures !loading && isAuthenticated && AuthRoute(path).None? && BusinessPlaceId(path).None? ==>
      Settle(loading, isAuthenticated, path, 2) == Show(HomePage)
  {
    assert BusinessPlaceId("/").None?;
    assert BusinessPlaceId("/login").None?;
    assert AuthRoute("/login") == Some(LoginPage);
  }

  /** The owner dashboard path is not declared, so it lands on the home page when signed
      in and on the login page otherwise. */
  lemma OwnerPathIsNotRouted(isAuthenticated: bool)
    ensures Route(false, isAuthenticated, "/owner") == Redirect("/")
    ensures Settle(false, isAuthenticated, "/owner", 2) == Show(if isAuthenticated then HomePage else LoginPage)
  {
    assert BusinessPlaceId("/owner").None?;
    assert BusinessPlaceId("/").None?;
    assert BusinessPlaceId("/login").None?;
  }
}
