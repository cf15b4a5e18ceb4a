/** The route guard (`components/ProtectedRoute.tsx`): from the auth state
    and the current path it renders nothing, redirects, or renders the page. */
module ProtectedRoute {
  import opened AuthContext

  datatype Render = Nothing | Redirect(to: string) | Children

  const HomePath := "/"
  const RegistrationPath := "/complete-registration"
  const AppPath := "/app"

  /** The guard's chain of checks. */
  function Guard(isLoading: bool, isAuthenticated: bool, needsRegistration: bool, path: string): (r: Render)
    ensures isLoading <==> r == Nothing
    ensures r == Redirect(HomePath) <==> !isLoading && !isAuthenticated
    ensures r == Redirect(RegistrationPath) <==>
      !isLoading && isAuthenticated && needsRegistration && path != RegistrationPath
    ensures r == Redirect(AppPath) <==>
      !isLoading && isAuthenticated && !needsRegistration && path == RegistrationPath
    ensures r.Redirect? ==> r.to in {HomePath, RegistrationPath, AppPath}
  {
    if isLoading then Nothing
    else if !isAuthenticated then Redirect(HomePath)
    else if needsRegistration && path != RegistrationPath then Redirect(RegistrationPath)
    else if !needsRegistration && path == RegistrationPath then Redirect(AppPath)
    else Children
  }

  /** The guard on the auth state. */
  function GuardOf(auth: AuthState, path: string): Render
    reads auth
  {
    Guard(auth.isLoading, auth.IsAuthenticated(), auth.NeedsRegistration(), path)
  }

  /** The page is rendered exactly when the user is signed in, nothing is
      loading, and the path agrees with the registration status. */
  lemma ChildrenIff(isLoading: bool, isAuthenticated: bool, needsRegistration: bool, path: string)
    ensures Guard(isLoading, isAuthenticated, needsRegistration, path) == Children <==>
      !isLoading && isAuthenticated && (needsRegistration <==> path == RegistrationPath)
  {
  }

  /** No redirect loop: with the same auth state, the guard at a redirect's
      target other than "/" renders the page. */
  lemma NoRedirectLoop(isLoading: bool, isAuthenticated: bool, needsRegistration: bool, path: string)
    requires Guard(isLoading, isAuthenticated, needsRegistration, path).Redirect?
    requires Guard(isLoading, isAuthenticated, needsRegistration, path).to != HomePath
    ensures var target := Guard(isLoading, isAuthenticated, needsRegistration, path).to;
      Guard(isLoading, isAuthenticated, needsRegistration, target) == Children
  {
  }

  /** At most one redirect: from any path, following the guard's redirect
      reaches a path where the guard no longer redirects. */
  lemma RedirectSettles(isLoading: bool, isAuthenticated: bool, needsRegistration: bool, path: string)
    requires Guard(isLoading, isAuthenticated, needsRegistration, path).Redirect?
    ensures var target := Guard(isLoading, isAuthenticated, needsRegistration, path).to;
      var next := Guard(isLoading, isAuthenticated, needsRegistration, target);
      next == Children || next == Redirect(HomePath)
  {
  }
}
