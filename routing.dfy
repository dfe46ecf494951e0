/** The guard wrapped around every page that needs a signed-in user. */
module Routing {
  import opened Options

  const LoginPath := "/login"

  /** What the guard renders: a placeholder, a redirect, or the guarded page. */
  datatype Rendered<C> = LoadingPlaceholder | Redirect(to: string, replace: bool) | Children(content: C)

  /** `ProtectedRoute`: wait while the session is loading, send a visitor
      without a session to the login page (replacing the history entry), and
      otherwise render the children as they are. */
  function ProtectedRoute<U, C>(loading: bool, user: Option<U>, children: C): (r: Rendered<C>)
    ensures r.LoadingPlaceholder? <==> loading
    ensures r.Redirect? <==> !loading && user.None?
    ensures r.Children? <==> !loading && user.Some?
    ensures r.Redirect? ==> r.to == LoginPath && r.replace
    ensures r.Children? ==> r.content == children
  {
    if loading then LoadingPlaceholder
    else if user.None? then Redirect(LoginPath, true)
    else Children(children)
  }
}
