/** The guard in front of every admin page. */
module AdminRoute {

  datatype RouteView = Spinner | Redirect(to: string) | RenderChildren

  /**
   * The chain of early returns over the auth state. Loading wins over
   * everything, a missing user over a missing admin flag.
   */
  function Decide(loading: bool, hasUser: bool, isAdmin: bool): (v: RouteView)
    ensures v == Spinner <==> loading
    ensures v == Redirect("/admin/login") <==> !loading && !hasUser
    ensures v == Redirect("/") <==> !loading && hasUser && !isAdmin
    ensures v == RenderChildren <==> !loading && hasUser && isAdmin
  {
    if loading then Spinner
    else if !hasUser then Redirect("/admin/login")
    else if !isAdmin then Redirect("/")
    else RenderChildren
  }

  /** Only two destinations are ever redirected to, and a stale admin flag never opens the page to a signed-out visitor. */
  lemma RedirectTargets(loading: bool, hasUser: bool, isAdmin: bool)
    ensures Decide(loading, hasUser, isAdmin).Redirect? ==> Decide(loading, hasUser, isAdmin).to in {"/admin/login", "/"}
    ensures !hasUser ==> Decide(loading, hasUser, isAdmin) != RenderChildren
  {
  }
}
