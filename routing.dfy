/** Two gate components: the admin layout, which the routes mount around
    every admin page, and the route guard `ProtectedRoute`, which is defined
    but not mounted by any route. Both read the authentication context's
    `loading`, `user` and `isAdmin`. */
module Routing {
  import opened Common

  /** What the route guard renders. */
  datatype RouteView = Spinner | Redirect(to: string) | Outlet

  /** What the admin layout renders: the loading screen, nothing, or the
      shell (sidebar, top bar and the page). */
  datatype LayoutView = LoadingScreen | Nothing | Shell

  /** `ProtectedRoute({ adminOnly })`. */
  function ProtectedRoute(loading: bool, hasUser: bool, isAdmin: bool, adminOnly: bool): (v: RouteView)
    ensures v == Outlet <==> !loading && hasUser && (!adminOnly || isAdmin)
  {
    if loading then Spinner
    else if !hasUser then Redirect("/login")
    else if adminOnly && !isAdmin then Redirect("/")
    else Outlet
  }

  /** The route guard waits while loading, sends a visitor to `/login` and a
      signed-in non-admin on an admin route to `/`; with the default
      `adminOnly = false` any signed-in user gets through. */
  lemma RouteRules(loading: bool, hasUser: bool, isAdmin: bool, adminOnly: bool)
    ensures loading ==> ProtectedRoute(loading, hasUser, isAdmin, adminOnly) == Spinner
    ensures !loading && !hasUser ==> ProtectedRoute(loading, hasUser, isAdmin, adminOnly) == Redirect("/login")
    ensures !loading && hasUser && adminOnly && !isAdmin ==>
      ProtectedRoute(loading, hasUser, isAdmin, adminOnly) == Redirect("/")
    ensures !loading && hasUser ==> ProtectedRoute(loading, hasUser, isAdmin, false) == Outlet
    ensures ProtectedRoute(loading, hasUser, isAdmin, adminOnly).Redirect? ==>
      ProtectedRoute(loading, hasUser, isAdmin, adminOnly).to in {"/login", "/"}
  {
  }

  /** An admin route lets through fewer users than a plain protected one. */
  lemma AdminOnlyIsStricter(loading: bool, hasUser: bool, isAdmin: bool)
    ensures ProtectedRoute(loading, hasUser, isAdmin, true) == Outlet ==>
      ProtectedRoute(loading, hasUser, isAdmin, false) == Outlet
  {
  }

  /** What `AdminLayout` renders. */
  function AdminLayout(loading: bool, hasUser: bool, isAdmin: bool): (v: LayoutView)
    ensures v == Shell <==> !loading && hasUser && isAdmin
  {
    if loading then LoadingScreen
    else if !hasUser || !isAdmin then Nothing
    else Shell
  }

  /** The layout's effect: where it navigates, if anywhere. */
  function AdminRedirect(loading: bool, hasUser: bool, isAdmin: bool): (r: Option<string>)
    ensures r.Some? ==> r.value == "/login"
  {
    if !loading && (!hasUser || !isAdmin) then Some("/login") else None
  }

  /** While loading the layout shows the loading screen and never
      navigates; after loading it navigates to `/login` exactly when it
      renders nothing, and shows the shell exactly when it stays. */
  lemma LayoutRules(loading: bool, hasUser: bool, isAdmin: bool)
    ensures loading ==> AdminLayout(loading, hasUser, isAdmin) == LoadingScreen &&
                        AdminRedirect(loading, hasUser, isAdmin).None?
    ensures AdminRedirect(loading, hasUser, isAdmin).Some? <==> AdminLayout(loading, hasUser, isAdmin) == Nothing
    ensures AdminRedirect(loading, hasUser, isAdmin).None? <==> AdminLayout(loading, hasUser, isAdmin) != Nothing
  {
  }

  /** The two components let through the same users to an admin page, but
      they send a signed-in non-admin to different places: the route guard,
      were it mounted, to `/`, and the layout to `/login`. */
  lemma GatesAgree(loading: bool, hasUser: bool, isAdmin: bool)
    ensures AdminLayout(loading, hasUser, isAdmin) == Shell <==>
      ProtectedRoute(loading, hasUser, isAdmin, true) == Outlet
    ensures !loading && hasUser && !isAdmin ==>
      ProtectedRoute(loading, hasUser, isAdmin, true) == Redirect("/") &&
      AdminRedirect(loading, hasUser, isAdmin) == Some("/login")
  {
  }
}
