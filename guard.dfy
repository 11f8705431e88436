/** The route guard `ProtectedRoute` (src/routes/ProtectedRoute.jsx). */
module Guard {
  import opened Wrappers
  import opened Session

  const LoginPath: string := "/login"
  const UnauthorizedPath: string := "/unauthorized"

  /** What a route shows: the loading placeholder, a `<Navigate>` (with its `replace` flag), or its page. */
  datatype View = Loading | Redirect(to: string, replace: bool) | Render

  /** The guard's decision from `loading`, `user` and the optional `allowedRoles` list. The checks come in
      the order loading, authentication, role, so each input yields exactly one of four views; a present
      list, even an empty one, is truthy and is consulted. */
  function ProtectedRoute(loading: bool, user: Option<Identity>, allowedRoles: Option<seq<string>>): (v: View)
    ensures v == Loading <==> loading
    ensures v == Redirect(LoginPath, true) <==> !loading && user.None?
    ensures v == Redirect(UnauthorizedPath, true) <==>
      !loading && user.Some? && allowedRoles.Some? && user.value.role !in allowedRoles.value
    ensures v == Render <==>
      !loading && user.Some? && (allowedRoles.None? || user.value.role in allowedRoles.value)
    ensures v in {Loading, Redirect(LoginPath, true), Redirect(UnauthorizedPath, true), Render}
  {
    if loading then Loading
    else if user.None? then Redirect(LoginPath, true)
    else if allowedRoles.Some? && user.value.role !in allowedRoles.value then Redirect(UnauthorizedPath, true)
    else Render
  }

  /** An empty `allowedRoles` list sends every logged-in user to `/unauthorized`. */
  lemma EmptyRolesAdmitNobody(u: Identity)
    ensures ProtectedRoute(false, Some(u), Some([])) == Redirect(UnauthorizedPath, true)
  {
  }

  /** The list matters only through whether it holds the user's role. */
  lemma OnlyMembershipMatters(loading: bool, user: Option<Identity>, a: seq<string>, b: seq<string>)
    requires user.Some? ==> (user.value.role in a <==> user.value.role in b)
    ensures ProtectedRoute(loading, user, Some(a)) == ProtectedRoute(loading, user, Some(b))
  {
  }
}
