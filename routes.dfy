/** The route table of `AuthRoutes` (src/App.jsx:21-64) and what each path shows. */
module Routes {
  import opened Wrappers
  import opened Session
  import opened Guard

  const Admin: string := "ADMIN"
  const Manager: string := "MANAGER"
  const Chef: string := "CHEF"
  const UserRole: string := "USER"

  /** The roles the application knows. */
  const KnownRoles: seq<string> := [Admin, Manager, Chef, UserRole]

  /** A route's element: a `<Navigate replace>`, an unguarded page, or a page behind `ProtectedRoute`. */
  datatype Element = NavigateTo(to: string) | Public(page: string) | Protected(allowedRoles: seq<string>, page: string)

  datatype Route = Route(path: string, element: Element)

  const AuthRoutes: seq<Route> := [
    Route("/", NavigateTo(LoginPath)),
    Route(LoginPath, Public("LoginPage")),
    Route(UnauthorizedPath, Public("UnauthorizedPage")),
    Route("/admin", Protected([Admin], "AdminDashboard")),
    Route("/manager", Protected([Manager], "ManagerDashboard")),
    Route("/chef", Protected([Chef], "ChefDashboard")),
    Route("/user", Protected([UserRole], "UserDashboard"))
  ]

  /** The element of the first route declared for `path`, if any. */
  function Match(routes: seq<Route>, path: string): (e: Option<Element>)
    ensures e.None? <==> forall i :: 0 <= i < |routes| ==> routes[i].path != path
    ensures e.Some? ==> exists i :: 0 <= i < |routes| && routes[i] == Route(path, e.value)
  {
    if routes == [] then None
    else if routes[0].path == path then Some(routes[0].element)
    else
      var e := Match(routes[1..], path);
      assert forall i :: 1 <= i < |routes| ==> routes[i] == routes[1..][i - 1];
      e
  }

  /** ASCII upper case folded to lower case; every other character is kept. */
  function Lower(c: char): char
  {
    if 'A' <= c <= 'Z' then (c as int + 32) as char else c
  }

  /** `s` with its ASCII letters in lower case. */
  function LowerAscii(s: string): (r: string)
    ensures |r| == |s| && forall i :: 0 <= i < |s| ==> r[i] == Lower(s[i])
  {
    seq(|s|, i requires 0 <= i < |s| => Lower(s[i]))
  }

  /** `s` without its trailing slashes. */
  function TrimSlashes(s: string): (r: string)
    ensures |r| <= |s| && r == s[..|r|]
    ensures r == [] || r[|r| - 1] != '/'
    ensures forall i :: |r| <= i < |s| ==> s[i] == '/'
  {
    if |s| > 0 && s[|s| - 1] == '/' then TrimSlashes(s[..|s| - 1]) else s
  }

  /** A path as a route pattern of the table is written: `/`, or lower case without a trailing slash. */
  predicate IsCanonical(p: string)
  {
    p == "/" || (|p| > 0 && p[|p| - 1] != '/' && forall i :: 0 <= i < |p| ==> !('A' <= p[i] <= 'Z'))
  }

  /** The form in which react-router's default matching compares a location with a static route
      pattern: case-insensitive, with any number of trailing slashes accepted, and `/` for a path
      that is empty or all slashes. */
  function Canonical(path: string): (c: string)
    ensures IsCanonical(c)
    ensures IsCanonical(path) ==> c == path
  {
    var t := TrimSlashes(LowerAscii(path));
    if t == "" then "/"
    else
      assert forall i :: 0 <= i < |t| ==> t[i] == LowerAscii(path)[i];
      if IsCanonical(path) && path != "/" then
        assert LowerAscii(path) == path;
        t
      else t
  }

  /** Every pattern in the table is already in canonical form. */
  lemma RoutePathsCanonical()
    ensures forall i :: 0 <= i < |AuthRoutes| ==> IsCanonical(AuthRoutes[i].path)
  {
  }

  /** A trailing slash never changes the canonical form. */
  lemma {:induction false} CanonicalIgnoresTrailingSlash(path: string)
    ensures Canonical(path + "/") == Canonical(path)
  {
    assert LowerAscii(path + "/") == LowerAscii(path) + "/";
    assert (LowerAscii(path) + "/")[..|path|] == LowerAscii(path);
  }

  /** Two paths that differ only in the case of ASCII letters have the same canonical form. */
  lemma {:induction false} CanonicalIgnoresCase(p: string, q: string)
    requires |p| == |q| && forall i :: 0 <= i < |p| ==> Lower(p[i]) == Lower(q[i])
    ensures Canonical(p) == Canonical(q)
  {
    assert LowerAscii(p) == LowerAscii(q);
  }

  /** What navigating to `path` shows, or `None` for a path the table does not declare. The path is
      compared in canonical form, so letter case and trailing slashes do not matter. */
  function Visit(path: string, loading: bool, user: Option<Identity>): (v: Option<View>)
    ensures v.None? <==> Match(AuthRoutes, Canonical(path)).None?
    ensures Match(AuthRoutes, Canonical(path)).Some? && Match(AuthRoutes, Canonical(path)).value.NavigateTo? ==>
      v == Some(Redirect(Match(AuthRoutes, Canonical(path)).value.to, true))
    ensures Match(AuthRoutes, Canonical(path)).Some? && Match(AuthRoutes, Canonical(path)).value.Public? ==> v == Some(Render)
    ensures Match(AuthRoutes, Canonical(path)).Some? && Match(AuthRoutes, Canonical(path)).value.Protected? ==>
      v == Some(ProtectedRoute(loading, user, Some(Match(AuthRoutes, Canonical(path)).value.allowedRoles)))
    ensures v == Some(Loading) ==> loading
  {
    match Match(AuthRoutes, Canonical(path))
    case None => None
    case Some(NavigateTo(to)) => Some(Redirect(to, true))
    case Some(Public(_)) => Some(Render)
    case Some(Protected(roles, _)) => Some(ProtectedRoute(loading, user, Some(roles)))
  }

  /** A route preceded by no other route with its path is the one matched. */
  lemma {:induction false} MatchFirst(routes: seq<Route>, i: nat)
    requires i < |routes|
    requires forall j :: 0 <= j < i ==> routes[j].path != routes[i].path
    ensures Match(routes, routes[i].path) == Some(routes[i].element)
  {
    if i > 0 {
      MatchFirst(routes[1..], i - 1);
    }
  }

  /** No path is declared twice, so the first match is the only one. */
  lemma PathsDistinct()
    ensures forall i, j :: 0 <= i < j < |AuthRoutes| ==> AuthRoutes[i].path != AuthRoutes[j].path
  {
  }

  /** Every declared route is the one its path matches. */
  lemma {:induction false} MatchDeclared(i: nat)
    requires i < |AuthRoutes|
    ensures Match(AuthRoutes, AuthRoutes[i].path) == Some(AuthRoutes[i].element)
    ensures Canonical(AuthRoutes[i].path) == AuthRoutes[i].path
  {
    RoutePathsCanonical();
    PathsDistinct();
    MatchFirst(AuthRoutes, i);
  }

  /** `/` always redirects to `/login`, replacing history, whatever the session state. */
  lemma RootRedirectsToLogin(loading: bool, user: Option<Identity>)
    ensures Visit("/", loading, user) == Some(Redirect(LoginPath, true))
  {
    MatchDeclared(0);
  }

  /** `/login` and `/unauthorized` are not guarded: they render even while loading or logged out. */
  lemma PublicPagesUnguarded(loading: bool, user: Option<Identity>)
    ensures Visit(LoginPath, loading, user) == Some(Render)
    ensures Visit(UnauthorizedPath, loading, user) == Some(Render)
  {
    MatchDeclared(1);
    MatchDeclared(2);
  }

  /** The guarded path of each known role. */
  function RolePath(role: string): string
    requires role in KnownRoles
  {
    if role == Admin then "/admin"
    else if role == Manager then "/manager"
    else if role == Chef then "/chef"
    else "/user"
  }

  /** The index in the table of each known role's route. */
  function RoleIndex(role: string): (i: nat)
    requires role in KnownRoles
    ensures i < |AuthRoutes| && AuthRoutes[i].path == RolePath(role)
    ensures AuthRoutes[i].element.Protected? && AuthRoutes[i].element.allowedRoles == [role]
  {
    if role == Admin then 3 else if role == Manager then 4 else if role == Chef then 5 else 6
  }

  /** Each known role's path is guarded by exactly the one-element list of that role. */
  lemma {:induction false} RolePathGuarded(role: string)
    requires role in KnownRoles
    ensures exists page :: Match(AuthRoutes, RolePath(role)) == Some(Protected([role], page))
    ensures Canonical(RolePath(role)) == RolePath(role)
  {
    MatchDeclared(RoleIndex(role));
  }

  /** A known role is admitted by the guard of one route only: its own. */
  lemma OnlyRoutePerRole(role: string, i: nat)
    requires role in KnownRoles
    requires i < |AuthRoutes| && AuthRoutes[i].element.Protected? && role in AuthRoutes[i].element.allowedRoles
    ensures i == RoleIndex(role)
  {
  }

  /** `/ADMIN` and `/admin/` have the canonical form `/admin`. */
  lemma AdminSpellings()
    ensures Canonical("/ADMIN") == "/admin" && Canonical("/admin/") == "/admin"
  {
    assert LowerAscii("/ADMIN") == LowerAscii("/admin") by {
      assert Lower("/ADMIN"[1]) == 'a';
    }
    CanonicalIgnoresTrailingSlash("/admin");
    assert "/admin" + "/" == "/admin/";
  }

  /** Any spelling of a known role's path, in whatever case and with any trailing slashes, renders
      that role's dashboard for a user of that role once loading is over. */
  lemma {:induction false} RolePathSpellings(path: string, role: string, email: string)
    requires role in KnownRoles && Canonical(path) == RolePath(role)
    ensures Visit(path, false, Some(Identity(email, role))) == Some(Render)
  {
    MatchDeclared(RoleIndex(role));
  }

  /** `/admin`, `/ADMIN` and `/admin/` all render the admin dashboard for an admin. */
  lemma {:induction false} AdminPathVariants(email: string)
    ensures Visit("/admin", false, Some(Identity(email, Admin))) == Some(Render)
    ensures Visit("/ADMIN", false, Some(Identity(email, Admin))) == Some(Render)
    ensures Visit("/admin/", false, Some(Identity(email, Admin))) == Some(Render)
  {
    RolePathGuarded(Admin);
    AdminSpellings();
    RolePathSpellings("/admin", Admin, email);
    RolePathSpellings("/ADMIN", Admin, email);
    RolePathSpellings("/admin/", Admin, email);
  }

  /** Every guard list in the table is a single known role. */
  lemma GuardsAreSingletons()
    ensures forall i :: 0 <= i < |AuthRoutes| && AuthRoutes[i].element.Protected? ==>
      |AuthRoutes[i].element.allowedRoles| == 1 && AuthRoutes[i].element.allowedRoles[0] in KnownRoles
  {
  }
}
