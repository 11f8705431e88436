/** `handleLogin` of the login page (src/pages/LoginPage.jsx:20-48): log in, read the role back from
    storage, and navigate to the dashboard of that role. */
module LoginPage {
  import opened Wrappers
  import opened Storage
  import opened Http
  import opened Session
  import opened Guard
  import opened Routes
  import opened Client

  /** The `switch` over the stored role (LoginPage.jsx:27-43): a known role goes to its own guarded
      route, anything else, a missing role included, to `/unauthorized`. */
  function Destination(role: Option<string>): (path: string)
    ensures role.Some? && role.value in KnownRoles ==> path == RolePath(role.value)
    ensures path == UnauthorizedPath <==> role.None? || role.value !in KnownRoles
  {
    if role == Some(Admin) then "/admin"
    else if role == Some(Manager) then "/manager"
    else if role == Some(Chef) then "/chef"
    else if role == Some(UserRole) then "/user"
    else UnauthorizedPath
  }

  /** The four known roles land on four different pages. */
  lemma DestinationsDistinct(a: string, b: string)
    requires a in KnownRoles && b in KnownRoles && a != b
    ensures Destination(Some(a)) != Destination(Some(b))
  {
  }

  /** What `handleLogin` does on the page: navigate somewhere, or show the failure alert. */
  datatype Effect = Navigate(path: string) | Alert

  datatype PageResult = PageResult(session: Session, effect: Effect)

  /** `handleLogin`, given how the login post settles. If `login` throws, nothing is stored and the page
      alerts instead of navigating; otherwise the role read back is the one `login` just wrote. */
  function AfterLogin(s: Session, post: Outcome): (r: PageResult)
    ensures post.Rejected? ==> r == PageResult(s, Alert)
    ensures post.Resolved? ==> r.session == LoginStep(s, post).session
    ensures post.Resolved? ==> r.effect == Navigate(Destination(Some(post.data.role)))
  {
    var lr := LoginStep(s, post);
    if lr.error.Some? then PageResult(lr.session, Alert)
    else PageResult(lr.session, Navigate(Destination(Get(lr.session.store, RoleKey))))
  }

  /** The request `login` posts to `/auth/login`. */
  const LoginRequest: Request := Request(map[], false)

  datatype Submitted = Submitted(world: World, effect: Effect)

  /** `handleLogin` with its `login` post going through `api` (AuthContext.jsx:21), so a 401 on the login
      first runs the axios.js handler. A 2xx on the first transmission logs in and navigates by its
      role; a failure other than a 401 changes nothing but the consumed reply and alerts; `user` changes
      only when the login resolves. */
  function SubmitLogin(w: World): (r: Submitted)
    ensures w.net != [] && w.net[0].Reply? && IsSuccess(w.net[0].status) ==>
      && r.world.store == WriteSession(w.store, w.net[0].data)
      && r.world.user == Some(Identity(w.net[0].data.email, w.net[0].data.role))
      && r.effect == Navigate(Destination(Some(w.net[0].data.role)))
    ensures (w.net == [] || w.net[0].NoResponse? || (!IsSuccess(w.net[0].status) && w.net[0].status != 401)) ==>
      r == Submitted(w.(net := if w.net == [] then [] else w.net[1..]), Alert)
    ensures r.effect.Alert? ==> r.world.user == w.user
    ensures r.effect.Navigate? ==> r.world.user.Some? && Get(r.world.store, RoleKey) == Some(r.world.user.value.role)
    ensures r.effect.Navigate? ==> Visit(r.effect.path, false, r.world.user) == Some(Render)
  {
    var sent := Send(w, LoginRequest);
    var pr := AfterLogin(sent.world.AsSession(), sent.outcome);
    var r := Submitted(sent.world.WithSession(pr.session), pr.effect);
    if sent.outcome.Resolved? then
      LoginAlwaysRenders(sent.world.AsSession(), sent.outcome.data);
      r
    else r
  }

  /** A 401 on the login whose refresh fails (no usable refresh token, say): the axios.js handler empties
      storage and sends the page to `/login`, and the page alerts. A failed login is not free of effects. */
  lemma LoginUnauthorizedClears(w: World, x: AuthData)
    requires |w.net| >= 1 && w.net[0] == Reply(401, x)
    requires |w.net| == 1 || !(w.net[1].Reply? && IsSuccess(w.net[1].status))
    ensures SubmitLogin(w).world.store == map[] && SubmitLogin(w).world.redirected
    ensures SubmitLogin(w).effect == Alert && SubmitLogin(w).world.user == w.user
  {
    RefreshFailureClears(w, LoginRequest, x);
  }

  /** A 401 on the login whose refresh succeeds and whose resend fails again (any error status, or no
      response): the old session is refreshed into storage, all four fields rewritten, and the page
      still alerts. */
  lemma LoginUnauthorizedRefreshesOldSession(w: World, x: AuthData, d: AuthData, third: HttpReply)
    requires !(third.Reply? && IsSuccess(third.status))
    requires |w.net| >= 3 && w.net[0] == Reply(401, x) && w.net[1] == Reply(200, d) && w.net[2] == third
    ensures SubmitLogin(w).world.store == WriteSession(w.store, d)
    ensures SubmitLogin(w).effect == Alert
  {
    RetryFailsAgain(w, LoginRequest, x, d, third, 200);
  }

  /** A 401 on the login, a successful refresh and a successful resend: the page logs in with the resend's
      reply, which overwrites the refreshed fields. */
  lemma LoginAfterRefreshSucceeds(w: World, x: AuthData, d: AuthData, y: AuthData)
    requires |w.net| >= 3 && w.net[0] == Reply(401, x) && w.net[1] == Reply(200, d) && w.net[2] == Reply(200, y)
    ensures SubmitLogin(w).world.store == WriteSession(WriteSession(w.store, d), y)
    ensures SubmitLogin(w).effect == Navigate(Destination(Some(y.role)))
  {
    RetryAfterRefreshSucceeds(w, LoginRequest, x, d, y, 200, 200);
  }

  /** `handleLogin` against the live provider, once the login post has settled: the interceptors of `api`
      have already acted on the shared storage, so the method starts from the storage they left. */
  method HandleLogin(auth: AuthProvider, post: Outcome) returns (effect: Effect)
    modifies auth, auth.storage
    ensures PageResult(auth.State(), effect) == AfterLogin(old(auth.State()), post)
    ensures auth.loading == old(auth.loading)
  {
    var error := auth.Login(post);
    if error.Some? {
      effect := Alert;
      return;
    }
    var role := auth.storage.GetItem(RoleKey);
    effect := Navigate(Destination(role));
  }

  /** After a successful login with a known role, once loading is over, the page navigated to is the
      route whose guard admits exactly that role, and it renders. */
  lemma {:induction false} LoginLandsOnOwnDashboard(s: Session, d: AuthData)
    requires d.role in KnownRoles
    ensures var r := AfterLogin(s, Resolved(d));
      && r.effect == Navigate(RolePath(d.role))
      && (exists page :: Match(AuthRoutes, r.effect.path) == Some(Protected([d.role], page)))
      && Visit(r.effect.path, false, r.session.user) == Some(Render)
  {
    RolePathGuarded(d.role);
  }

  /** Whatever role the backend reports, a successful login never lands on a page that bounces the new
      user: a known role renders its dashboard and any other role renders `/unauthorized`. */
  lemma {:induction false} LoginAlwaysRenders(s: Session, d: AuthData)
    ensures var r := AfterLogin(s, Resolved(d));
      r.effect.Navigate? && Visit(r.effect.path, false, r.session.user) == Some(Render)
  {
    if d.role in KnownRoles {
      LoginLandsOnOwnDashboard(s, d);
    } else {
      PublicPagesUnguarded(false, AfterLogin(s, Resolved(d)).session.user);
    }
  }

  /** A user of one known role who visits another role's dashboard is sent to `/unauthorized`. */
  lemma {:induction false} OtherDashboardsRefused(u: Identity, role: string)
    requires role in KnownRoles && u.role != role
    ensures Visit(Destination(Some(role)), false, Some(u)) == Some(Redirect(UnauthorizedPath, true))
  {
    RolePathGuarded(role);
    var p := Destination(Some(role));
    assert Canonical(p) == p;
  }

  /** A logged-out visitor of any dashboard is sent to `/login`. */
  lemma {:induction false} DashboardsNeedLogin(role: string)
    requires role in KnownRoles
    ensures Visit(RolePath(role), false, None) == Some(Redirect(LoginPath, true))
  {
    RolePathGuarded(role);
  }

  /** Logging in as `a@x.com`/`MANAGER` from empty storage stores exactly the four reply values; the
      manager dashboard then renders and the user dashboard redirects to `/unauthorized`. */
  lemma ManagerScenario()
    ensures var r := AfterLogin(LoggedOut, Resolved(AuthData("T1", "R1", "a@x.com", "MANAGER")));
      && r.session.store == map[AccessTokenKey := "T1", RefreshTokenKey := "R1", EmailKey := "a@x.com", RoleKey := "MANAGER"]
      && r.effect == Navigate("/manager")
      && Visit("/manager", false, r.session.user) == Some(Render)
      && Visit("/user", false, r.session.user) == Some(Redirect(UnauthorizedPath, true))
  {
    LoginLandsOnOwnDashboard(LoggedOut, AuthData("T1", "R1", "a@x.com", "MANAGER"));
    OtherDashboardsRefused(Identity("a@x.com", "MANAGER"), UserRole);
  }
}
