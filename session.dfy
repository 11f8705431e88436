/** The session manager `AuthProvider` (src/context/AuthContext.jsx): login, logout, token refresh,
    its own response-error handler, and the one-shot restore of `user` from storage. */
module Session {
  import opened Wrappers
  import opened Storage
  import opened Http

  /** The `user` object: who is logged in. */
  datatype Identity = Identity(email: string, role: string)

  /** Persistent storage together with the runtime `user` field. */
  datatype Session = Session(store: Store, user: Option<Identity>)

  /** The state `logout` leaves behind: storage emptied and `user` null. */
  const LoggedOut: Session := Session(map[], None)

  /** `user` agrees with the identity fields in storage (or is null). */
  predicate Mirrors(s: Session)
  {
    s.user.Some? ==> EmailKey in s.store && RoleKey in s.store && s.user.value == Identity(s.store[EmailKey], s.store[RoleKey])
  }

  datatype LoginResult = LoginResult(session: Session, error: Option<HttpError>)

  /** `login` (AuthContext.jsx:20-31), given how its `api.post` to `/auth/login` settled.
      A rejected post throws before any `setItem`, so nothing changes and the error propagates;
      a resolved one persists the four fields of the reply and sets `user` from the same values. */
  function LoginStep(s: Session, post: Outcome): (r: LoginResult)
    ensures r.error.Some? <==> post.Rejected?
    ensures post.Rejected? ==> r.session == s && r.error == Some(post.err)
    ensures post.Resolved? ==> r.session.store == WriteSession(s.store, post.data)
    ensures post.Resolved? ==> r.session.user == Some(Identity(post.data.email, post.data.role))
    ensures post.Resolved? ==> Mirrors(r.session)
  {
    match post
    case Rejected(e) => LoginResult(s, Some(e))
    case Resolved(d) => LoginResult(Session(WriteSession(s.store, d), Some(Identity(d.email, d.role))), None)
  }

  datatype RefreshResult = RefreshResult(session: Session, token: Option<string>)

  /** `refreshAccessToken` from the moment its `api.post` to `/auth/refresh` has settled
      (AuthContext.jsx:54-62): success stores and returns the new access token, failure logs out. */
  function RefreshAfterPost(s: Session, post: Outcome): (r: RefreshResult)
    ensures r.token.Some? <==> post.Resolved?
    ensures post.Resolved? ==> r.token == Some(post.data.accessToken)
    ensures post.Resolved? ==> r.session == Session(s.store[AccessTokenKey := post.data.accessToken], s.user)
    ensures post.Rejected? ==> r.session == LoggedOut
  {
    match post
    case Rejected(_) => RefreshResult(LoggedOut, None)
    case Resolved(d) => RefreshResult(Session(s.store[AccessTokenKey := d.accessToken], s.user), Some(d.accessToken))
  }

  /** `refreshAccessToken` (AuthContext.jsx:49-63), given how its post settles. Without a stored refresh
      token it logs out without calling the backend. Success changes only `accessToken`; every failure
      ends logged out and returns no token. */
  function RefreshStep(s: Session, post: Outcome): (r: RefreshResult)
    ensures r.token.Some? <==> Present(s.store, RefreshTokenKey) && post.Resolved?
    ensures r.token.None? ==> r.session == LoggedOut
    ensures r.token.Some? ==> r.token.value == post.data.accessToken
    ensures r.token.Some? ==>
      && r.session.user == s.user
      && r.session.store.Keys == s.store.Keys + {AccessTokenKey}
      && r.session.store[AccessTokenKey] == r.token.value
      && forall k :: k in s.store && k != AccessTokenKey ==> r.session.store[k] == s.store[k]
  {
    if !Present(s.store, RefreshTokenKey) then RefreshResult(LoggedOut, None)
    else RefreshAfterPost(s, post)
  }

  /** The condition of AuthContext.jsx:77-81: a 401, on an unmarked request, with a refresh token stored. */
  predicate AuthRetries(s: Store, e: HttpError)
  {
    e.status == Some(401) && !e.config.retried && Present(s, RefreshTokenKey)
  }

  /** AuthContext.jsx:84-89, once `_retry` is set and the refresh has returned `token`: a truthy token is
      put on the marked request, which is resent; otherwise the error, now carrying the mark, is rejected. */
  function AuthResume(e: HttpError, token: Option<string>): (n: Next)
    ensures n.Resend? <==> Truthy(token)
    ensures n.Resend? ==> n.config.retried && AuthorizationHeader in n.config.headers && ParseBearer(n.config.headers[AuthorizationHeader]) == Some(token.value)
    ensures n.Resend? ==> n.config == WithBearer(e.config.(retried := true), token.value)
    ensures n.Reject? ==> n.err == MarkRetried(e)
  {
    if Truthy(token) then Resend(WithBearer(e.config.(retried := true), token.value))
    else Reject(MarkRetried(e))
  }

  datatype AuthStepResult = AuthStepResult(session: Session, next: Next)

  /** AuthContext's response-error handler (AuthContext.jsx:73-90), given how the refresh post settles.
      It refreshes and resends only when `AuthRetries` holds and the refresh yields a truthy token; a
      request it resends is marked, so this handler never resends it again. */
  function AuthStep(s: Session, e: HttpError, post: Outcome): (r: AuthStepResult)
    ensures !AuthRetries(s.store, e) ==> r == AuthStepResult(s, Reject(e))
    ensures r.next.Resend? <==> AuthRetries(s.store, e) && post.Resolved? && post.data.accessToken != ""
    ensures r.next.Resend? ==> r.next.config.retried && r.session == RefreshStep(s, post).session
    ensures r.next.Resend? ==> r.next.config == WithBearer(e.config.(retried := true), post.data.accessToken)
    ensures AuthRetries(s.store, e) && r.next.Reject? ==> r.next.err == MarkRetried(e) && r.session == RefreshStep(s, post).session
  {
    if !AuthRetries(s.store, e) then AuthStepResult(s, Reject(e))
    else
      var rr := RefreshStep(s, post);
      AuthStepResult(rr.session, AuthResume(e, rr.token))
  }

  /** The identity the restore effect reads from storage (AuthContext.jsx:104-110): set exactly when
      `accessToken`, `role` and `email` are all truthy; `refreshToken` is not consulted. */
  function RestoredUser(store: Store): (u: Option<Identity>)
    ensures u.Some? <==> Present(store, AccessTokenKey) && Present(store, RoleKey) && Present(store, EmailKey)
    ensures u.Some? ==> u.value == Identity(store[EmailKey], store[RoleKey])
  {
    if Present(store, AccessTokenKey) && Present(store, RoleKey) && Present(store, EmailKey)
    then Some(Identity(store[EmailKey], store[RoleKey]))
    else None
  }

  /** The restore effect sets `user` only when storage holds an identity; otherwise `user` keeps its value. */
  function Restore(user: Option<Identity>, store: Store): (r: Option<Identity>)
    ensures RestoredUser(store).Some? ==> r == RestoredUser(store)
    ensures RestoredUser(store).None? ==> r == user
    ensures r.Some? <==> RestoredUser(store).Some? || user.Some?
  {
    if RestoredUser(store).Some? then RestoredUser(store) else user
  }

  /** The `AuthProvider` component's state: the shared storage and its two `useState` fields. */
  class AuthProvider {
    const storage: LocalStorage
    var user: Option<Identity>
    var loading: bool

    /** `useState(null)` and `useState(true)`. */
    constructor (storage: LocalStorage)
      ensures this.storage == storage && user == None && loading
    {
      this.storage := storage;
      user := None;
      loading := true;
    }

    function State(): Session
      reads this, storage
    {
      Session(storage.items, user)
    }

    method Login(post: Outcome) returns (error: Option<HttpError>)
      modifies this, storage
      ensures LoginResult(State(), error) == LoginStep(old(State()), post)
      ensures loading == old(loading)
    {
      if post.Rejected? {
        error := Some(post.err);
        return;
      }
      var data := post.data;
      storage.SetItem(AccessTokenKey, data.accessToken);
      storage.SetItem(RefreshTokenKey, data.refreshToken);
      storage.SetItem(EmailKey, data.email);
      storage.SetItem(RoleKey, data.role);
      user := Some(Identity(data.email, data.role));
      error := None;
    }

    /** `logout` (AuthContext.jsx:38-41). */
    method Logout()
      modifies this, storage
      ensures State() == LoggedOut
      ensures loading == old(loading)
    {
      storage.Clear();
      user := None;
    }

    method RefreshAccessToken(post: Outcome) returns (token: Option<string>)
      modifies this, storage
      ensures RefreshResult(State(), token) == RefreshStep(old(State()), post)
      ensures loading == old(loading)
    {
      var refreshToken := storage.GetItem(RefreshTokenKey);
      if !(refreshToken.Some? && refreshToken.value != "") {
        Logout();
        return None;
      }
      match post
      case Resolved(data) =>
        storage.SetItem(AccessTokenKey, data.accessToken);
        token := Some(data.accessToken);
      case Rejected(_) =>
        Logout();
        token := None;
    }

    /** The handler installed on `api` by the first effect (AuthContext.jsx:73-90). */
    method OnResponseError(e: HttpError, post: Outcome) returns (next: Next)
      modifies this, storage
      ensures AuthStepResult(State(), next) == AuthStep(old(State()), e, post)
      ensures loading == old(loading)
    {
      var refreshToken := storage.GetItem(RefreshTokenKey);
      if e.status == Some(401) && !e.config.retried && refreshToken.Some? && refreshToken.value != "" {
        var config := e.config.(retried := true);
        var newAccessToken := RefreshAccessToken(post);
        if newAccessToken.Some? && newAccessToken.value != "" {
          next := Resend(WithBearer(config, newAccessToken.value));
          return;
        }
        next := Reject(e.(config := config));
        return;
      }
      next := Reject(e);
    }

    /** The second effect (AuthContext.jsx:103-112), run once on mount. */
    method RestoreSession()
      modifies this
      ensures user == Restore(old(user), storage.items)
      ensures !loading
    {
      var token := storage.GetItem(AccessTokenKey);
      var role := storage.GetItem(RoleKey);
      var email := storage.GetItem(EmailKey);
      if Truthy(token) && Truthy(role) && Truthy(email) {
        user := Some(Identity(email.value, role.value));
      }
      loading := false;
    }
  }

  /** A restore right after a successful login with non-empty fields finds the identity login set. */
  lemma LoginThenRestore(s: Session, d: AuthData)
    requires d.accessToken != "" && d.email != "" && d.role != ""
    ensures var r := LoginStep(s, Resolved(d)).session; RestoredUser(r.store) == r.user
  {
  }

  /** After logout a reload restores nobody. */
  lemma LogoutThenRestore(u: Option<Identity>)
    ensures Restore(u, LoggedOut.store) == u && RestoredUser(LoggedOut.store) == None
  {
  }

  /** Restore does not depend on the refresh token: adding, changing or removing it never changes `user`. */
  lemma RestoreIgnoresRefreshToken(store: Store, v: string)
    ensures RestoredUser(store[RefreshTokenKey := v]) == RestoredUser(store)
    ensures RestoredUser(store - {RefreshTokenKey}) == RestoredUser(store)
  {
  }

  /** Every operation of the session manager keeps `user` in agreement with storage. */
  lemma MirrorsPreserved(s: Session, post: Outcome, e: HttpError)
    requires Mirrors(s)
    ensures Mirrors(LoginStep(s, post).session)
    ensures Mirrors(LoggedOut)
    ensures Mirrors(RefreshStep(s, post).session)
    ensures Mirrors(AuthStep(s, e, post).session)
    ensures Mirrors(Session(s.store, Restore(s.user, s.store)))
  {
  }
}
