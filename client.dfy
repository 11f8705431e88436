/** One call through `api` with both response interceptors installed. axios runs request interceptors
    before sending and response interceptors in the order they were registered: the axios.js handler
    is registered when that module loads, AuthContext's later, from the provider's first effect.
    A resend (`api(originalRequest)`) or the refresh post inside `refreshAccessToken` is a nested call
    through the same chain. The network is a script of replies consumed one per transmission; once
    it is exhausted, every further call gets no response. */
module Client {
  import opened Wrappers
  import opened Storage
  import opened Http
  import opened Session

  /** Everything a call through `api` reads or changes: storage, `user`, whether the page was sent to
      `/login`, and the replies still to come. */
  datatype World = World(store: Store, user: Option<Identity>, redirected: bool, net: seq<HttpReply>)
  {
    function AsSession(): Session
    {
      Session(store, user)
    }

    function WithSession(s: Session): World
    {
      this.(store := s.store, user := s.user)
    }
  }

  /** How a call through `api` ended, and how many times the request itself was transmitted. */
  datatype Sent = Sent(world: World, outcome: Outcome, attempts: nat)

  /** A rejection that AuthContext's condition cannot act on: any 401 in it carries the retry mark. */
  predicate Settled(o: Outcome)
  {
    o.Rejected? && o.err.status == Some(401) ==> o.err.config.retried
  }

  /** The request `refreshAccessToken` posts to `/auth/refresh`. */
  const RefreshRequest: Request := Request(map[], false)

  /** `api(req)`: the request interceptor, one transmission, then the axios.js handler and AuthContext's
      handler on a failure. A request is transmitted at most twice, once if it is already marked;
      a 2xx reply passes through untouched; and `user` never changes, because every failure the
      axios.js handler passes on is `Settled`, so AuthContext's refresh-and-retry path never runs. */
  function Send(w: World, req: Request): (r: Sent)
    decreases |w.net|, 0
    ensures |r.world.net| <= |w.net|
    ensures 1 <= r.attempts <= (if req.retried then 1 else 2)
    ensures Settled(r.outcome)
    ensures r.world.user == w.user
    ensures w.net != [] && w.net[0].Reply? && IsSuccess(w.net[0].status) ==>
      r == Sent(w.(net := w.net[1..]), Resolved(w.net[0].data), 1)
  {
    var config := AttachToken(w.store, req);
    if w.net == [] then
      // no response: `error.response?.status` is undefined, so both handlers reject it unchanged
      Sent(w, Rejected(HttpError(config, None)), 1)
    else
      var reply := w.net[0];
      var w1 := w.(net := w.net[1..]);
      if reply.Reply? && IsSuccess(reply.status) then Sent(w1, Resolved(reply.data), 1)
      else
        var e := HttpError(config, if reply.Reply? then Some(reply.status) else None);
        var r1 := AxiosRejected(w1, e);
        var r2 := AuthRejected(r1.world, r1.outcome);
        Sent(r2.world, r2.outcome, 1 + r1.attempts + r2.attempts)
  }

  /** The axios.js handler inside the chain: the refresh goes out through bare `axios`, so it consumes
      one reply and meets no interceptor; a resend goes back through `api`, and its result, success
      or failure, is the handler's result (it is returned, not awaited, inside the `try`). */
  function AxiosRejected(w: World, e: HttpError): (r: Sent)
    decreases |w.net|, 1
    ensures |r.world.net| <= |w.net|
    ensures r.attempts <= (if e.config.retried then 0 else 1)
    ensures Settled(r.outcome)
    ensures r.world.user == w.user
    ensures !AxiosRetries(e) ==> r == Sent(w, Rejected(e), 0)
  {
    if !AxiosRetries(e) then Sent(w, Rejected(e), 0)
    else
      var reply := if w.net == [] then NoResponse else w.net[0];
      var w1 := w.(net := if w.net == [] then [] else w.net[1..]);
      var st := AxiosStep(w.store, e, reply);
      var w2 := w1.(store := st.store, redirected := w1.redirected || st.redirected);
      match st.next
      case Resend(c) => Send(w2, c)
      case Reject(err) => Sent(w2, Rejected(err), 0)
  }

  datatype Refreshed = Refreshed(world: World, token: Option<string>)

  /** `refreshAccessToken` inside the chain: its post to `/auth/refresh` is itself a call through `api`. */
  function RefreshFlow(w: World): (r: Refreshed)
    decreases |w.net|, 1
    ensures |r.world.net| <= |w.net|
  {
    if !Present(w.store, RefreshTokenKey) then Refreshed(w.WithSession(LoggedOut), None)
    else
      var sent := Send(w, RefreshRequest);
      var rr := RefreshAfterPost(sent.world.AsSession(), sent.outcome);
      Refreshed(sent.world.WithSession(rr.session), rr.token)
  }

  /** AuthContext's handler inside the chain: it acts only when `AuthRetries` holds of what the axios.js
      handler passed on, and otherwise hands that on unchanged. */
  function AuthRejected(w: World, out: Outcome): (r: Sent)
    decreases |w.net|, 2
    ensures |r.world.net| <= |w.net|
    ensures r.attempts <= 1
    ensures !(out.Rejected? && AuthRetries(w.store, out.err)) ==> r == Sent(w, out, 0)
  {
    if out.Rejected? && AuthRetries(w.store, out.err) then
      var rf := RefreshFlow(w);
      match AuthResume(out.err, rf.token)
      case Resend(c) => Send(rf.world, c)
      case Reject(err) => Sent(rf.world, Rejected(err), 0)
    else Sent(w, out, 0)
  }

  /** No failure that leaves the axios.js handler can satisfy AuthContext's retry condition,
      whatever storage holds. */
  lemma AuthContextRetryUnreachable(w: World, e: HttpError, s: Store)
    ensures var r1 := AxiosRejected(w, e); !(r1.outcome.Rejected? && AuthRetries(s, r1.outcome.err))
  {
  }

  /** A 401, a successful refresh, then a successful resend: the caller sees the resend's response and
      storage holds the refreshed session. */
  lemma RetryAfterRefreshSucceeds(w: World, req: Request, x: AuthData, d: AuthData, y: AuthData, s2: int, s3: int)
    requires !req.retried && IsSuccess(s2) && IsSuccess(s3)
    requires |w.net| >= 3 && w.net[0] == Reply(401, x) && w.net[1] == Reply(s2, d) && w.net[2] == Reply(s3, y)
    ensures Send(w, req).outcome == Resolved(y)
    ensures Send(w, req).world.store == WriteSession(w.store, d)
    ensures Send(w, req).attempts == 2
  {
  }

  /** A 401, a successful refresh, and a resend that fails again (another error status, or no response):
      the caller sees the resend's failure after exactly two transmissions, with the refreshed session
      stored; there is no third transmission. */
  lemma {:induction false} RetryFailsAgain(w: World, req: Request, x: AuthData, d: AuthData, third: HttpReply, s2: int)
    requires !req.retried && IsSuccess(s2) && !(third.Reply? && IsSuccess(third.status))
    requires |w.net| >= 3 && w.net[0] == Reply(401, x) && w.net[1] == Reply(s2, d) && w.net[2] == third
    ensures Send(w, req).outcome.Rejected?
    ensures Send(w, req).outcome.err.status == (if third.Reply? then Some(third.status) else None)
    ensures Send(w, req).attempts == 2
    ensures Send(w, req).world.net == w.net[3..]
    ensures Send(w, req).world.store == WriteSession(w.store, d)
  {
    var config := AttachToken(w.store, req);
    var e := HttpError(config, Some(401));
    var w1 := w.(net := w.net[1..]);
    var st := AxiosStep(w1.store, e, w1.net[0]);
    var w2 := w1.(net := w1.net[1..], store := st.store, redirected := w1.redirected || st.redirected);
    var c := config.(retried := true);
    var w3 := w2.(net := w2.net[1..]);
    var e2 := HttpError(AttachToken(w2.store, c), if third.Reply? then Some(third.status) else None);
    assert AxiosRejected(w3, e2) == Sent(w3, Rejected(e2), 0);
    assert Send(w2, c) == Sent(w3, Rejected(e2), 1);
    assert AxiosRejected(w1, e) == Send(w2, c);
  }

  /** A 401 whose refresh fails: storage is cleared, the page is sent to `/login`, and the caller sees
      the original 401, now marked, after one transmission. */
  lemma RefreshFailureClears(w: World, req: Request, x: AuthData)
    requires !req.retried
    requires |w.net| >= 1 && w.net[0] == Reply(401, x)
    requires |w.net| == 1 || !(w.net[1].Reply? && IsSuccess(w.net[1].status))
    ensures Send(w, req).world.store == map[] && Send(w, req).world.redirected
    ensures Send(w, req).outcome == Rejected(MarkRetried(HttpError(AttachToken(w.store, req), Some(401))))
    ensures Send(w, req).attempts == 1
  {
  }

  /** The axios.js refresh rewrites `email` and `role` in storage but leaves `user` alone: when the refresh
      reply names another role, `user` and storage disagree afterwards. */
  lemma AxiosRefreshCanSplitUserFromStore(w: World, req: Request, x: AuthData, d: AuthData, y: AuthData)
    requires !req.retried && w.user.Some? && d.role != w.user.value.role
    requires |w.net| >= 3 && w.net[0] == Reply(401, x) && w.net[1] == Reply(200, d) && w.net[2] == Reply(200, y)
    ensures !Mirrors(Send(w, req).world.AsSession())
  {
  }
}
