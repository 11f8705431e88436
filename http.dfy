/** The shared axios instance `api` (src/apis/axios.js): its request interceptor, which attaches the
    stored access token, and its response-error handler, which refreshes the session once on a 401. */
module Http {
  import opened Wrappers
  import opened Storage

  const AuthorizationHeader: string := "Authorization"

  /** The authentication scheme of section 2.1 of RFC 6750, with its separating space. */
  const BearerPrefix: string := "Bearer "

  /** A request config as the interceptors see it: its headers and the `_retry` mark
      (`undefined` in JavaScript reads as `false`). */
  datatype Request = Request(headers: map<string, string>, retried: bool)

  /** What the network delivers for one call: a response with its status and body, or no response at all. */
  datatype HttpReply = Reply(status: int, data: AuthData) | NoResponse

  /** axios's default `validateStatus`: a call resolves only on a 2xx status. */
  predicate IsSuccess(status: int)
  {
    200 <= status < 300
  }

  /** A rejected call: the config of the request (`error.config`) and `error.response?.status`. */
  datatype HttpError = HttpError(config: Request, status: Option<int>)

  /** How a call through `api` settles. */
  datatype Outcome = Resolved(data: AuthData) | Rejected(err: HttpError)

  /** What a response-error handler does with the failed request: send it again through `api`,
      or reject with the given error. */
  datatype Next = Resend(config: Request) | Reject(err: HttpError)

  /** The `Authorization` value the client sends for an access token. */
  function BearerHeader(token: string): string
  {
    BearerPrefix + token
  }

  /** Reads the token back out of an `Authorization` value of the form the client sends. */
  function ParseBearer(h: string): Option<string>
  {
    if |BearerPrefix| <= |h| && h[..|BearerPrefix|] == BearerPrefix then Some(h[|BearerPrefix|..]) else None
  }

  lemma BearerRoundTrip(token: string)
    ensures ParseBearer(BearerHeader(token)) == Some(token)
  {
  }

  lemma BearerParsed(h: string, token: string)
    requires ParseBearer(h) == Some(token)
    ensures BearerHeader(token) == h
  {
  }

  /** Sets `Authorization` on a request to the bearer form of `token`; nothing else changes. */
  function WithBearer(config: Request, token: string): (c: Request)
    ensures c.retried == config.retried
    ensures c.headers.Keys == config.headers.Keys + {AuthorizationHeader}
    ensures ParseBearer(c.headers[AuthorizationHeader]) == Some(token)
    ensures forall k :: k in config.headers && k != AuthorizationHeader ==> c.headers[k] == config.headers[k]
  {
    BearerRoundTrip(token);
    config.(headers := config.headers[AuthorizationHeader := BearerHeader(token)])
  }

  /** The request interceptor (axios.js:8-14): with an access token stored, the outgoing request
      carries it as a bearer credential; otherwise the request goes out as it is. */
  function AttachToken(s: Store, config: Request): (c: Request)
    ensures c.retried == config.retried
    ensures Present(s, AccessTokenKey) ==>
      && c.headers.Keys == config.headers.Keys + {AuthorizationHeader}
      && ParseBearer(c.headers[AuthorizationHeader]) == Some(s[AccessTokenKey])
      && forall k :: k in config.headers && k != AuthorizationHeader ==> k in c.headers && c.headers[k] == config.headers[k]
    ensures !Present(s, AccessTokenKey) ==> c == config
  {
    if Present(s, AccessTokenKey) then WithBearer(config, s[AccessTokenKey]) else config
  }

  method RequestInterceptor(storage: LocalStorage, config: Request) returns (c: Request)
    ensures c == AttachToken(storage.items, config)
  {
    var token := storage.GetItem(AccessTokenKey);
    c := config;
    if token.Some? && token.value != "" {
      c := WithBearer(c, token.value);
    }
  }

  /** The condition of axios.js:22: a 401 on a request not yet marked. */
  predicate AxiosRetries(e: HttpError)
  {
    e.status == Some(401) && !e.config.retried
  }

  /** The error after its request has been marked `_retry = true` in place. */
  function MarkRetried(e: HttpError): HttpError
  {
    e.(config := e.config.(retried := true))
  }

  /** The result of the axios.js response-error handler: the new store, what happens to the request,
      and whether `window.location.href` was set to `/login`. */
  datatype AxiosStepResult = AxiosStepResult(store: Store, next: Next, redirected: bool)

  /** The axios.js response-error handler (axios.js:17-50), given what the bare `axios.post` to the
      refresh endpoint delivers (`refresh`, consulted only when the handler makes that call).
      It resends a request only if that request was unmarked, and every 401 it lets through is marked,
      so the handler registered after it never sees an unmarked 401. */
  function AxiosStep(s: Store, e: HttpError, refresh: HttpReply): (r: AxiosStepResult)
    ensures !AxiosRetries(e) ==> r == AxiosStepResult(s, Reject(e), false)
    ensures r.next.Resend? <==> AxiosRetries(e) && refresh.Reply? && IsSuccess(refresh.status)
    ensures r.next.Resend? ==> r.next.config == e.config.(retried := true)
    ensures r.next.Resend? ==> r.store == WriteSession(s, refresh.data) && !r.redirected
    ensures AxiosRetries(e) && r.next.Reject? ==> r.store == map[] && r.redirected && r.next.err == MarkRetried(e)
    ensures r.next.Reject? ==> r.next.err.status == e.status && (e.status == Some(401) ==> r.next.err.config.retried)
  {
    if !AxiosRetries(e) then AxiosStepResult(s, Reject(e), false)
    else if refresh.Reply? && IsSuccess(refresh.status) then
      AxiosStepResult(WriteSession(s, refresh.data), Resend(e.config.(retried := true)), false)
    else
      AxiosStepResult(map[], Reject(MarkRetried(e)), true)
  }

  /** The handler as the source runs it: `storage` changes in place and the redirect is reported. */
  method ResponseRejected(storage: LocalStorage, e: HttpError, refresh: HttpReply) returns (next: Next, redirected: bool)
    modifies storage
    ensures AxiosStepResult(storage.items, next, redirected) == AxiosStep(old(storage.items), e, refresh)
  {
    redirected := false;
    if e.status == Some(401) && !e.config.retried {
      var config := e.config.(retried := true);
      if refresh.Reply? && IsSuccess(refresh.status) {
        var data := refresh.data;
        storage.SetItem(AccessTokenKey, data.accessToken);
        storage.SetItem(RefreshTokenKey, data.refreshToken);
        storage.SetItem(EmailKey, data.email);
        storage.SetItem(RoleKey, data.role);
        next := Resend(config);
      } else {
        storage.Clear();
        redirected := true;
        next := Reject(e.(config := config));
      }
    } else {
      next := Reject(e);
    }
  }
}
