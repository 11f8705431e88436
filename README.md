# Session lifecycle and route guarding of the hostel front end

This project models the client-side session of a React single-page app for a hostel dashboard.
The session lives in `localStorage` under four keys: `accessToken`, `refreshToken`, `email` and `role`.
It is driven by the `AuthProvider` component (login, logout, token refresh, a 401 handler and a one-shot restore).
The shared axios instance `api` attaches the token to every request and refreshes the session once on a 401.
The app then gates navigation with `ProtectedRoute` and a static route table.
After a successful login, the login page sends the user to their role's dashboard.

Modules, one per source concern:

- `Wrappers`: `Option`.
- `Storage`: `localStorage` as a `map<string, string>`.
  - A class `LocalStorage` with `GetItem`, `SetItem` and `Clear`.
  - JavaScript truthiness of a stored value (`Present`: the key exists and is not empty).
  - The four writes that persist a session (`WriteSession`).
- `Http` (`src/apis/axios.js`): requests as `{headers, retried}` records.
  - The request interceptor (`AttachToken`).
  - The response-error handler as a step function (`AxiosStep`) that takes what the bare refresh call delivered.
  - Methods that run both interceptors against the shared storage object.
- `Session` (`src/context/AuthContext.jsx`): pure step functions for `login`, `refreshAccessToken`, the provider's own 401 handler and the restore effect.
  - Backend replies are parameters.
  - The class `AuthProvider` holds `storage`, `user` and `loading`. Its methods update that state in place and are proved equal to the step functions.
- `Client`: one call through `api` with both response handlers chained the way axios runs them.
  - The network is a script of replies, consumed one per transmission.
  - A resend, or the refresh post made by `refreshAccessToken`, is a nested call through the same chain.
- `Guard` (`src/routes/ProtectedRoute.jsx`): the guard's decision as a total function.
- `Routes` (`src/App.jsx`): the route table as data, lookup, and what each path shows.
- `LoginPage` (`src/pages/LoginPage.jsx`): `handleLogin` and its role → path switch, plus the properties that span the page, the table and the guard.

Main results:

- **A request is transmitted at most twice, and only once if it is already marked.** `Client.Send` carries this.
  - The axios.js handler is registered first, when that module loads.
  - axios runs response handlers in registration order.
  - So every 401 that reaches AuthContext's handler is already marked `_retry`.
  - AuthContext's refresh-and-retry path therefore never runs inside the chain, and `user` is never changed by a call through `api`.
- **Every successful login lands on a page that renders** (`LoginPage.LoginAlwaysRenders`).
  - For a known role, that page is the only route whose guard admits that role.

## Notable behaviours of the code

The model follows what the code does, including these consequences that a reader of the components alone may not expect:

- **Restore ignores `refreshToken`.** The restore effect checks only `accessToken`, `role` and `email` (AuthContext.jsx:108). A store without `refreshToken` still restores a user (`Session.RestoreIgnoresRefreshToken`).
- **Two 401 handlers exist.** The refresh that actually happens is the axios.js one:
  - It posts with bare `axios`.
  - On success it rewrites all four fields. It does not write only `accessToken`.
  - On failure it clears storage and redirects, but leaves `user` as it was.
  - `refreshAccessToken` is reachable only through AuthContext's handler, which the chain never lets act.
- **`user` can diverge from storage.** The axios.js refresh rewrites `email` and `role` without touching `user`. So a refresh reply naming another role leaves the two disagreeing (`Client.AxiosRefreshCanSplitUserFromStore`). Every `AuthProvider` operation keeps them in agreement (`Session.MirrorsPreserved`).
- **A failed login can change storage.** The login post goes through `api` (AuthContext.jsx:21), so a 401 from `/auth/login` first runs the axios.js handler. If the refresh fails, storage is emptied and the page is sent to `/login` (`LoginPage.LoginUnauthorizedClears`). If a stored refresh token still works, the old session is refreshed into storage and the login is resent (`LoginPage.LoginUnauthorizedRefreshesOldSession`). Only failures other than a 401 leave storage as it was.
- **A resend's failure is not caught.** The resend inside the axios.js `try` is returned, not awaited. A failing resend therefore propagates as it is, and storage is not cleared.

## Model

| member | source | states |
|---|---|---|
| `Storage.WriteSession` | src/context/AuthContext.jsx:24-27 | the four `setItem` calls write exactly the four session keys with the reply's values; every other key is kept |
| `Http.AttachToken` | src/apis/axios.js:8-14 | with a truthy stored access token the request carries an `Authorization` value that parses back to that token, other headers and the retry mark untouched; otherwise the request is unchanged |
| `Http.RequestInterceptor` | src/apis/axios.js:8-14 | the interceptor run against the shared storage object produces the request `AttachToken` describes |
| `Http.WithBearer` | src/context/AuthContext.jsx:85 | setting `Authorization` to the bearer form of a token adds only that header, whose value parses back to the token |
| `Http.BearerRoundTrip` | src/apis/axios.js:11 | the bearer value built for a token parses back to that token |
| `Http.BearerParsed` | src/apis/axios.js:11 | any value that parses to a token is exactly the bearer value of that token |
| `Http.AxiosStep` | src/apis/axios.js:17-50 | non-401s and marked requests are rejected unchanged with storage untouched; an unmarked 401 is resent, marked, exactly when the refresh succeeds, after storage gets all four reply fields; a failed refresh clears storage, redirects and rejects the marked original error; every 401 it rejects carries the mark |
| `Http.ResponseRejected` | src/apis/axios.js:19-49 | the handler run in place on storage yields the new storage, next step and redirect flag of `AxiosStep` |
| `Session.LoginStep` | src/context/AuthContext.jsx:20-31 | a rejected post changes nothing and propagates its error; a resolved one stores the reply's four fields and sets `user` to its email and role, which then agree with storage |
| `Session.AuthProvider.Login` | src/context/AuthContext.jsx:20-31 | the in-place `login` leaves storage, `user` and the error as `LoginStep` says, `loading` untouched |
| `Session.AuthProvider.Logout` | src/context/AuthContext.jsx:38-41 | storage is emptied of every key and `user` is null |
| `Session.RefreshAfterPost` | src/context/AuthContext.jsx:54-62 | after the refresh post, success stores and returns the new access token and keeps `user`, failure logs out and returns nothing |
| `Session.RefreshStep` | src/context/AuthContext.jsx:49-63 | a token is returned exactly when a refresh token is stored and the post resolves; then only `accessToken` changes and `user` is kept; otherwise the result is the logged-out state |
| `Session.AuthProvider.RefreshAccessToken` | src/context/AuthContext.jsx:49-63 | the in-place refresh leaves storage, `user` and the returned token as `RefreshStep` says |
| `Session.AuthResume` | src/context/AuthContext.jsx:82-89 | the marked request is resent with the new token as its bearer credential exactly when the token is truthy, and the resent request is the original one with only `Authorization` replaced and the mark set; otherwise the marked original error is rejected |
| `Session.AuthStep` | src/context/AuthContext.jsx:73-90 | without a 401 on an unmarked request and a stored refresh token, nothing changes and the error is rejected; a resend happens exactly when the refresh post yields a non-empty token, and the resent request is the original one, marked, with only `Authorization` replaced by the refreshed token |
| `Session.AuthProvider.OnResponseError` | src/context/AuthContext.jsx:73-90 | the in-place handler leaves storage, `user` and the next step as `AuthStep` says |
| `Session.RestoredUser` | src/context/AuthContext.jsx:103-110 | a user is restored exactly when `accessToken`, `role` and `email` are all truthy, and it is built from the stored email and role |
| `Session.Restore` | src/context/AuthContext.jsx:108-110 | `user` becomes the restored identity when storage holds one and keeps its value otherwise |
| `Session.AuthProvider.RestoreSession` | src/context/AuthContext.jsx:103-112 | `user` is set from storage when it holds an identity, otherwise kept; `loading` is false afterwards in every case |
| `Session.AuthProvider.constructor` | src/context/AuthContext.jsx:11-12 | the provider starts with `user` null and `loading` true |
| `Session.LoginThenRestore` | src/context/AuthContext.jsx:24-30 | after a login with non-empty fields, restoring from storage gives back the user login set |
| `Session.LogoutThenRestore` | src/context/AuthContext.jsx:39 | after logout, restore finds nobody and leaves `user` as it is |
| `Session.RestoreIgnoresRefreshToken` | src/context/AuthContext.jsx:108 | adding, changing or removing the refresh token never changes the restored user |
| `Session.MirrorsPreserved` | src/context/AuthContext.jsx:20-112 | login, logout, refresh, the provider's 401 handler and restore all keep `user` in agreement with the stored email and role |
| `Client.Send` | src/apis/axios.js:17-50 | a call through `api` transmits its request once or twice (once if already marked); a 2xx reply passes through untouched; no 401 escapes unmarked; `user` is never changed |
| `Client.AxiosRejected` | src/apis/axios.js:22-48 | within the chain the axios.js handler resends at most once and only unmarked requests, never changes `user`, and passes on only failures AuthContext's condition cannot act on |
| `Client.AuthRejected` | src/context/AuthContext.jsx:77-89 | within the chain AuthContext's handler passes its input on unchanged unless its retry condition holds, and transmits the request at most once more |
| `Client.RefreshFlow` | src/context/AuthContext.jsx:49-63 | the refresh made from inside the chain consumes replies and creates none |
| `Client.AuthContextRetryUnreachable` | src/context/AuthContext.jsx:77-81 | no failure leaving the axios.js handler satisfies AuthContext's retry condition, whatever storage holds |
| `Client.RetryAfterRefreshSucceeds` | src/apis/axios.js:22-41 | a 401, a successful refresh and a successful resend give the caller the resend's response after two transmissions, with the refreshed session stored |
| `Client.RetryFailsAgain` | src/apis/axios.js:22-41 | a 401, a successful refresh and a resend that fails again (any error status or no response) give the caller the resend's failure after exactly two transmissions, with no further reply consumed and the refreshed session left in storage |
| `Client.RefreshFailureClears` | src/apis/axios.js:42-48 | a 401 whose refresh fails clears storage, redirects, and rejects the marked original error after one transmission |
| `Client.AxiosRefreshCanSplitUserFromStore` | src/apis/axios.js:32-35 | an axios.js refresh whose reply names another role leaves `user` disagreeing with storage |
| `Guard.ProtectedRoute` | src/routes/ProtectedRoute.jsx:6-23 | loading shows the placeholder; otherwise no user redirects to `/login`; a present role list without the user's role redirects to `/unauthorized`; otherwise the page renders; each holds in both directions and these four are the only results |
| `Guard.EmptyRolesAdmitNobody` | src/routes/ProtectedRoute.jsx:17 | an empty (truthy) role list sends every logged-in user to `/unauthorized` |
| `Guard.OnlyMembershipMatters` | src/routes/ProtectedRoute.jsx:17-22 | two role lists that agree on the user's role give the same decision |
| `Routes.Match` | src/App.jsx:19-65 | lookup of a path already in canonical form finds nothing exactly when no route declares it, and otherwise returns the element of a route declared for it |
| `Routes.LowerAscii` | src/App.jsx:19-65 | every ASCII capital of the location is folded to lower case and every other character kept, as in react-router's default case-insensitive matching |
| `Routes.TrimSlashes` | src/App.jsx:19-65 | the result is a prefix of the path ending in no slash, and everything dropped is a slash, as react-router accepts any number of trailing slashes |
| `Routes.Canonical` | src/App.jsx:19-65 | the form in which a location is compared with the static patterns is canonical, and a path already canonical is its own form |
| `Routes.RoutePathsCanonical` | src/App.jsx:21-64 | every pattern in the table is already canonical |
| `Routes.CanonicalIgnoresTrailingSlash` | src/App.jsx:19-65 | appending a slash never changes the route a path reaches |
| `Routes.CanonicalIgnoresCase` | src/App.jsx:19-65 | paths that differ only in the case of ASCII letters reach the same route |
| `Routes.AdminSpellings` | src/App.jsx:30-37 | `/ADMIN` and `/admin/` have the canonical form `/admin` |
| `Routes.RolePathSpellings` | src/App.jsx:30-64 | any path whose canonical form is a known role's path, whatever its case and trailing slashes, renders that role's dashboard for a user of that role once loading is over |
| `Routes.AdminPathVariants` | src/App.jsx:30-37 | `/admin`, `/ADMIN` and `/admin/` all render the admin dashboard for an admin once loading is over |
| `Routes.Visit` | src/App.jsx:19-65 | the location is compared in canonical form, so case and trailing slashes do not matter; a path whose canonical form no route declares shows nothing; a `Navigate` route redirects with `replace`; a public page renders; a guarded page shows `ProtectedRoute`'s decision for its role list; the placeholder appears only while loading |
| `Routes.MatchFirst` | src/App.jsx:19-65 | a route preceded by no other route with its path is the one lookup returns |
| `Routes.MatchDeclared` | src/App.jsx:21-64 | every declared path looks up its own element and is its own canonical form |
| `Routes.PathsDistinct` | src/App.jsx:21-64 | no path is declared twice |
| `Routes.RootRedirectsToLogin` | src/App.jsx:21 | `/` redirects to `/login`, replacing history, whatever the session state |
| `Routes.PublicPagesUnguarded` | src/App.jsx:24-27 | `/login` and `/unauthorized` render even while loading or logged out |
| `Routes.RoleIndex` | src/App.jsx:30-64 | each known role has a table entry at its own path, guarded by exactly the one-element list of that role |
| `Routes.RolePathGuarded` | src/App.jsx:30-64 | looking up a known role's path gives a page guarded by exactly that role, and the path is its own canonical form |
| `Routes.OnlyRoutePerRole` | src/App.jsx:30-64 | the only route whose guard admits a known role is that role's own route |
| `Routes.GuardsAreSingletons` | src/App.jsx:30-64 | every guard list in the table holds a single known role |
| `LoginPage.Destination` | src/pages/LoginPage.jsx:27-43 | a known role goes to its own guarded route; the path is `/unauthorized` exactly when the role is missing or unknown |
| `LoginPage.DestinationsDistinct` | src/pages/LoginPage.jsx:27-39 | the four known roles go to four different paths |
| `LoginPage.AfterLogin` | src/pages/LoginPage.jsx:24-47 | once the login post has settled (and the interceptors have acted on storage), a rejection leaves that state alone and alerts without navigating; a resolution navigates by the role just written by `login` and read back from storage |
| `LoginPage.HandleLogin` | src/pages/LoginPage.jsx:20-48 | `handleLogin` run against the live provider, from the storage the settled post left, ends in the state and page effect `AfterLogin` says, with `loading` untouched |
| `LoginPage.SubmitLogin` | src/pages/LoginPage.jsx:20-48 | with the login post going through `api`: a 2xx logs in and navigates by its role; a non-401 failure or no response changes nothing but the consumed reply and alerts; `user` changes only on navigation, and then agrees with the stored role; every page it navigates to renders for the new user once loading is over |
| `LoginPage.LoginUnauthorizedClears` | src/apis/axios.js:22-45 | a 401 on the login whose refresh fails empties storage, redirects to `/login`, and the page alerts |
| `LoginPage.LoginUnauthorizedRefreshesOldSession` | src/apis/axios.js:22-41 | a 401 on the login whose refresh succeeds and whose resend fails again (any error status or no response) rewrites storage with the refreshed session, and the page alerts |
| `LoginPage.LoginAfterRefreshSucceeds` | src/apis/axios.js:22-41 | a 401 on the login, a successful refresh and a successful resend log in with the resend's reply and navigate by its role |
| `LoginPage.LoginLandsOnOwnDashboard` | src/pages/LoginPage.jsx:24-39 | after logging in with a known role, the page navigated to is guarded by exactly that role and renders for the new user |
| `LoginPage.LoginAlwaysRenders` | src/pages/LoginPage.jsx:24-43 | whatever role the backend reports, the page a successful login navigates to renders for the new user |
| `LoginPage.OtherDashboardsRefused` | src/pages/LoginPage.jsx:27-39 | a user visiting another known role's destination is redirected to `/unauthorized` |
| `LoginPage.DashboardsNeedLogin` | src/routes/ProtectedRoute.jsx:14 | a logged-out visitor of any role's dashboard is redirected to `/login` |
| `LoginPage.ManagerScenario` | src/pages/LoginPage.jsx:24-32 | logging in as a manager from empty storage stores exactly the four reply values and navigates to `/manager`; that page renders and `/user` redirects to `/unauthorized` |

## Left out

- Rendering: the JSX and MUI styling of the login page, the form-state hooks, `console.error` and the alert text are presentational. The alert is the `Alert` effect only.
- `src/main.jsx` only mounts the provider and the app under StrictMode. It is not part of this model.
- The real HTTP transport (axios internals, `baseURL`, JSON encoding) is not modelled. Each reply is a status plus a body carrying the four auth fields, or no reply.
- A reply body that lacks one of the four fields is not modelled. JavaScript would store the text "undefined" for it.
- Async scheduling is not modelled, so concurrent 401s and the duplicate refresh calls they can cause are out of scope. Each call through `api` is one sequential evaluation.
- React hook mechanics are not modelled: `useEffect` timing, StrictMode's double invocation, and interceptor install and `eject`. The model assumes exactly one AuthContext handler, registered after the axios.js one.
- The navigation caused by `window.location.href = "/login"` is only a `redirected` flag. The page reload it triggers, and the restore that reload would run, are not modelled.
- The write to `api.defaults.headers.common` (axios.js:38-40) is not modelled. While a token is stored the request interceptor overwrites `Authorization` anyway. But after an axios.js refresh followed by an in-app `logout()` without a reload, the real client keeps sending the old bearer on every request. `Http.AttachToken` instead says such a request goes out unchanged.
- The dashboard and unauthorized page bodies are not modelled, nor what react-router shows for undeclared paths (`Visit` gives `None`).
- React-router ranks routes instead of taking the first match. With distinct static paths, all in canonical form, at most one route matches a location, so the two agree (`Routes.PathsDistinct`, `Routes.RoutePathsCanonical`).
- Routes.Visit: react-router also percent-decodes the location before matching, depending on its version. `Visit` does not decode, so a location such as `/%61dmin` shows nothing in the model. Case folding and trailing slashes are modelled by `Routes.Canonical`.
- Client.AuthRejected: its contract describes only the pass-through case and bounds the transmissions. The refresh-and-retry case is unreachable from `Client.Send`, so its outcome is not specified further.
- Client.RefreshFlow: its contract states only that it consumes replies. It is reached only through the refresh-and-retry case of `Client.AuthRejected`.
