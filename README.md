# Refresh-token lifecycle of a JWT authentication flow, in Dafny

This project models the session protocol of a small JWT-based authentication system
(a NestJS server and a Next.js client) and proves properties of it.

- **Server** (`server_auth.dfy`, module `ServerAuth`). The user service keeps one record
  per user id: email, password hash and an optional refresh token. `login` signs an access
  and a refresh token from `{email, sub: id}` and stores the refresh token. `refreshTokens`
  accepts a presented token only if it verifies under the refresh secret, its subject has a
  record, and it equals the token stored there. It then signs a new pair from the *stored*
  record and overwrites the stored token (rotation). Every failure is the same
  `Access Denied`. `logout` sets the stored token to null. Each operation is a pure step
  function that returns the store write it performs (`Step(write, result)`); `Commit`
  applies the write. The class `AuthService` holds the records in a map field and its methods
  update that map to match the step functions. JWT signing and verification, bcrypt's compare,
  and the `JWT_REFRESH_SECRET` setting are fields of `Env`. The clock is a parameter.
- **Client API module** (`api.dfy`, module `Api`). The session has three cells: the in-memory
  access token, the refresh token held in localStorage, and the page the browser was sent to.
  The request interceptor attaches `Authorization: Bearer <token>` when the access token is
  truthy. The response interceptor acts only on a 401 whose request has no `_retry` mark. It
  marks the request, and with a stored refresh token it calls the refresh endpoint whose reply is
  an input. On success it replaces both tokens and re-sends the request with the new bearer. On a
  throw it logs out and redirects to `/login`. The classes `ApiClient` and `Request` hold this
  state and are updated in place.
- **Client session provider** (`auth_context.dfy`, module `AuthContext`). The provider adds the
  `user` and `isLoading` cells. Startup initialisation does a refresh and then a profile fetch,
  with each reply an input. The module also covers `login`, `logout` and the derived
  `isAuthenticated`.
- **Error-message selector** (`error_message.dfy`, module `ErrorMessage`). It returns the first
  truthy message among `error.response.data.message`, `error.message` and `error.error.message`,
  else the fallback `"An error occurred"`. `FirstTruthy` is an independent reference definition
  of the chain.

The key server invariant is `OnlyLatestAccepted`. After any sequence of login, refresh and
logout calls, a refresh is granted for a user only with the token most recently written for that
user, and never when that write was a logout. `Replay` shows a rotated-out token is denied on its
next presentation, and `ReplayAfterCalls` that it stays denied through any later calls that do
not write it back, assuming the new token was freshly issued (held by no record). The code does
not guarantee that assumption. Signing is deterministic in payload, options and issue second.
`SameSecondRotationKeepsToken` proves that a refresh in the same second as the login, for an
unchanged email, re-issues the very token presented. That token then stays valid.

Points where the code behaves in ways a reader might not expect:
- A startup profile reply that is not ok keeps the access token and the new stored refresh
  token. A profile fetch that throws removes the stored token but keeps the access token in
  memory. Either way the session is not fully anonymous, and `isAuthenticated` can stay true.
- A request sent with no access token is sent unauthenticated. No refresh is attempted before
  it is sent.
- The interceptor's logout clears only the API module's cells. The provider's `user` cell is
  not among the objects `OnResponseError` may modify.
- `return api(originalRequest)` is not awaited inside the `try`. A failure of the re-sent
  request is therefore not caught by the interceptor's `catch`, and `Resend` is final.

## Model

| member | source | states |
|---|---|---|
| `ServerAuth.RefreshSecret` | server/src/auth/auth.service.ts:49 | the refresh secret is the configured setting when that is non-empty, else `fallback-refresh-secret`; it is never empty |
| `ServerAuth.Commit` | server/src/auth/auth.service.ts:34 | `updateRefreshToken` changes only the named record's refresh token and keeps every key, email and hash |
| `ServerAuth.LoginStep` | server/src/auth/auth.service.ts:25-44 | login returns `{accessToken, refreshToken, user:{id,email}}` with id and email copied from its argument, both tokens signed from `{email, sub: id}` (refresh with the refresh options), and writes the returned refresh token for that id |
| `ServerAuth.LoginStoresIssuedToken` | server/src/auth/auth.service.ts:29-34 | after login the user's stored token is the returned refresh token and every other record is unchanged |
| `ServerAuth.RefreshStep` | server/src/auth/auth.service.ts:46-73 | granted exactly when the token verifies, its subject exists and it equals the stored token; every denial is the one `AccessDenied` and writes nothing; a grant signs the new pair from the stored record's email and id and writes the new refresh token |
| `ServerAuth.RefreshRotates` | server/src/auth/auth.service.ts:57-69 | after a grant the subject's stored token is the refresh token returned, and no other record changes |
| `ServerAuth.LogoutStep` | server/src/auth/auth.service.ts:75-78 | logout writes null for the user id and returns `Logged out successfully` |
| `ServerAuth.FreshWriteKeepsDistinct` | server/src/auth/auth.service.ts:64 | writing a freshly issued token (or null) keeps every stored token held by one record only |
| `ServerAuth.Replay` | server/src/auth/auth.service.ts:53-64 | after a granted refresh with `t` that stored a fresh token, presenting `t` again is denied at any time |
| `ServerAuth.RotationRetiresToken` | server/src/auth/auth.service.ts:57-64 | after a granted refresh with `t` that stored a fresh token, no record holds `t` |
| `ServerAuth.ReplayAfterCalls` | server/src/auth/auth.service.ts:46-78 | after a granted refresh with `t` that stored a fresh token, `t` is denied after any later sequence of calls none of whose writes stores `t` |
| `ServerAuth.SameSecondRotationKeepsToken` | server/src/auth/auth.service.ts:57-64 | a refresh in the login's second, for an unchanged email, returns the presented token itself, and that token is granted again |
| `ServerAuth.LoginThenRefresh` | server/src/auth/auth.service.ts:46-55 | a refresh right after login, with a token that verifies to that user, is granted |
| `ServerAuth.Run` | server/src/auth/auth.service.ts:34 | a sequence of calls never adds or removes a record |
| `ServerAuth.RunStoresLastWrite` | server/src/auth/auth.service.ts:25-78 | after any sequence of calls each record holds the value most recently written for it, or its initial token |
| `ServerAuth.LastWriteIsWritten` | server/src/auth/auth.service.ts:34 | the value reported as most recently written for a user was stored by one of the writes, for that user |
| `ServerAuth.OnlyLatestAccepted` | server/src/auth/auth.service.ts:52-55 | a refresh granted after any sequence of calls presents the token most recently written for its subject (never a logout's null), or its untouched initial token |
| `ServerAuth.LockedUntilLogin` | server/src/auth/auth.service.ts:75-77 | a record holding null keeps holding null through any calls without a login for that user |
| `ServerAuth.LogoutLocks` | server/src/auth/auth.service.ts:46-78 | after logout every refresh whose token names that user is denied until the next login for the user |
| `ServerAuth.AuthService.constructor` | server/src/auth/auth.service.ts:10-14 | the service holds the injected collaborators and the user records as given, and starts valid (emails unique) |
| `ServerAuth.AuthService.UpdateRefreshToken` | server/src/auth/auth.service.ts:34 | the map field is updated as `Commit` says |
| `ServerAuth.AuthService.ValidateUser` | server/src/auth/auth.service.ts:16-23 | a result exactly when some record has the email and the password matches its hash; that result is the record without its hash |
| `ServerAuth.AuthService.Login` | server/src/auth/auth.service.ts:25-44 | the records and the result are those of `LoginStep` |
| `ServerAuth.AuthService.RefreshTokens` | server/src/auth/auth.service.ts:46-73 | the records and the result are those of `RefreshStep` |
| `ServerAuth.AuthService.Logout` | server/src/auth/auth.service.ts:75-78 | the records and the message are those of `LogoutStep` |
| `Api.Bearer` | client/lib/api.ts:17 | the bearer credential carries the token: reading it back yields that token |
| `Api.WithBearer` | client/lib/api.ts:15-19 | with a truthy access token the Authorization header carries it as bearer and no other header changes; otherwise the config is returned unchanged |
| `Api.Cleared` | client/lib/api.ts:65-68 | logout empties the access token and the stored refresh token and touches nothing else |
| `Api.LogoutUserStep` | client/lib/api.ts:118-121 | the local logout happens only after the server call resolved; a rejected call leaves the session unchanged |
| `Api.HandleResponseError` | client/lib/api.ts:28-56 | acts only on a first 401 and marks the request; with no stored token changes no cell; a resolved refresh replaces both tokens and re-sends with the new bearer; a thrown refresh logs out, redirects to `/login` and rejects; any other error is rejected with no change |
| `Api.ResentRequestIsNotRetried` | client/lib/api.ts:31-32 | the re-sent request, whatever error it meets, is rejected with no refresh call and no state change |
| `Api.ResentRequestCarriesNewBearer` | client/lib/api.ts:46-47 | the re-sent request, after the request interceptor runs again, carries the new access token as bearer |
| `Api.Request.constructor` | client/lib/api.ts:31-32 | a new request config carries the given headers and no `_retry` mark, so its first 401 is acted on |
| `Api.ApiClient.constructor` | client/lib/api.ts:5 | the access token starts null; the stored refresh token is whatever localStorage holds |
| `Api.ApiClient.SetAccessToken` | client/lib/api.ts:59-61 | only the access token cell changes, to the given value |
| `Api.ApiClient.GetAccessToken` | client/lib/api.ts:63 | returns the access token cell |
| `Api.ApiClient.SetThenGet` | client/lib/api.ts:59-63 | reading the access token right after setting it yields the value set |
| `Api.ApiClient.Logout` | client/lib/api.ts:65-68 | the cells become those of `Cleared` |
| `Api.ApiClient.AttachBearer` | client/lib/api.ts:15-19 | the request object becomes `WithBearer` of its old config |
| `Api.ApiClient.OnResponseError` | client/lib/api.ts:28-56 | the cells, the request object, the answer and the refresh call are those of `HandleResponseError` |
| `Api.ApiClient.LogoutUser` | client/lib/api.ts:118-121 | the cells become those of `LogoutUserStep` and the server call's outcome is passed on |
| `AuthContext.InitializeStep` | client/lib/auth-context.tsx:34-71 | `isLoading` ends false on every path; with no stored token nothing else changes; an ok refresh sets the access token and stores the new refresh token; `user` is set only from an ok profile; a not-ok refresh or any throw removes the stored token |
| `AuthContext.LoginStep` | client/lib/auth-context.tsx:76-80 | sets the access token, the stored refresh token and `user` to the given values; the result is authenticated |
| `AuthContext.LogoutStep` | client/lib/auth-context.tsx:82-85 | clears the access token, the stored refresh token and `user`; the result is not authenticated |
| `AuthContext.FailedInitializationAuthenticatesNobody` | client/lib/auth-context.tsx:63-68 | a startup refresh that is not ok, or throws, leaves `isAuthenticated` as it was |
| `AuthContext.AuthProvider.constructor` | client/lib/auth-context.tsx:30-31 | `user` starts null and `isLoading` true |
| `AuthContext.AuthProvider.InitializeAuth` | client/lib/auth-context.tsx:34-71 | the shared cells and the provider's cells become those of `InitializeStep` |
| `AuthContext.AuthProvider.Login` | client/lib/auth-context.tsx:76-80 | the cells become those of `LoginStep` |
| `AuthContext.AuthProvider.Logout` | client/lib/auth-context.tsx:82-85 | the cells become those of `LogoutStep` |
| `AuthContext.AuthProvider.GetIsAuthenticated` | client/lib/auth-context.tsx:87 | the value is `IsAuthenticated` of the current cells: `user` is set or the access token is truthy |
| `ErrorMessage.GetErrorMessage` | client/lib/utils.ts:14-32 | the response-data message wins when truthy, then the error's own message, then the nested error's message, else the fallback; a null error gives the fallback; an empty message is never returned in place of the fallback |
| `ErrorMessage.FirstTruthy` | client/lib/utils.ts:14-32 | the result is the fallback or some truthy candidate |
| `ErrorMessage.FirstTruthyIsEarliest` | client/lib/utils.ts:16-28 | the earliest truthy candidate is the one chosen |
| `ErrorMessage.FirstTruthyFallsBack` | client/lib/utils.ts:31 | with no truthy candidate the fallback is chosen |
| `ErrorMessage.GetErrorMessageIsFirstTruthy` | client/lib/utils.ts:14-32 | the selector equals the first truthy message of its three candidates in priority order |

## Left out

- ServerAuth.Replay: holds only under the generator-freshness assumption (`FreshlyIssued`) and with every stored token held by one record (`DistinctHolders`), because deterministic JWT signing does not guarantee fresh tokens; `SameSecondRotationKeepsToken` shows the counterexample. `DistinctHolders` is shown preserved by one fresh write (`FreshWriteKeepsDistinct`), not across a whole `Run`; `ReplayAfterCalls` instead takes as a hypothesis that no later write stores `t`.
- ServerAuth.ReplayAfterCalls: assumes that no later write stores `t` again, rather than deriving it from freshness of every token issued later, because the JWT signer may re-issue a token (see `SameSecondRotationKeepsToken`).
- JWT signing and verification internals, the secrets' values, and expiry arithmetic (including the access token's module-level lifetime) are abstract: `Env.jwt.sign` and `Env.jwt.verify`.
- bcrypt internals: `Env.compare(password, hash)` is abstract.
- The user service's persistence is a map keyed by id with unique emails. The user service itself is not part of this model. A write to an unknown id is taken to change nothing.
- Storage and signing errors inside `refreshTokens` are not modelled. The `catch` would turn them into the same denial.
- The HTTP controller (routing, guards, `getProfile`) only delegates, so it is not part of this model.
- The react-query hooks are not part of this model. `useLogout` runs the provider's logout on both success and error of `logoutUser`.
- UI pages, navigation, form validation and the `cn` class-name helper are outside the session protocol.
- Transport, the body sent to the refresh and profile endpoints, and async scheduling are left out. A network reply is an input; sending is an output flag or verdict.
- `window.location.href = '/login'` is recorded in a cell; page navigation itself is not modelled.
- Api.ApiClient.LogoutUser: the outcome of `POST /auth/logout` is an input. Interceptor activity during that call is modelled separately by `OnResponseError`.
- `localStorage.getItem` throwing (where no storage exists) is not modelled; reads always succeed.
- AuthContext.AuthProvider.GetIsAuthenticated: reads the current cells. It does not model that React recomputes the value only on re-render, nor React's batching of state updates.
- ErrorMessage.GetErrorMessage: messages are strings or absent. A non-string message (such as an array of validation messages) is not modelled.
- The concurrent two-401s refresh race is left out because it needs concurrency, and the code does not mitigate it.
