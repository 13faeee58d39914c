# Client-side authentication lifecycle of a Nuxt/Vuetify template, in Dafny

This project models how the template's front end signs a user in and out, keeps the bearer
token, attaches it to outgoing requests, restores a session at start-up and guards routes:

- **Session store** (`Auth.AuthStore`, stores/auth.ts): the user, the token and the
  authenticated flag, with the actions `Login`, `Logout`, `InitializeAuth` and
  `FetchCurrentUser`. Remote calls are not executed: each action receives the server's reply
  (`Api.Reply`: success with a value, or a failure with optional error data). The store keeps a
  ghost log `sent` of every request it sent, with the token `apiFetch` read for it, the full
  request built from the store's API base, and the loading flag at that moment; this log
  states which calls an action makes, that on the client the user fetch after a login carries
  the new token (off the client it carries none), and that loading is raised while the login
  is in flight. `Valid()` is the session invariant every action keeps: an authenticated session has a
  user and a token, and on the client that token is the persisted one.
- **Application store** (`App.AppStore`, stores/app.ts): the loading flag and the one
  notification slot.
- **Token store** (`AuthToken.TokenStorage`, app/composables/useAuthToken.ts): the local-storage
  entry under `auth_token` as an optional string, and the `import.meta.client` test as the
  constant `isClient`.
- **Route guard** (`RouteGuard.Guard`, app/middleware/auth.ts): a pure decision.
- **Request construction** (`Api`, composables/useApi.ts, and `AuthApi`,
  app/composables/useAuthApi.ts): the headers and options `apiFetch` hands to the transport,
  the URL, and each API operation as the endpoint, options and reply shape it asks for.
  `Decimal` renders the numeric user id in a path and proves the rendering injective.
- **Scenarios**: sequences of actions and concrete examples checked from the contracts alone.

The field `method` of the fetch options is `httpMethod` and the notification's `type` is
`kind`, both names being Dafny keywords. The stores are explicit objects: the session store
holds references to the application store and the token store instead of looking up global
singletons.

The model follows the code in these places, where other behaviour might be expected:
- A failed login might be expected to sign the session out; the code does not. A failure of the login call leaves it as it was;
  a failure of the user fetch after a successful login call keeps the new token (in the store
  and persisted) while user and flag keep their earlier values.
- The flag only implies that user and token are present; `FetchCurrentUser` may set a user
  while the flag stays false.
- The client does not itself set GET as the default method: it sends no method and leaves
  the default to the transport.
- Off the client a login sets the store's token without persisting it, and an empty persisted
  token is left in storage by `InitializeAuth`.

## Model

| member | source | states |
|---|---|---|
| Decimal.NatToDecimal | app/composables/useAuthApi.ts:32-34 | a natural number renders as a non-empty digit string with no leading zero; one digit exactly below ten |
| Decimal.IntToDecimal | app/composables/useAuthApi.ts:32-34 | a whole number renders as its digits, with a leading minus exactly when it is negative |
| Decimal.ParseNatToDecimal | app/composables/useAuthApi.ts:32-34 | parsing the digits of a natural number gives it back (proof by induction) |
| Decimal.ParseIntToDecimal | app/composables/useAuthApi.ts:32-34 | parsing the rendering of any whole number gives it back |
| Decimal.IntToDecimalInjective | app/composables/useAuthApi.ts:32-34 | two numbers render alike exactly when they are equal |
| Api.BuildHeaders | composables/useApi.ts:35-43 | Content-Type is the caller's when given, else application/json; a truthy token sets Authorization to "Bearer " + token over the caller's; without one Authorization is only the caller's; every other caller header is kept as is and no other header is added |
| Api.BuildFetchOptions | composables/useApi.ts:46-56 | headers are always present; method, body and query appear exactly when the caller defined them, with the caller's values |
| Api.PrepareFetch | composables/useApi.ts:58 | the URL is the API base followed by the endpoint |
| Api.NoOptions | composables/useApi.ts:31 | the default options leave method, body, headers and query undefined |
| Api.Truthy | composables/useApi.ts:41 | a token is truthy unless it is null or the empty string |
| Api.ApiFetch | composables/useApi.ts:29-61 | the reply is the transport's reply, unchanged, to the request for the API base followed by the endpoint, with the built headers and the caller's method, body and query |
| Api.NoTokenNoExtraAuthorization | composables/useApi.ts:40-43 | without a truthy token the header names are the caller's plus Content-Type |
| Api.TokenAddsAuthorization | composables/useApi.ts:35-43 | with a truthy token the header names are the caller's plus Content-Type and Authorization |
| AuthApi.UserEndpoint | app/composables/useAuthApi.ts:32-34 | a user's path is `/users/` followed by the id in decimal |
| AuthApi.Login | app/composables/useAuthApi.ts:14-19 | POST to `/auth/login` with the credentials as body, expecting a token reply |
| AuthApi.GetCurrentUser | app/composables/useAuthApi.ts:22-24 | `/users/me` with no options: no method, no body |
| AuthApi.GetUsers | app/composables/useAuthApi.ts:27-29 | `/users/` with no options, expecting a list |
| AuthApi.GetUser | app/composables/useAuthApi.ts:32-34 | the user's path with no options |
| AuthApi.CreateUser | app/composables/useAuthApi.ts:37-46 | POST to `/users/` with the user data unchanged as body |
| AuthApi.UpdateUser | app/composables/useAuthApi.ts:49-57 | PUT to the user's path with the changes unchanged as body |
| AuthApi.DeleteUser | app/composables/useAuthApi.ts:60-64 | DELETE to the user's path with no body |
| AuthApi.DeleteUserResult | app/composables/useAuthApi.ts:60-64 | a success returns no value; a failure reaches the caller unchanged |
| AuthApi.Request | app/composables/useAuthApi.ts:11 | a call's request goes to the API base followed by the call's endpoint, with the headers built from the token and the call's headers, and the call's method, body and query |
| AuthApi.UserEndpointInjective | app/composables/useAuthApi.ts:32-34 | two ids share a path exactly when they are equal |
| AuthApi.UserEndpointIsNotAFixedPath | app/composables/useAuthApi.ts:22-34 | no id yields `/users/me` or `/users/` |
| AuthApi.LoginRequestSent | app/composables/useAuthApi.ts:14-19 | the login request posts the credentials to the base URL + `/auth/login` with a JSON Content-Type, and carries Authorization exactly when a truthy token is held |
| AuthApi.ReadRequestsSendNoMethod | app/composables/useAuthApi.ts:22-34 | the three reads send no method and `getUser` no body, to the base URL + `/users/` + id |
| RouteGuard.IsPublic | app/middleware/auth.ts:8-10 | the only public route is `/login` |
| RouteGuard.Guard | app/middleware/auth.ts:5-23 | navigation is allowed exactly when the target is the login screen and the session is unauthenticated or the reverse; authenticated on `/login` redirects to `/`; unauthenticated elsewhere redirects to `/login` with `redirect` = the full path |
| RouteGuard.RedirectIsStable | app/middleware/auth.ts:10-21 | a redirect changes the path, and its target is allowed under the same session state |
| RouteGuard.LoginDecisionIgnoresFullPath | app/middleware/auth.ts:8-15 | the login-screen decision depends on the path, not on the query in the full path |
| AuthToken.TokenStorage.constructor | app/composables/useAuthToken.ts:1-3 | the storage starts with the given environment and entry |
| AuthToken.TokenStorage.Current | app/composables/useAuthToken.ts:4-9 | the readable token is the stored entry on the client and null elsewhere |
| AuthToken.TokenStorage.GetToken | app/composables/useAuthToken.ts:4-9 | returns the stored entry on the client, null elsewhere |
| AuthToken.TokenStorage.SetToken | app/composables/useAuthToken.ts:11-15 | on the client the entry becomes the token; elsewhere nothing changes |
| AuthToken.TokenStorage.RemoveToken | app/composables/useAuthToken.ts:17-21 | on the client the entry is gone; elsewhere nothing changes |
| App.AppStore.constructor | stores/app.ts:13-20 | not loading, notification hidden with empty message and type info |
| App.AppStore.SetLoading | stores/app.ts:28-30 | the flag takes the value; the notification is unchanged |
| App.AppStore.ShowNotification | stores/app.ts:32-41 | the whole notification becomes shown with the message and the type (info by default); loading unchanged |
| App.AppStore.HideNotification | stores/app.ts:43-45 | the notification is hidden and keeps its message and type; loading unchanged |
| Auth.LoginErrorMessage | stores/auth.ts:42-50 | the login error text is never empty: the server's non-empty `error` text when present, the generic failure message otherwise |
| Auth.AuthStore.constructor | stores/auth.ts:8-12 | no user, no token, not authenticated, nothing sent; the invariant holds |
| Auth.AuthStore.Valid | stores/auth.ts:26-101 | the session invariant every action keeps: an authenticated session has a user and a token, and on the client that token is the persisted one |
| Auth.AuthStore.Outgoing | composables/useApi.ts:33-58 | a sent record holds the call, the token read, the loading flag, and the request to the API base followed by the endpoint with the built headers and the call's method, body and query |
| Auth.AuthStore.Send | composables/useApi.ts:29-33 | a sent request records the call, the token read from the token store, the request built from them, and the loading flag |
| Auth.AuthStore.Login | stores/auth.ts:21-57 | the login call goes out while loading with the earlier token; on its failure only the error notification changes and the error is rethrown; on its success the token becomes the access token, on the client it is also persisted and the user fetch goes out carrying it (off the client storage is untouched and the fetch carries no token); on the fetch's success user is set, the flag is true and a success notification is shown; on its failure user and flag keep their values, the token is not rolled back, and the error is shown and rethrown; loading ends false; the invariant is kept |
| Auth.AuthStore.Logout | stores/auth.ts:59-69 | no session, persisted token removed on the client, an info notification "ログアウトしました", nothing sent |
| Auth.AuthStore.InitializeAuth | stores/auth.ts:71-89 | with no or an empty persisted token nothing changes and nothing is sent; otherwise the user fetch goes out with it; on success token, user and flag are set; on failure the session ends signed out with the persisted token removed and no error is raised |
| Auth.AuthStore.FetchCurrentUser | stores/auth.ts:91-101 | the user fetch goes out; on success only the user changes; on failure nothing changes and the error is rethrown |
| Scenarios.TokenLifecycle | app/composables/useAuthToken.ts:1-21 | on the client a written token reads back, a second write replaces it, and removing once or twice reads back null; elsewhere every read is null and storage is unchanged |
| Scenarios.NotificationsOverwrite | stores/app.ts:32-41 | after two notifications only the second message remains, with type info when omitted |
| Scenarios.HideIsIdempotent | stores/app.ts:43-45 | hiding twice equals hiding once |
| Scenarios.LoginThenLogout | stores/auth.ts:21-69 | whatever a login did, a following logout leaves no session, no persisted token and loading off |
| Scenarios.StaleTokenAtStartup | stores/auth.ts:71-89 | a persisted token that the server rejects ends signed out with the token removed, after one user fetch carrying it as a bearer token |
| Scenarios.SuccessfulLogin | stores/auth.ts:26-41 | a successful login holds user and token "T", persists "T", and its user fetch to `/users/me` carries "Bearer T" |
| Scenarios.GuardExamples | app/middleware/auth.ts:10-22 | `/login` authenticated goes to `/`; `/dashboard` unauthenticated goes to `/login?redirect=/dashboard`; `/dashboard` authenticated and `/login` with a query unauthenticated are allowed |

## Left out

- The HTTP transport (`$fetch`) and the server: a reply is a parameter of each action and of `Api.ApiFetch`.
- Local storage beyond the one `auth_token` entry, and `import.meta.client` beyond a constant flag.
- Overlapping asynchronous actions (two logins in flight, last write wins): each action runs to completion before the next.
- `console.error` in `initializeAuth` and `fetchCurrentUser`: it changes no state.
- An error whose `data` is present but null, which would throw inside the login's catch block: error data is absent or an object with an optional `error` text.
- Any thrown value that is not an object is treated like an error without `data`.
- The store getters (`getUser`, `getToken`, `getIsAuthenticated`, `getIsLoading`, `getNotification`): they return fields the model reads directly.
- `hideNotification` mutates the notification object in place; the model replaces a value, so a reader holding the old object is not modelled.
- The start-up plugin app/plugins/auth.ts, which calls `initializeAuth` only on the client: `InitializeAuth` is modelled in any environment, where off the client it reads no token and changes nothing.
- User ids are whole numbers: the template literal's exponent notation for very large numbers, fractions and NaN are not modelled.
- JSON serialisation of bodies and queries, URL encoding of the `redirect` value, and the case-insensitivity of HTTP header names: headers are keyed by exact strings as in the source's object.
- Build, lint and UI configuration and the type augmentations of types/index.d.ts.
