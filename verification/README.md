# Authentication session lifecycle — a Dafny model

This project models the authentication session of a Next.js / oRPC
boilerplate. That is the part of the application that logs a user in
against a remote identity provider (dummyjson.com), keeps the session in the
browser and attaches it to RPC requests. On the server, `authMiddleware`
checks the bearer token of a request against the provider, for each
procedure built on it. Which procedures use it lies outside the modelled
files: the registered login, me and refresh procedures are built on `pub`
and do not. Four source files make up the model:

- `lib/auth-store.ts`, the **session store** (module `AuthStore`). It holds
  `{accessToken, refreshToken, user}` as JSON under the localStorage key
  `"auth_state"`. `getState` reads it back. `setState` merges a partial record
  into it, persists the result and dispatches one `auth-change` event.
  `clearState` removes the entry and dispatches the all-null record.
  `isAuthenticated` tests the stored access token for truthiness. The class
  `Store` keeps localStorage as a `map` and the dispatched event payloads as
  a `seq`. It is proved against two functions: `ReadState`, which gives what
  `getState` returns or throws, and `Apply`, which gives what one mutation
  does. `Run` chains mutations so that lemmas can cover any sequence of calls.
- `hooks/use-auth.ts`, the **session controller and read-side hooks**
  (module `UseAuth`). The login, logout and refresh mutations act on a shared
  `Store`. Each runs its mutation function and then its `onSuccess` or
  `onError` callback. The classes `UserHook` and `AuthHook` hold the React
  state of `useUser` and `useAuth`. A mount effect and an `auth-change`
  listener update that state.
- `lib/orpc.ts:28-43`, the **per-request header callback** of the RPC link
  (module `OrpcLink`). It maps the stored entry to
  `Authorization: Bearer <token>` or to no header.
- `middlewares/auth.ts`, the **server middleware** (module `AuthMiddleware`).
  It rejects a missing token or a token the provider refuses. Otherwise it
  calls `next` once, with `{id, username, email}` added to the context.

JavaScript null is `Option.None`, and a thrown error is `Result.Err`.
`Truthy(t)` reproduces `!!t` for a `string | null`, so the empty string
counts as no token. The identity provider and the RPC client in front of it
are function parameters (`login`, `refresh`, `getMe`, `fetchMe`). `Refresh` and
`FetchUser` report the token they sent (`sent`), and `Authenticate` reports
the requests it made (`requests`), so "no network call" can be stated for
them. `window` is the `hasWindow` flag: `true` in the browser,
`false` during server-side rendering. The module `SessionFlow` runs a whole
session: log in, deliver the event to both hooks, build the headers, then
fail a refresh. It uses only the contracts.

Some of the code's behaviour differs from what a reader of a session
library would usually expect. The model keeps the code's behaviour in each
case:

- **Corrupt stored entry.** An unparsable entry is not treated as "no
  session". `getState` calls `JSON.parse` with no `try`/`catch`
  (lib/auth-store.ts:23-25). So `getState`, `setState` and `isAuthenticated`
  all throw on a corrupt entry. As a result, a login cannot complete on a
  corrupt store: `setState` in `onSuccess` throws and nothing is written. A
  refresh clears the entry, because its `onError` catches the throw. Both
  mount effects fail. Only the header callback in lib/orpc.ts catches the
  parse error.
- **Refresh errors.** `useRefreshToken`'s `onError` clears the store on
  *every* error (hooks/use-auth.ts:96-98). That covers the local
  "No refresh token" error, a rejection from the provider, and a network
  failure that says nothing about the token's validity. The model clears on
  all of them.
- **"Authenticated".** The code tests truthiness (`!!accessToken`), not
  presence, so a stored empty string counts as logged out. The model uses
  the code's test.
- **Middleware outcomes.** Besides the two "Unauthorized" rejections and
  the call of `next`, a `fetch` that rejects (a network error) propagates as
  a third kind of rejection. The model includes it as `FetchRejected`.

## Model

| member | source | states |
|---|---|---|
| AuthStore.Merge | lib/auth-store.ts:31 | A key present in the patch overwrites that field, even when its value is null. Every field whose key is absent keeps its current value. |
| AuthStore.MergeIdempotent | lib/auth-store.ts:31 | Applying the same patch twice gives the same state as applying it once. |
| AuthStore.MergeEmptyPatch | lib/auth-store.ts:31 | A patch with no keys leaves the state unchanged. |
| AuthStore.EntryOf | lib/auth-store.ts:22 | `localStorage.getItem("auth_state")` gives the stored entry when the key is present, and null otherwise. |
| AuthStore.ReadState | lib/auth-store.ts:18-27 | `getState` throws (SyntaxError) exactly when a browser holds a corrupt entry. Without a window, or with no entry, it returns the all-null record. In a browser, a parsable stored record is returned exactly as stored, and any non-null result is such a record. |
| AuthStore.Apply | lib/auth-store.ts:29-43 | A mutation throws exactly when there is no window, or when `setState` meets a corrupt entry. A throwing call changes nothing. A call that returns appends exactly one event. That event's payload is what `getState` now returns: current ⊕ patch for `setState`, the all-null record for `clearState`. After `clearState` no entry is left. Other localStorage keys are never touched. |
| AuthStore.RunOneEventPerCall | lib/auth-store.ts:29-43 | After any sequence of calls that all return, exactly one event per call has been appended, and the earlier events are unchanged. |
| AuthStore.RunReadsLastWrite | lib/auth-store.ts:22-33 | After any nonempty sequence of calls that all return, `getState` returns exactly the payload of the last event, so nothing written is lost. |
| AuthStore.RunNeverThrowsOnceReadable | lib/auth-store.ts:23-24 | In a browser whose entry parses, no sequence of `setState`/`clearState` calls throws. |
| AuthStore.RunThrowsOnlyOnCorruptEntry | lib/auth-store.ts:23-43 | In a browser, a sequence of calls can throw only if the entry was corrupt at the start. A sequence that begins with `clearState` never throws. |
| AuthStore.RunKeepsOtherKeys | lib/auth-store.ts:32-37 | No sequence of store calls changes any localStorage key other than "auth_state". |
| AuthStore.Store.constructor | lib/auth-store.ts:17 | A store starts with the given localStorage contents and with no events dispatched. |
| AuthStore.Store.GetState | lib/auth-store.ts:18-27 | The method returns or throws exactly what `ReadState` gives for the current storage. |
| AuthStore.Store.SetState | lib/auth-store.ts:29-34 | The result, the new storage and the new event list are exactly those `Apply` gives for `Set(patch)`. |
| AuthStore.Store.ClearState | lib/auth-store.ts:36-43 | The result, the new storage and the new event list are exactly those `Apply` gives for `Clear`. |
| AuthStore.Store.IsAuthenticated | lib/auth-store.ts:45-47 | It throws exactly when `getState` throws. Otherwise it returns true iff the stored access token is non-null and non-empty. |
| UseAuth.UserOf | hooks/use-auth.ts:20-26 | The stored user has the login body's `id`, `username`, `email`, `firstName` and `lastName`. |
| UseAuth.LoginPatch | hooks/use-auth.ts:17-27 | The login write sets every key. Whatever was stored before, the merged state is the two tokens and the five-field profile. |
| UseAuth.RefreshPatch | hooks/use-auth.ts:90-93 | The refresh write has no `user` key. Whatever was stored before, the merge replaces both tokens and keeps the stored user. |
| UseAuth.LoginStoresProfileOnly | hooks/use-auth.ts:16-27 | After a successful login write, `getState` returns both tokens and exactly `{id, username, email, firstName, lastName}`. Two login bodies that differ only in `gender` and `image` store the same session. |
| UseAuth.Login | hooks/use-auth.ts:11-30 | A rejected `client.login(credentials)` fails with the provider's message. The call fails exactly when the provider rejects or the stored entry is corrupt; a corrupt entry fails with the `SyntaxError` that `setState` raises. On failure the store and its events are unchanged. On success the result is the provider's data. The store then holds the two tokens and the five-field profile, with exactly one new event carrying that record. The "user" queries are invalidated exactly on success. |
| UseAuth.Logout | hooks/use-auth.ts:36-44 | Logout always succeeds and takes no provider parameter, so it cannot contact the provider. Afterwards no entry is left, `getState` returns all-null, and exactly one all-null event was added. The user queries are invalidated. |
| UseAuth.Refresh | hooks/use-auth.ts:81-99 | The provider receives the stored refresh token, and only when that token is truthy. A falsy token fails with `NoRefreshToken` without a request. A corrupt entry fails with `getState`'s `SyntaxError`, also without a request. A provider rejection fails with the provider's message. On success only the token pair is written and the stored user is kept. On any error, including a corrupt entry, the whole store is cleared. Either way exactly one event is added. The user queries are invalidated exactly on success. |
| UseAuth.UserQueryEnabled | hooks/use-auth.ts:72 | The user query is enabled exactly when the token is neither null nor empty. |
| UseAuth.FetchUser | hooks/use-auth.ts:65-75 | `getMe` is called exactly when the query is enabled, that is when the token is truthy, and with that token. Otherwise the query function returns null without a request. |
| UseAuth.UserHook.constructor | hooks/use-auth.ts:48 | The token state starts as null. |
| UseAuth.UserHook.Mount | hooks/use-auth.ts:50-51 | On mount, the token becomes the stored access token. If `getState` throws, the effect fails and the token is unchanged. |
| UseAuth.UserHook.OnAuthChange | hooks/use-auth.ts:52-54 | The listener takes the token from the event payload. |
| UseAuth.AuthHook.constructor | hooks/use-auth.ts:104-105 | The hook starts unauthenticated and not ready. |
| UseAuth.AuthHook.Mount | hooks/use-auth.ts:107-109 | On mount, `isAuthenticated` is recomputed from the store and `isReady` becomes true. If the store throws, neither changes. |
| UseAuth.AuthHook.OnAuthChange | hooks/use-auth.ts:111-113 | Every event makes the hook recompute `isAuthenticated` from a fresh read of the store, not from the payload. `isReady` is unchanged. |
| UseAuth.AuthHook.IsLoading | hooks/use-auth.ts:121 | The hook reports loading until `isReady` is set, and otherwise exactly when the user query is loading. |
| UseAuth.DeliverLatest | hooks/use-auth.ts:50-117 | Each mutation leaves an event whose payload equals the stored state. Once that event reaches both listeners, `useAuth`'s `isAuthenticated`, `useUser`'s token and the query's `enabled` flag all agree with the store. |
| OrpcLink.Bearer | lib/orpc.ts:36 | The header value is the fixed prefix "Bearer " followed by the whole token, so the token can be read back from it. |
| OrpcLink.AuthHeaders | lib/orpc.ts:28-43 | The callback returns a header exactly in a browser whose "auth_state" entry parses and holds a truthy access token. That header map is exactly `{Authorization: "Bearer " + token}`. A header is sent exactly when the store reports the user as authenticated. A corrupt entry, which makes `getState` throw, yields no header instead of an error. |
| OrpcLink.HeadersFollowStore | lib/orpc.ts:31-36 | After any successful store mutation, the next request carries exactly the access token that was just written, or no header when that token is falsy. |
| AuthMiddleware.Project | middlewares/auth.ts:35-39 | The user put in the context has the provider body's `id`, `username` and `email`. |
| AuthMiddleware.Authenticate | middlewares/auth.ts:15-41 | A falsy token is rejected with "Unauthorized: No access token provided" and no provider request is made. Otherwise exactly one request goes to "https://dummyjson.com/auth/me" with the header "Bearer " + token. A response that is not ok is rejected with "Unauthorized: Invalid token", and a network failure propagates. `next` is called exactly when the provider answered ok. It is called once, with the request's context plus the provider's `{id, username, email}`. |

## Left out

- JSON itself. A stored entry is the empty string, the text of a session
  record, or text that does not parse. Text that parses as something other
  than a session record (`null`, a number, an object with missing keys) is
  not modelled.
- Concurrency. Mutations run one after the other. The interleaving of
  in-flight async calls, such as a refresh racing a logout, is not modelled.
  For the same reason the refresh's `onSuccess` cannot meet a corrupt entry
  that `mutationFn` has just read successfully, and the model proves that
  `setState` succeeds there.
- The query library's internals: the cache and its `staleTime`
  (hooks/use-auth.ts:73), `retry: false`, and what `queryClient.clear()`
  drops. `invalidateQueries` is recorded only as the `invalidated` flag. The
  query key `["user", token]` is represented by the token `UserHook` holds.
  The loading state of the query is an input of `AuthHook.IsLoading`.
- Listener registration and removal (`addEventListener` /
  `removeEventListener`). Delivery is modelled by `DeliverLatest`, which
  hands the latest event to one listener of each hook.
- The hooks on the server. The hook modules are rendered on the server
  too, but the mutation functions run only from click and submit handlers
  (app/page.tsx:19-22, app/login/page.tsx:60), and the mount effects run
  only in the browser. So the controller methods require a window.
- The RPC handlers in router/auth.ts (login, getMe, refresh). They are
  pass-throughs to dummyjson.com with schema validation, and they appear
  only as the provider parameters. router/product.ts is an unregistered
  duplicate login route and is not part of this model. Neither is
  router/index.ts, which only maps names to handlers.
- Construction of the RPC client (URL, batching plugin, the global
  singleton), and the pages under app/.
- AuthMiddleware.Authenticate does not model a `response.json()` that
  fails on a body that is not JSON, nor a body missing `id`, `username` or
  `email`: the body of an ok response is taken to be a well-formed profile.
- localStorage itself failing. Every `getItem`, `setItem` and `removeItem`
  is taken to succeed: a `QuotaExceededError` from `setItem`
  (lib/auth-store.ts:32) or a `SecurityError` where storage is blocked is
  not modelled.
