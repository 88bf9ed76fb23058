# Session store, navigation guard and bearer-token interceptor

This project is a Dafny model of the session logic of a small Next.js admin
front end. It covers three pieces that work together:

- **Session store** (`AuthProvider`, module `Auth`). It holds at most one
  signed-in `User` and mirrors that user into `localStorage` under the key
  `"user"`. The operations are `login`, `register`, `updateUser` and
  `logout`, plus a mount-time effect that restores the user from the store.
  `AuthProvider` is a class with a `user: Option<User>` field. It shares a
  `Browser.LocalStorage` object, whose `entries` map stands in for
  `localStorage`. Each method's postcondition ties the new
  `Session(user, store)` to a function of the old one (`AfterLogin`,
  `AfterLogout`, `AfterRestore`), and the lemmas are proved about those
  functions.
- **Navigation guard** (`RouterHandler`, module `Router`). `Redirect` is a
  function from an optional user and a pathname to the one page the router
  is pushed to, if any.
- **Request interceptor** (`axios.ts`, module `Api`). `BearerValue` and
  `Intercepted` derive the `Authorization` header from the stored record.
  `Intercept` is a method that assigns the `headers` field of a
  `RequestConfig` object and returns that same object. The lemmas connect it
  to the session store: after `login` the token is attached, and after
  `logout` nothing is.

`JSON.stringify` and `JSON.parse` are modelled by module `Json`. It is a
concrete codec for JSON objects whose members are all strings. `Stringify`
writes no whitespace and escapes the quote, the backslash and the control
characters below U+0020 (`\b`, `\t`, `\n`, `\f`, `\r`, otherwise
`\u00xx`). `Parse` skips whitespace between tokens, reads every escape of the
JSON grammar and refuses a raw control character inside a string. The codec
comes with a proved round trip, `Parse(Stringify(o)) == Some(o)`. When an
object has the same key twice, `Lookup` returns the last value, as
`JSON.parse` does.

Two behaviours of the code are worth stating, and the model keeps both:

- **Malformed record at start-up.** A record that is present but cannot be
  read is not treated as absent: `JSON.parse` at
  src/contexts/AuthContext.tsx:42 throws and nothing catches it. The
  model's restore returns `Fail(SyntaxError)` and leaves the session
  unchanged (`Auth.AfterRestore`, `Auth.RestoreOfMalformedRecord`).
- **Empty token.** `login` accepts a user with an empty token, and the
  interceptor then adds no header (src/app/api/axios.ts:14,
  `Api.SyncedSessionAuthorizes`).

Nothing in the environment is modelled as a hidden global. The store is an
object passed to the provider and to the interceptor, and the router's
pathname is a parameter of `Redirect`.

## Model

| member | source | states |
|---|---|---|
| `Auth.RoleFromName` | src/contexts/AuthContext.tsx:11-14 | a role read from its string value in JSON has that string value |
| `Auth.FromObjectOfToObject` | src/contexts/AuthContext.tsx:16-24 | the seven-field object of a user describes exactly that user again |
| `Json.ParseOfStringify` | src/contexts/AuthContext.tsx:42-48 | parsing the JSON text written for an object gives back that object |
| `Json.Lookup` | src/app/api/axios.ts:13 | a key is found iff some member has it; the value found belongs to the last member with that key |
| `Json.ParseExamples` | src/contexts/AuthContext.tsx:42 | as with `JSON.parse`, a raw line feed inside a string is refused, the `\n` escape is read, leading whitespace is skipped, and `null` is not an object |
| `Json.ParseMembers` | src/app/api/axios.ts:13 | a parsed member list is non-empty, and what follows it is shorter than the input |
| `Auth.ParseUserOfStringify` | src/contexts/AuthContext.tsx:42-48 | the record stored for a user parses back to that user |
| `Auth.ParseUser` | src/contexts/AuthContext.tsx:42 | reading a record fails with a syntax error exactly when the text does not parse; a user read from it has the token the record holds |
| `Auth.AfterLogin` | src/contexts/AuthContext.tsx:46-49 | the user becomes `u`; the store maps "user" to `u`'s record, which parses back to `u`; no other key changes |
| `Auth.AfterLogout` | src/contexts/AuthContext.tsx:56-59 | no user; "user" is removed; the store mirrors the session; no other key changes |
| `Auth.AfterRestore` | src/contexts/AuthContext.tsx:39-44 | restore never writes the store; it changes the user only to the parse of a stored record; it fails only on a non-empty record |
| `Auth.LogoutIdempotent` | src/contexts/AuthContext.tsx:56-59 | logging out twice leaves the same session as logging out once |
| `Auth.RestoreOfSynced` | src/contexts/AuthContext.tsx:39-64 | a fresh provider restoring from a store that mirrors a session gets exactly that session |
| `Auth.RestoreAfterLogin` | src/contexts/AuthContext.tsx:39-49 | after `login(u)`, a fresh provider's restore succeeds and holds `u` |
| `Auth.RestoreOfEmptyStore` | src/contexts/AuthContext.tsx:40-41 | a missing or empty "user" record leaves a fresh provider signed out, with no error |
| `Auth.RestoreOfMalformedRecord` | src/contexts/AuthContext.tsx:41-42 | a non-empty record the codec cannot read makes restore throw a SyntaxError |
| `Auth.RunKeepsSynced` | src/contexts/AuthContext.tsx:46-64 | after any non-empty sequence of login/register/updateUser/logout, "user" is stored iff there is a user and parses back to it; no other key is ever written or removed |
| `Auth.AuthProvider.constructor` | src/contexts/AuthContext.tsx:37 | a newly mounted provider holds no user, and the store is as it was |
| `Auth.AuthProvider.Restore` | src/contexts/AuthContext.tsx:39-44 | the new state is the result of `AfterRestore` on success; on failure it returns the error and leaves the state unchanged |
| `Auth.AuthProvider.Login` | src/contexts/AuthContext.tsx:46-49 | the new (user, store) is `AfterLogin` of the old one |
| `Auth.AuthProvider.Register` | src/contexts/AuthContext.tsx:51-54 | exactly the same effect as `login` |
| `Auth.AuthProvider.Logout` | src/contexts/AuthContext.tsx:56-59 | the new (user, store) is `AfterLogout` of the old one |
| `Auth.AuthProvider.UpdateUser` | src/contexts/AuthContext.tsx:61-64 | exactly the same effect as `login` |
| `Auth.LoginThenReload` | src/contexts/AuthContext.tsx:37-49 | a second provider over the store written by `login(u)` restores `u` without error, and its store mirrors it |
| `Router.Home` | src/components/RouterHandler.tsx:19-23 | a signed-in user's landing page is never a public page |
| `Router.Redirect` | src/components/RouterHandler.tsx:11-29 | a redirect never targets the current page; the target is "/login", "/users" or "/profile"; the target is "/login" iff there is no user and the page is not public |
| `Router.SignedOutOffPublicGoesToLogin` | src/components/RouterHandler.tsx:11-14 | with no user, any page other than exactly "/login" or "/signup" is sent to "/login" |
| `Router.TrailingSlashIsNotPublic` | src/components/RouterHandler.tsx:12 | "/login/" is not public, so a signed-out visitor there is sent to "/login" |
| `Router.SignedOutOnPublicStays` | src/components/RouterHandler.tsx:11-15 | with no user, "/login" and "/signup" are not redirected |
| `Router.SignedInLeavesPublic` | src/components/RouterHandler.tsx:18-24 | with a user on a public page, a MANAGER goes to "/users" and a USER to "/profile" |
| `Router.UserKeptOutOfUsersSection` | src/components/RouterHandler.tsx:27-29 | a USER on any page starting with "/users" is sent to "/profile" |
| `Router.UsersPrefixExamples` | src/components/RouterHandler.tsx:27-29 | "/users", "/users/42", "/users/create" and "/usersX" all send a USER to "/profile" |
| `Router.ManagerUnrestricted` | src/components/RouterHandler.tsx:27-31 | a MANAGER on a non-public page is not redirected |
| `Router.UserOutsideUsersSectionStays` | src/components/RouterHandler.tsx:27-31 | a USER on a non-public page outside the "/users" prefix is not redirected |
| `Router.PublicPagesOutsideUsersSection` | src/components/RouterHandler.tsx:18-29 | no public page starts with "/users", so the rules, tried in order, never compete |
| `Router.RedirectTargetIsFixpoint` | src/components/RouterHandler.tsx:11-29 | re-evaluating with the same user at a redirect target issues no redirect |
| `Router.LoginDestinationAgreesWithGuard` | src/app/login/page.tsx:36 | the login page's post-login destination is the guard's redirect from a public page, and it is a fixpoint |
| `Api.BearerValue` | src/app/api/axios.ts:11-18 | no record or an empty one sets no header; the derivation fails iff a non-empty record does not parse; a value it sets starts with "Bearer " |
| `Api.Intercepted` | src/app/api/axios.ts:15-18 | every header other than `Authorization` is kept; no other header is added; `Authorization` is the derived value when there is one; otherwise the headers are unchanged |
| `Api.NoRecordLeavesHeaders` | src/app/api/axios.ts:11-12 | with no stored record the headers are returned unchanged |
| `Api.TokenIsAttached` | src/app/api/axios.ts:13-18 | a record with a non-empty token sets `Authorization` to "Bearer " + token, overwriting any earlier value |
| `Api.NoTokenLeavesHeaders` | src/app/api/axios.ts:14 | a record whose token is empty or missing leaves the headers unchanged |
| `Api.MalformedRecordRejectsRequest` | src/app/api/axios.ts:13 | a non-empty record the codec cannot read makes the interceptor throw |
| `Api.SyncedSessionAuthorizes` | src/app/api/axios.ts:11-18 | while the store mirrors the session, a user's non-empty token is attached, and nothing is attached otherwise |
| `Api.LoginAuthorizesRequests` | src/app/api/axios.ts:13-18 | after `login(u)` with a non-empty token, the headers gain "Bearer " + `u.token` |
| `Api.LogoutStopsAuthorizing` | src/app/api/axios.ts:11-12 | after `logout()`, the headers are unchanged |
| `Api.Intercept` | src/app/api/axios.ts:10-21 | returns the same config object; only its headers change, and they become `Intercepted` of the old headers; on a parse failure they are left as they were |
| `Api.LoginThenRequest` | src/app/api/axios.ts:10-21 | a request sent after `login(u)` carries "Bearer " + `u.token`; the config's url and method are untouched |
| `Api.LogoutThenRequest` | src/app/api/axios.ts:10-21 | a request sent after `logout()` keeps its headers as they were |

## Left out

- Page components, form validation (done by yup), the remote API wrappers, layout and UI components: these are rendering and network I/O.
- The `axios.create` set-up (base URL from an environment variable, default `Content-Type`): this is library configuration.
- React scheduling: when effects re-run, batching of state updates, and the `useAuth` error outside a provider. The guard is a function applied to each (user, pathname) pair. Restore is a method that the caller runs once after construction.
- The router itself: `Redirect` returns the target instead of calling `router.push`.
- Json.Parse: reads only objects whose members are all strings. Other valid JSON texts, such as `null`, numbers, arrays, nested values and a `\u` escape of a surrogate pair, give `None`, as a syntax error would. For the restore effect this differs from the code on such texts: `JSON.parse("null")` returns `null`, which the code installs as the user without throwing, while the model reports `SyntaxError`.
- Json.Stringify: strings are sequences of Unicode scalar values, so the escaping of lone surrogates that `JSON.stringify` performs does not arise.
- Auth.AuthProvider.Restore: when the record parses to an object without the seven user fields or with an unknown role, the source installs that object as the user unchecked. The model returns `Fail(NotAUser)` and leaves the user unchanged, because `User` cannot hold a malformed value.
- Api.BearerValue: a stored record that is valid JSON but not an object, or whose `token` is a non-string truthy value, is outside the model. Either one counts as a parse failure, because the codec reads only objects of string members.
- Api.Intercept: axios header objects compare names case-insensitively. The model's headers are a plain map with exact keys.
- Key order of `JSON.stringify`: the model writes the seven fields in the order `User` declares them. The real order is the order of the object received from the API.
