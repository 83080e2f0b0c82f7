# Auth and session layer of a Remix application, modelled in Dafny

This project models the authentication layer of a Remix web application
that signs users in through an identity provider and keeps a cookie-backed
session:

- `authSession`, the session manager (`auth.server/auth-session.ts`):
  `createAuthSession` writes the fields of a data object into a fresh session,
  commits it and answers with a redirect or a 201 envelope (a 500
  `session/create` envelope when committing throws); `destroyAuthSession`
  sets the named keys of the request's session to `""`, recommits it and
  answers with a redirect or a 204 envelope. The session is a `Session`
  object whose `map<string, string>` field the methods update in loops.
- The sign-up route's `action` and `loader` (`routes/signup.tsx`): the
  email / password / confirmation guards in source order, the account
  creation, the guest profile stored for the new account, the redirect home
  and the 500 `signup/general` fallback.
- The home route's `action` and `loader` (`routes/_index.tsx`): the email /
  password guards, the unmodified hand-over of `auth.login`'s response, and
  the 500 `login/general` fallback.
- The types the above rely on (`auth.server/auth-types.ts`): `AuthUser`,
  the `string | string[]` key argument, and the `Auth<User>` interface as a
  record of operations whose doc-comment promises (`requireUser`,
  `exists`) are predicates over it.
- `DBResult` and the query option types (`controllers/controller-types.ts`).

Modules: `Wrappers` (Option, Result, Outcome), `Http` (requests, JSON
envelopes, responses, JavaScript truthiness of a string), `Text` (`trim` and
the blank-field test), `AuthTypes`, `AuthSession`, `SignupRoute`,
`IndexRoute`, `ControllerTypes`.

Calls into code outside the modelled files are parameters of the operations
that make them: the cookie codec `getSession` (`Option<cookie> -> map`, never
failing) and `commitSession` (`map -> Result<cookie>`), `JSON.stringify`
(`JsonValue -> string`), and the `Auth` operations and `users.create`. A
thrown exception is a `Failure(message)` result. The operations are
synchronous; awaiting is sequencing only.

Because a `trait` is not available, the `Auth<User>` interface is a datatype
`AuthTypes.Auth` with one function-valued field per operation. Its `exists`
field is named `accountExists`, since `exists` is a reserved word in Dafny.

## Model

| member | source | states |
|---|---|---|
| `AuthSession.Session.Set` | app/auth.server/auth-session.ts:17 | `session.set(key, value)` changes that key alone: the new map is the old one with `key` bound to `value` |
| `AuthSession.GetAuthSession` | app/auth.server/auth-session.ts:7-9 | the session returned is a new object holding exactly what the request's `Cookie` header decodes to |
| `AuthSession.CreateAuthSession` | app/auth.server/auth-session.ts:11-51 | the committed map is the fields of `data` written in order into an empty session (nothing from an earlier cookie); a truthy `redirectTo` gives a redirect there carrying the cookie; otherwise 201 `{status:'success'}` with the cookie; a commit that throws gives 500 `session/create` with the error text and no `Set-Cookie` |
| `AuthSession.WrittenKeys` | app/auth.server/auth-session.ts:13-21 | the created session's key set is exactly the key set of `data` |
| `AuthSession.WrittenValue` | app/auth.server/auth-session.ts:15-21 | for unique keys, each string field is stored verbatim and each other field as its serialisation |
| `AuthSession.DestroyAuthSession` | app/auth.server/auth-session.ts:53-84 | the recommitted map is the request's session with the named keys (one key or a list) blanked in turn; a truthy `redirectTo` gives a redirect, otherwise 204 `{status:'success'}`, both with the cookie; a commit that throws is propagated as a failure, not turned into an envelope |
| `AuthSession.BlankedIsOverride` | app/auth.server/auth-session.ts:60-64 | blanking keys one by one equals overriding all of them with `""` at once, whatever their order or repetition |
| `AuthSession.BlankedFrame` | app/auth.server/auth-session.ts:60-64 | every named key is present with `""`; every other key keeps its presence and its value |
| `AuthSession.BlankedIdempotent` | app/auth.server/auth-session.ts:58-64 | blanking the same keys twice gives the same session as blanking them once |
| `AuthSession.SingleKeyIsList` | app/auth.server/auth-session.ts:60-63 | the single key `k` and the list `[k]` blank the same way, namely `s[k := ""]` |
| `AuthSession.DestroyAfterCreate` | app/auth.server/auth-session.ts:53-64 | destroying a created session over (at least) its keys leaves every key present with `""`: the session is empty only if nothing was written |
| `AuthTypes.RequireUserNeedsSession` | app/auth.server/auth-types.ts:94-103 | for an `Auth` keeping the `requireUser` promise: with nobody signed in it never admits, and a throw reports missing authentication |
| `AuthTypes.RequireUserNeedsRole` | app/auth.server/auth-types.ts:94-103 | for such an `Auth`: a signed-in user whose role differs from the requested one is never admitted, and a throw reports a role failure |
| `AuthTypes.RequireUserThrowsWithoutRedirect` | app/auth.server/auth-types.ts:94-103 | when the requirement fails and there is no truthy `redirectTo`, the guard throws, naming the right failure |
| `AuthTypes.RequireUserRedirects` | app/auth.server/auth-types.ts:94-103 | when the requirement fails and a `redirectTo` is given, the guard redirects there; with nobody signed in and `redirectTo = "/login"`, to `/login` |
| `AuthTypes.ReferenceGuard` | app/auth.server/auth-types.ts:94-103 | the `requireUser` promise can be kept on every input (admit exactly signed-in users holding the role, a null role meaning no role required; redirect a refusal when `redirectTo` is given, else throw) |
| `AuthTypes.ExistsTracksRegistration` | app/auth.server/auth-types.ts:88-93 | for an `exists` that keeps its promise, it is false for a username before it is registered and true after |
| `Text.TrimEmptyIffBlank` | app/routes/signup.tsx:25 | `s.trim() === ''` holds exactly when every character of `s` is whitespace |
| `Text.MissingOrBlank` | app/routes/signup.tsx:25 | the test "`!field` or `field.trim() === ''`" is true exactly when the field is absent or all whitespace |
| `SignupRoute.ValidateSignup` | app/routes/signup.tsx:24-45 | a missing or blank email is rejected with `signup/invalid-email` whatever the passwords; otherwise `signup/invalid-password` exactly when a password is missing, blank or differs from the confirmation; valid fields proceed with the submitted values |
| `SignupRoute.EmailCheckedFirst` | app/routes/signup.tsx:25-45 | when email and password are both invalid, the email error wins |
| `SignupRoute.SignupAction` | app/routes/signup.tsx:15-66 | an unreadable form gives 500 `signup/general`; guard rejections are returned as they are; after them, the profile handed to `users.create` is `{id: uid, role: 'guest', username: email, preferences: {theme: 'dark'}}` from the provider's reply; only the guards answer 400; the result is the redirect to `/` exactly when that profile was stored, and 500 `signup/general` otherwise |
| `SignupRoute.ProviderErrorDiscarded` | app/routes/signup.tsx:50-65 | a `createAccount` reply that throws, redirects, or carries no provider `user` (the provider's error envelope included) ends in 500 `signup/general` with nothing stored, so the provider's error code is not passed on |
| `SignupRoute.SignupLoaderMatchesGuard` | app/routes/signup.tsx:68-75 | for an `Auth` keeping the `requireUser` promise, the loader redirects home exactly the requests the guard admits with no role required; the others get `null` |
| `IndexRoute.ValidateLogin` | app/routes/_index.tsx:31-52 | a missing or blank email is rejected first, with status `'error'` and code `signup/invalid-email`; then a missing or blank password with `signup/invalid-password`; there is no confirmation check; valid fields proceed unchanged |
| `IndexRoute.EmailCheckedFirst` | app/routes/_index.tsx:32-52 | when both fields are invalid, the email error wins |
| `IndexRoute.LoginAction` | app/routes/_index.tsx:21-66 | an unreadable form gives 500 `login/general`; guard rejections are returned; with valid fields the result is what `auth.login({username: email, password})` returns, or 500 `login/general` if it throws; the route never sets a cookie itself, so any `Set-Cookie` is `login`'s own; a 400 is either a guard rejection or `login`'s own reply |
| `IndexRoute.LoginPassesThrough` | app/routes/_index.tsx:55 | with valid fields and a login that returns, the action's result is that very response |
| `IndexRoute.IndexLoaderMatchesGuard` | app/routes/_index.tsx:68-70 | for an `Auth` keeping the `requireUser` promise, the loader returns exactly the user the guard admits with no role required, and `null` exactly when it refuses |
| `ControllerTypes.DBResult.Count` | app/controllers/controller-types.ts:15-17 | `count()` equals the length of `rows()` |

Other facts the types carry: every `AuthUser` field is an `Option`, so a
record with all fields absent is a valid `AuthUser`; `Auth.user` yields an
`Option<AuthUser>`, a user or `null` and nothing else; `DBResult.Rows`
is the record list the result was built from, and `count` and `rows` are
functions and so cannot change the stored records.

Observations on the source, kept as written in the model: the home route's
errors reuse the sign-up codes `signup/invalid-email` and
`signup/invalid-password`, with status `'error'` where the sign-up route
uses `'validationFailure'`; the `session/create` envelope has no `status`
field; a destroyed session keeps its keys, set to `""`, rather than being
dropped (`DestroyAfterCreate`).

## Left out

- The cookie codec (`getSession`, `commitSession`, `destroySession`): not part of this model; a parameter, so no cookie round trip is proved.
- `AuthSession.CreateAuthSession`: `getSession()` without a cookie is taken to give an empty session (a requires on the `getSession` parameter); a codec that did otherwise is not modelled.
- `AuthTypes.GuardKept`: the doc comment says a failed `requireUser` throws and also names `redirectTo` as where to send the user; the model reads this as redirect when `redirectTo` is given, throw otherwise.
- `JSON.stringify`: an uninterpreted parameter from JSON values to strings; values it cannot serialise (`undefined`, functions, cycles, `BigInt`) are not among the modelled field values, so it never throws here.
- `AuthSession.CreateAuthSession`: `data` is a sequence of key/value fields in `for...in` order; enumeration of inherited or non-object `data` is not modelled.
- Promises: every call is synchronous. At `_index.tsx:55` the source returns `auth.login(...)` without `await`, so a rejected login promise escapes the catch; the model catches only a throw from the call itself.
- Form values are strings; a `File` value (whose `trim` would throw) is not modelled.
- `trim` uses the whitespace and line-terminator set ECMAScript fixes today; future Unicode space characters are not tracked.
- The `Auth` operations (`createAccount`, `login`, `logout`, `exists`, `requireUser`, `user`) have no implementation in the modelled files; they are inputs, and only the `requireUser` and `exists` doc-comment promises are stated, as predicates.
- The `AuthSession` interface type itself is not a separate entity; the `AuthSession` module's methods are its only implementation.
- `users.create`, `DBInterface`, `AbstractController`: database calls without bodies; `users.create` is a parameter that passes or throws.
- Whether the platform's `Response` accepts a JSON body with status 204 is not modelled; `destroyAuthSession` is shown returning that envelope.
- `console.error` logging, `meta`, and the React components of both routes: output and UI only.
- `app/firebase.js`, `jest.config.ts` and the emulator test: configuration and network tests, no logic of the core.
