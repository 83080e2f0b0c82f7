/**
 * The auth layer's vocabulary: the `AuthUser` record, the session-key
 * argument of `destroyAuthSession`, and the `Auth<User>` interface as a
 * record of operations, with the promises its doc comments make.
 */
module AuthTypes {
  import opened Wrappers
  import opened Http

  /** Every field is optional. */
  datatype AuthUser = AuthUser(
    id: Option<string>,        // unique identifier
    username: Option<string>,  // unique login name, typically an email
    password: Option<string>,  // only on sign-in and account-creation requests
    name: Option<string>,      // display name
    role: Option<string>)      // assigned role

  /** The object literal `{ username, password }`. */
  function Credentials(username: string, password: string): AuthUser {
    AuthUser(None, Some(username), Some(password), None, None)
  }

  /** The `keys` argument of `destroyAuthSession`: `string[] | string`. */
  datatype SessionKeys = SingleKey(key: string) | KeyList(keys: seq<string>)
  {
    /** The keys to blank, in the order they are blanked. */
    function AsList(): (ks: seq<string>)
      ensures SingleKey? ==> ks == [key]
      ensures KeyList? ==> ks == keys
    {
      match this
      case SingleKey(k) => [k]
      case KeyList(ks) => ks
    }
  }

  /** Why `requireUser` refused. */
  datatype Denial = Unauthenticated | Forbidden

  /** What `requireUser` does: let the user through, redirect, or throw. */
  datatype Guard = Admitted(user: AuthUser) | Redirected(location: string) | Thrown(denial: Denial)

  /**
   * `Auth<User>`: each operation of the interface. `unknown` and
   * `Promise<Response>` results are a `Response` or a throw.
   */
  datatype Auth = Auth(
    createAccount: (AuthUser, Option<string>) -> Result<Response>,
    login: (AuthUser, Option<string>) -> Result<Response>,
    logout: (Request, Option<string>) -> Result<Response>,
    accountExists: AuthUser -> bool,   // `exists`, a reserved word here
    requireUser: (Request, Option<string>, Option<string>) -> Guard,
    user: Request -> Option<AuthUser>)

  /**
   * The user holds the requested role; a `null` or omitted role means the
   * role is unknown and nothing beyond being signed in is required.
   */
  predicate HoldsRole(u: AuthUser, role: Option<string>) {
    role.None? || u.role == role
  }

  /**
   * One call of `requireUser` kept its documented promise, given who is
   * signed in: it lets the user through exactly when someone is signed in
   * and holds the role, and then hands back that user; otherwise it
   * redirects to `redirectTo` when one is given, and throws, naming the
   * right failure, when none is.
   */
  predicate GuardKept(g: Guard, current: Option<AuthUser>, role: Option<string>, redirectTo: Option<string>) {
    && (g.Admitted? <==> current.Some? && HoldsRole(current.value, role))
    && (g.Admitted? ==> g.user == current.value)
    && (g.Redirected? ==> Truthy(redirectTo) && g.location == redirectTo.value)
    && (!(current.Some? && HoldsRole(current.value, role)) && Truthy(redirectTo) ==>
          g == Redirected(redirectTo.value))
    && (g.Thrown? ==> g.denial == if current.None? then Unauthenticated else Forbidden)
  }

  /** `requireUser` keeps its promise on every request, judged by `user(request)`. */
  ghost predicate RequireUserHonoured(auth: Auth) {
    forall request, role, redirectTo ::
      GuardKept(auth.requireUser(request, role, redirectTo), auth.user(request), role, redirectTo)
  }

  /** `exists(user)` is true exactly when an account with that username is registered. */
  ghost predicate ExistsHonoured(auth: Auth, registered: set<string>) {
    forall u :: auth.accountExists(u) <==> u.username.Some? && u.username.value in registered
  }

  /** With nobody signed in, `requireUser` never hands back a user and reports no role failure. */
  lemma RequireUserNeedsSession(auth: Auth, request: Request, role: Option<string>, redirectTo: Option<string>)
    requires RequireUserHonoured(auth)
    requires auth.user(request).None?
    ensures !auth.requireUser(request, role, redirectTo).Admitted?
    ensures auth.requireUser(request, role, redirectTo).Thrown? ==>
              auth.requireUser(request, role, redirectTo).denial == Unauthenticated
  {
  }

  /** A signed-in user without the requested role is never let through, and the failure is an authorisation one. */
  lemma RequireUserNeedsRole(auth: Auth, request: Request, role: string, redirectTo: Option<string>)
    requires RequireUserHonoured(auth)
    requires auth.user(request).Some? && auth.user(request).value.role != Some(role)
    ensures !auth.requireUser(request, Some(role), redirectTo).Admitted?
    ensures auth.requireUser(request, Some(role), redirectTo).Thrown? ==>
              auth.requireUser(request, Some(role), redirectTo).denial == Forbidden
  {
  }

  /** Without a truthy `redirectTo`, a refusal is a throw. */
  lemma RequireUserThrowsWithoutRedirect(g: Guard, current: Option<AuthUser>, role: Option<string>, redirectTo: Option<string>)
    requires GuardKept(g, current, role, redirectTo)
    requires !Truthy(redirectTo)
    requires current.None? || !HoldsRole(current.value, role)
    ensures g == Thrown(if current.None? then Unauthenticated else Forbidden)
  {
  }

  /**
   * A refused request with a `redirectTo` is sent there: with nobody signed
   * in and `redirectTo = "/login"`, the guard redirects to `/login`.
   */
  lemma RequireUserRedirects(auth: Auth, request: Request, role: Option<string>, redirectTo: string)
    requires RequireUserHonoured(auth)
    requires redirectTo != ""
    requires auth.user(request).None? || !HoldsRole(auth.user(request).value, role)
    ensures auth.requireUser(request, role, Some(redirectTo)) == Redirected(redirectTo)
    ensures auth.user(request).None? ==> auth.requireUser(request, role, Some("/login")) == Redirected("/login")
  {
    assert GuardKept(auth.requireUser(request, role, Some("/login")), auth.user(request), role, Some("/login"));
  }

  /**
   * A guard that keeps the promise on every input exists: the promise is
   * consistent, for every combination of signed-in user, role and redirect.
   */
  function ReferenceGuard(current: Option<AuthUser>, role: Option<string>, redirectTo: Option<string>): (g: Guard)
    ensures GuardKept(g, current, role, redirectTo)
  {
    if current.Some? && HoldsRole(current.value, role) then Admitted(current.value)
    else if Truthy(redirectTo) then Redirected(redirectTo.value)
    else Thrown(if current.None? then Unauthenticated else Forbidden)
  }

  /**
   * `exists` before and after an account is registered: false for its
   * username before, true after.
   */
  lemma ExistsTracksRegistration(before: Auth, after: Auth, registered: set<string>, username: string, password: string)
    requires username !in registered
    requires ExistsHonoured(before, registered)
    requires ExistsHonoured(after, registered + {username})
    ensures !before.accountExists(Credentials(username, password))
    ensures after.accountExists(Credentials(username, password))
  {
  }
}
