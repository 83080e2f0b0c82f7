/**
 * The home route: its login form `action` (validate email and password,
 * then hand over to `auth.login`) and its `loader`.
 */
module IndexRoute {
  import opened Wrappers
  import opened Http
  import opened Text
  import opened AuthTypes

  datatype Verdict = Reject(response: Response) | Proceed(email: string, password: string)

  // The home route reuses the sign-up error codes, with status 'error'.
  const InvalidEmail: Response :=
    Json(400, ErrorEnvelope(Some(Error), "signup/invalid-email", "Email field cannot be empty"), None)

  const InvalidPassword: Response :=
    Json(400, ErrorEnvelope(Some(Error), "signup/invalid-password", "Password field cannot be empty"), None)

  const GeneralFailure: Response :=
    Json(500, ErrorEnvelope(Some(Error), "login/general", "There was a problem logging in"), None)

  /**
   * The guards in source order: a missing or blank email first, whatever the
   * password; then a missing or blank password. There is no confirmation.
   */
  function ValidateLogin(email: Option<string>, password: Option<string>): (v: Verdict)
    ensures (email.None? || IsBlank(email.value)) ==> v == Reject(InvalidEmail)
    ensures email.Some? && !IsBlank(email.value) && (password.None? || IsBlank(password.value)) ==>
              v == Reject(InvalidPassword)
    ensures v.Proceed? <==> email.Some? && !IsBlank(email.value) && password.Some? && !IsBlank(password.value)
    ensures v.Proceed? ==> email == Some(v.email) && password == Some(v.password)
  {
    if MissingOrBlank(email) then Reject(InvalidEmail)
    else if MissingOrBlank(password) then Reject(InvalidPassword)
    else Proceed(email.value, password.value)
  }

  /** The guards let the request through to `auth.login`. */
  predicate LoginReached(request: Request) {
    request.form.Success?
    && ValidateLogin(FormGet(request.form.value, "email"), FormGet(request.form.value, "password")).Proceed?
  }

  /** What `auth.login` replies for the request's credentials, once the guards let it through. */
  function LoginReply(request: Request, auth: Auth): Result<Response>
    requires LoginReached(request)
  {
    var v := ValidateLogin(FormGet(request.form.value, "email"), FormGet(request.form.value, "password"));
    auth.login(Credentials(v.email, v.password), None)
  }

  /**
   * The login `action`. After the guards it returns whatever
   * `auth.login({username: email, password})` returns, unchanged; a throw
   * while reading the form or inside `login` gives the 500 `login/general`
   * envelope.
   */
  function LoginAction(request: Request, auth: Auth): (r: Response)
    ensures request.form.Failure? ==> r == GeneralFailure
    ensures request.form.Success? ==>
              var form := request.form.value;
              var v := ValidateLogin(FormGet(form, "email"), FormGet(form, "password"));
              && (v.Reject? ==> r == v.response)
              && (v.Proceed? ==>
                    var res := auth.login(Credentials(v.email, v.password), None);
                    r == if res.Success? then res.value else GeneralFailure)
    // The route itself never opens a session: a `Set-Cookie` can only come from `login`'s own reply.
    ensures r.setCookie.Some? ==> LoginReached(request) && LoginReply(request, auth) == Success(r)
    // A 400 the route builds itself is a guard rejection; every other response it builds is the 500 fallback.
    ensures r.Json? && r.status == 400 ==>
              (request.form.Success? && !LoginReached(request)) || LoginReply(request, auth) == Success(r)
    ensures !LoginReached(request) ==> r.Json? && r.setCookie.None? && (r.status == 400 || r == GeneralFailure)
    ensures LoginReached(request) ==> r == GeneralFailure || LoginReply(request, auth) == Success(r)
  {
    match request.form
    case Failure(_) => GeneralFailure
    case Success(form) =>
      match ValidateLogin(FormGet(form, "email"), FormGet(form, "password"))
      case Reject(response) => response
      case Proceed(email, password) =>
        match auth.login(Credentials(email, password), None)
        case Success(response) => response
        case Failure(_) => GeneralFailure
  }

  /** With valid fields the action is transparent: it returns `login`'s response itself. */
  lemma LoginPassesThrough(request: Request, auth: Auth, email: string, password: string, response: Response)
    requires request.form.Success?
    requires FormGet(request.form.value, "email") == Some(email) && !IsBlank(email)
    requires FormGet(request.form.value, "password") == Some(password) && !IsBlank(password)
    requires auth.login(Credentials(email, password), None) == Success(response)
    ensures LoginAction(request, auth) == response
  {
  }

  /** An invalid email is reported even when the password is invalid too. */
  lemma EmailCheckedFirst(email: Option<string>, password: Option<string>)
    requires email.None? || IsBlank(email.value)
    requires password.None? || IsBlank(password.value)
    ensures ValidateLogin(email, password) == Reject(InvalidEmail)
  {
  }

  /**
   * The home `loader` reports exactly the user `requireUser` would admit
   * with no role required: `null` exactly when the guard refuses.
   */
  lemma IndexLoaderMatchesGuard(request: Request, auth: Auth, redirectTo: Option<string>)
    requires RequireUserHonoured(auth)
    ensures IndexLoader(request, auth).None? <==> !auth.requireUser(request, None, redirectTo).Admitted?
    ensures IndexLoader(request, auth).Some? ==>
              auth.requireUser(request, None, redirectTo) == Admitted(IndexLoader(request, auth).value)
  {
    assert GuardKept(auth.requireUser(request, None, redirectTo), auth.user(request), None, redirectTo);
  }

  /** The home `loader`: the current user, or `null`, as `auth.user` reports it. */
  function IndexLoader(request: Request, auth: Auth): (r: Option<AuthUser>)
    ensures r == auth.user(request)
  {
    auth.user(request)
  }
}
