/**
 * The sign-up route: its form `action` (validate email, password and
 * confirmation; create the account with the identity provider; store a
 * guest profile; redirect home) and its `loader`.
 */
module SignupRoute {
  import opened Wrappers
  import opened Http
  import opened Text
  import opened AuthTypes

  /** The preferences object of a stored profile. */
  datatype Preferences = Preferences(theme: string)

  /** The application-level user profile handed to `users.create`. */
  datatype Profile = Profile(id: Option<string>, role: string, username: Option<string>, preferences: Preferences)

  /** The result of the validation guards: an error response, or the checked credentials. */
  datatype Verdict = Reject(response: Response) | Proceed(email: string, password: string)

  const InvalidEmail: Response :=
    Json(400, ErrorEnvelope(Some(ValidationFailure), "signup/invalid-email", "Email field cannot be empty"), None)

  const InvalidPassword: Response :=
    Json(400, ErrorEnvelope(Some(ValidationFailure), "signup/invalid-password",
                            "Password fields cannot be empty and must match"), None)

  const GeneralFailure: Response :=
    Json(500, ErrorEnvelope(Some(Error), "signup/general", "There was a problem creating the account"), None)

  /**
   * The password guard: `!password || !confirm || password.trim() === '' ||
   * password !== confirm`.
   */
  predicate PasswordRejected(password: Option<string>, confirm: Option<string>) {
    password.None? || confirm.None? || password.value == "" || confirm.value == ""
    || Trim(password.value) == "" || password.value != confirm.value
  }

  /**
   * The guards in source order. A missing or blank email is rejected
   * whatever the passwords are; then a missing, blank or mismatched password
   * is rejected; anything else proceeds with the submitted values.
   */
  function ValidateSignup(email: Option<string>, password: Option<string>, confirm: Option<string>): (v: Verdict)
    ensures (email.None? || IsBlank(email.value)) ==> v == Reject(InvalidEmail)
    ensures email.Some? && !IsBlank(email.value) ==>
              (v == Reject(InvalidPassword) <==>
                 password.None? || confirm.None? || IsBlank(password.value) || password.value != confirm.value)
    ensures v.Proceed? <==>
              email.Some? && !IsBlank(email.value) && password.Some? && confirm.Some?
              && !IsBlank(password.value) && password.value == confirm.value
    ensures v.Proceed? ==> email == Some(v.email) && password == Some(v.password) && confirm == Some(v.password)
  {
    if MissingOrBlank(email) then Reject(InvalidEmail)
    else if PasswordRejected(password, confirm) then
      if password.Some? then TrimEmptyIffBlank(password.value); Reject(InvalidPassword)
      else Reject(InvalidPassword)
    else
      TrimEmptyIffBlank(password.value);
      Proceed(email.value, password.value)
  }

  /**
   * `(await createAccount(...) as Response).json()` then `res.user`: the
   * reported identity, or nothing when the call threw, the response has no
   * JSON body, or the body has no `user` (reading `res.user.uid` then throws).
   */
  function ReportedUser(created: Result<Response>): (u: Option<IdentityRecord>)
    ensures u.Some? <==> created.Success? && created.value.Json? && created.value.body.ProviderPayload?
                         && created.value.body.user.Some?
    ensures u.Some? ==> u == created.value.body.user
  {
    if created.Success? && created.value.Json? && created.value.body.ProviderPayload? then created.value.body.user
    else None
  }

  /** The response of the action, and the profile it handed to `users.create`, if it got that far. */
  datatype SignupOutcome = SignupOutcome(response: Response, written: Option<Profile>)

  /**
   * The sign-up `action`. `usersCreate` stands for `users.create`, which may
   * throw. Every throw after the action starts, including reading the form,
   * ends in the 500 `signup/general` envelope.
   */
  function SignupAction(request: Request, auth: Auth, usersCreate: Profile -> Outcome): (r: SignupOutcome)
    ensures request.form.Failure? ==> r == SignupOutcome(GeneralFailure, None)
    ensures request.form.Success? ==>
              var form := request.form.value;
              var v := ValidateSignup(FormGet(form, "email"), FormGet(form, "password"), FormGet(form, "confirm"));
              && (v.Reject? ==> r == SignupOutcome(v.response, None))
              && (v.Proceed? ==>
                    var u := ReportedUser(auth.createAccount(Credentials(v.email, v.password), None));
                    && (u.None? ==> r == SignupOutcome(GeneralFailure, None))
                    && (u.Some? ==> r.written == Some(Profile(u.value.uid, "guest", u.value.email, Preferences("dark")))))
    // Only the guards answer 400; success is exactly a stored profile, and it redirects home.
    ensures r.response.Json? && r.response.status == 400 ==>
              && r.written.None? && request.form.Success?
              && ValidateSignup(FormGet(request.form.value, "email"), FormGet(request.form.value, "password"),
                                FormGet(request.form.value, "confirm")).Reject?
    ensures r.response.Redirect? <==> r.written.Some? && usersCreate(r.written.value).Pass?
    ensures r.response.Redirect? ==> r.response == Redirect("/", None)
    ensures !r.response.Redirect? && r.written.Some? ==> r.response == GeneralFailure
  {
    match request.form
    case Failure(_) => SignupOutcome(GeneralFailure, None)
    case Success(form) =>
      match ValidateSignup(FormGet(form, "email"), FormGet(form, "password"), FormGet(form, "confirm"))
      case Reject(response) => SignupOutcome(response, None)
      case Proceed(email, password) =>
        match ReportedUser(auth.createAccount(Credentials(email, password), None))
        case None => SignupOutcome(GeneralFailure, None)
        case Some(user) =>
          var profile := Profile(user.uid, "guest", user.email, Preferences("dark"));
          match usersCreate(profile)
          case Fail(_) => SignupOutcome(GeneralFailure, Some(profile))
          case Pass => SignupOutcome(Redirect("/", None), Some(profile))
  }

  /** When email and password are both invalid, the email error is the one returned. */
  lemma EmailCheckedFirst(email: Option<string>, password: Option<string>, confirm: Option<string>)
    requires email.None? || IsBlank(email.value)
    requires PasswordRejected(password, confirm)
    ensures ValidateSignup(email, password, confirm) == Reject(InvalidEmail)
  {
  }

  /**
   * The sign-up `loader` sends home exactly the requests `requireUser`
   * would admit with no role required.
   */
  lemma SignupLoaderMatchesGuard(request: Request, auth: Auth, redirectTo: Option<string>)
    requires RequireUserHonoured(auth)
    ensures SignupLoader(request, auth).Some? <==> auth.requireUser(request, None, redirectTo).Admitted?
    ensures SignupLoader(request, auth).None? && Truthy(redirectTo) ==>
              auth.requireUser(request, None, redirectTo) == Redirected(redirectTo.value)
  {
    assert GuardKept(auth.requireUser(request, None, redirectTo), auth.user(request), None, redirectTo);
  }

  /**
   * A `createAccount` reply without a provider `user` (a throw, a redirect,
   * or an envelope such as the provider's own error) ends in the 500
   * `signup/general` envelope with nothing stored: the provider's error code
   * is not passed on.
   */
  lemma ProviderErrorDiscarded(request: Request, auth: Auth, usersCreate: Profile -> Outcome, email: string, password: string)
    requires request.form.Success?
    requires ValidateSignup(FormGet(request.form.value, "email"), FormGet(request.form.value, "password"),
                            FormGet(request.form.value, "confirm")) == Proceed(email, password)
    requires var reply := auth.createAccount(Credentials(email, password), None);
             || reply.Failure?
             || reply.value.Redirect?
             || !reply.value.body.ProviderPayload?
             || reply.value.body.user.None?
    ensures SignupAction(request, auth, usersCreate) == SignupOutcome(GeneralFailure, None)
  {
  }

  /** The sign-up `loader`: an already signed-in user is sent home; otherwise `null`. */
  function SignupLoader(request: Request, auth: Auth): (r: Option<Response>)
    ensures r.Some? <==> auth.user(request).Some?
    ensures r.Some? ==> r.value == Redirect("/", None)
  {
    if auth.user(request).Some? then Some(Redirect("/", None)) else None
  }
}
