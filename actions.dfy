/**
 * The server actions behind the invoice and account forms. Each action
 * validates its submission with a schema, and only a valid submission is
 * forwarded to the backend; the backend's answer is then turned into a
 * returned state, a redirect or a thrown error.
 *
 * Backend requests are recorded, in order, in the step's `calls`: an action
 * that records no call has not touched the store or the identity provider.
 * The backend's answers are parameters (an error message, or the data the
 * provider returned); a parameter is only consulted when its call is made.
 */
module Actions {
  import opened Definitions
  import opened Schemas

  const CREATE_FAILED_FIELDS := "Missing Fields. Failed to Create Invoice."
  const UPDATE_FAILED_FIELDS := "Missing Fields. Failed to Update Invoice."
  const CREATE_FAILED := "Failed to create invoice."
  const UPDATE_FAILED := "Failed to update invoice."
  const LOGIN_FAILED := "Login failed. Please try again."
  const EMAIL_IN_USE := "Email already in use"
  const INVOICES_PAGE := "/dashboard/invoices"
  const DASHBOARD_PAGE := "/dashboard"
  const REGISTER_CONFIRMATION_PAGE := "/register/confirmation"
  const FORGOT_CONFIRMATION_PAGE := "/forgot-password/confirmation"

  /** A request an action sends to the store or to the identity provider. */
  datatype BackendCall =
    | InsertRow(customerId: string, amountInCents: real, date: string, status: Status)
    | UpdateRow(id: string, customerId: string, amountInCents: real, status: Status)
    | SignInWithPassword(email: string, password: string)
    | SignUp(email: string, password: string)
    | ResetPasswordForEmail(email: string)
    | UpdateUser(password: string)

  /** What an action hands back to its form (a Next.js `redirect` is a result here, not an exception). */
  datatype Outcome =
    | ValidationFailed(errors: FieldErrors, summary: Option<string>)
    | ErrorMessage(error: string)
    | Redirect(path: string)
    | Thrown(reason: string)

  datatype Step = Step(outcome: Outcome, calls: seq<BackendCall>)

  /** The user that `signInWithPassword` reports, if any. */
  datatype SignInData = SignInData(user: Option<string>)

  /** The user that `signUp` reports, with its list of linked identities when present. */
  datatype SignUpUser = SignUpUser(identities: Option<seq<string>>)

  /** True when every written call carries an invoice the schema accepts. */
  predicate WritesValidInvoices(calls: seq<BackendCall>) {
    forall i | 0 <= i < |calls| ::
      (calls[i].InsertRow? ==> calls[i].amountInCents > 0.0)
      && (calls[i].UpdateRow? ==> calls[i].amountInCents > 0.0)
  }

  // ---------------------------------------------------------------------------
  // Invoices

  function CreateInvoice(form: FormData, coerce: string -> JsNumber, today: string,
                         insertError: Option<string>): (r: Step)
    ensures ParseInvoice(form, coerce).Invalid? <==> r.calls == []
    ensures WritesValidInvoices(r.calls)
  {
    match ParseInvoice(form, coerce)
    case Invalid(errors) => Step(ValidationFailed(errors, Some(CREATE_FAILED_FIELDS)), [])
    case Valid(fields) =>
      var call := InsertRow(fields.customerId, fields.amount * 100.0, today, fields.status);
      if insertError.Some? then Step(Thrown(CREATE_FAILED), [call])
      else Step(Redirect(INVOICES_PAGE), [call])
  }

  function UpdateInvoice(id: string, form: FormData, coerce: string -> JsNumber,
                         updateError: Option<string>): (r: Step)
    ensures ParseInvoice(form, coerce).Invalid? <==> r.calls == []
    ensures WritesValidInvoices(r.calls)
  {
    match ParseInvoice(form, coerce)
    case Invalid(errors) => Step(ValidationFailed(errors, Some(UPDATE_FAILED_FIELDS)), [])
    case Valid(fields) =>
      var call := UpdateRow(id, fields.customerId, fields.amount * 100.0, fields.status);
      if updateError.Some? then Step(Thrown(UPDATE_FAILED), [call])
      else Step(Redirect(INVOICES_PAGE), [call])
  }

  // ---------------------------------------------------------------------------
  // Accounts

  function Login(form: FormData, isEmail: string -> bool, signInError: Option<string>,
                 data: SignInData): (r: Step)
    ensures ParseLogin(form, isEmail).Invalid? <==> r.calls == []
    ensures r.outcome.Redirect? ==> r.outcome.path == "/dashboard" && signInError.None? && data.user.Some?
  {
    match ParseLogin(form, isEmail)
    case Invalid(errors) => Step(ValidationFailed(errors, None), [])
    case Valid(fields) =>
      var call := SignInWithPassword(fields.email, fields.password);
      if signInError.Some? then Step(ErrorMessage(signInError.value), [call])
      else if data.user.None? then Step(ErrorMessage(LOGIN_FAILED), [call])
      else Step(Redirect(DASHBOARD_PAGE), [call])
  }

  /** The provider answered with a user whose identity list is present and empty: the address is already taken. */
  predicate AlreadyRegistered(user: Option<SignUpUser>) {
    user.Some? && user.value.identities.Some? && |user.value.identities.value| == 0
  }

  function Register(form: FormData, isEmail: string -> bool, signUpError: Option<string>,
                    user: Option<SignUpUser>): (r: Step)
    ensures ParseRegister(form, isEmail).Invalid? <==> r.calls == []
    ensures r.outcome.Redirect? ==> r.outcome.path == "/register/confirmation" && !AlreadyRegistered(user)
  {
    match ParseRegister(form, isEmail)
    case Invalid(errors) => Step(ValidationFailed(errors, None), [])
    case Valid(fields) =>
      var call := SignUp(fields.email, fields.password);
      if signUpError.Some? then Step(ErrorMessage(signUpError.value), [call])
      else if AlreadyRegistered(user) then Step(ErrorMessage(EMAIL_IN_USE), [call])
      else Step(Redirect(REGISTER_CONFIRMATION_PAGE), [call])
  }

  function ForgotPassword(form: FormData, isEmail: string -> bool, resetError: Option<string>): (r: Step)
    ensures ParseForgot(form, isEmail).Invalid? <==> r.calls == []
    ensures r.outcome.Redirect? <==> ParseForgot(form, isEmail).Valid? && resetError.None?
  {
    match ParseForgot(form, isEmail)
    case Invalid(errors) => Step(ValidationFailed(errors, None), [])
    case Valid(email) =>
      var call := ResetPasswordForEmail(email);
      if resetError.Some? then Step(ErrorMessage(resetError.value), [call])
      else Step(Redirect(FORGOT_CONFIRMATION_PAGE), [call])
  }

  function ResetPassword(form: FormData, updateError: Option<string>): (r: Step)
    ensures ParseReset(form).Invalid? <==> r.calls == []
    ensures r.outcome.Redirect? <==> ParseReset(form).Valid? && updateError.None?
  {
    match ParseReset(form)
    case Invalid(errors) => Step(ValidationFailed(errors, None), [])
    case Valid(fields) =>
      var call := UpdateUser(fields.password);
      if updateError.Some? then Step(ErrorMessage(updateError.value), [call])
      else Step(Redirect(DASHBOARD_PAGE), [call])
  }

  // ---------------------------------------------------------------------------
  // Properties

  /**
   * A submission that fails validation gets its field errors back and reaches
   * no backend, whatever the backend would have answered.
   */
  lemma FailedValidationNeverReachesStore(form: FormData, coerce: string -> JsNumber, isEmail: string -> bool,
                                          id: string, today: string, error: Option<string>,
                                          signIn: SignInData, user: Option<SignUpUser>)
    ensures ParseInvoice(form, coerce).Invalid? ==>
              CreateInvoice(form, coerce, today, error)
                == Step(ValidationFailed(ParseInvoice(form, coerce).errors, Some("Missing Fields. Failed to Create Invoice.")), [])
              && UpdateInvoice(id, form, coerce, error)
                == Step(ValidationFailed(ParseInvoice(form, coerce).errors, Some("Missing Fields. Failed to Update Invoice.")), [])
    ensures ParseLogin(form, isEmail).Invalid? ==>
              Login(form, isEmail, error, signIn) == Step(ValidationFailed(ParseLogin(form, isEmail).errors, None), [])
    ensures ParseRegister(form, isEmail).Invalid? ==>
              Register(form, isEmail, error, user) == Step(ValidationFailed(ParseRegister(form, isEmail).errors, None), [])
    ensures ParseForgot(form, isEmail).Invalid? ==>
              ForgotPassword(form, isEmail, error) == Step(ValidationFailed(ParseForgot(form, isEmail).errors, None), [])
    ensures ParseReset(form).Invalid? ==>
              ResetPassword(form, error) == Step(ValidationFailed(ParseReset(form).errors, None), [])
  {
  }

  /** Create and update apply the same rules and report the same field errors. */
  lemma CreateAndUpdateShareRules(form: FormData, coerce: string -> JsNumber, id: string, today: string,
                                  insertError: Option<string>, updateError: Option<string>)
    ensures CreateInvoice(form, coerce, today, insertError).calls == []
            <==> UpdateInvoice(id, form, coerce, updateError).calls == []
    ensures CreateInvoice(form, coerce, today, insertError).outcome.ValidationFailed?
            ==> UpdateInvoice(id, form, coerce, updateError).outcome.ValidationFailed?
                && CreateInvoice(form, coerce, today, insertError).outcome.errors
                   == UpdateInvoice(id, form, coerce, updateError).outcome.errors
  {
  }

  /** A valid invoice is sent once, with the validated customer, the amount in cents and the status. */
  lemma ValidInvoiceIsWrittenOnce(form: FormData, coerce: string -> JsNumber, id: string, today: string,
                                  error: Option<string>)
    requires ParseInvoice(form, coerce).Valid?
    ensures var f := ParseInvoice(form, coerce).data;
            && CreateInvoice(form, coerce, today, error).calls
               == [InsertRow(f.customerId, f.amount * 100.0, today, f.status)]
            && UpdateInvoice(id, form, coerce, error).calls
               == [UpdateRow(id, f.customerId, f.amount * 100.0, f.status)]
    ensures CreateInvoice(form, coerce, today, error).outcome
            == (if error.Some? then Thrown("Failed to create invoice.") else Redirect("/dashboard/invoices"))
    ensures UpdateInvoice(id, form, coerce, error).outcome
            == (if error.Some? then Thrown("Failed to update invoice.") else Redirect("/dashboard/invoices"))
  {
  }

  /** Login: the provider's error message, the generic failure without a user, the dashboard otherwise. */
  lemma LoginOutcomes(form: FormData, isEmail: string -> bool, signInError: Option<string>, data: SignInData)
    requires ParseLogin(form, isEmail).Valid?
    ensures Login(form, isEmail, signInError, data).calls == [SignInWithPassword(form[EMAIL], form[PASSWORD])]
    ensures signInError.Some? ==> Login(form, isEmail, signInError, data).outcome == ErrorMessage(signInError.value)
    ensures signInError.None? && data.user.None?
            ==> Login(form, isEmail, signInError, data).outcome == ErrorMessage("Login failed. Please try again.")
    ensures signInError.None? && data.user.Some?
            ==> Login(form, isEmail, signInError, data).outcome == Redirect("/dashboard")
  {
  }

  /** Registration: an empty identity list means the address is taken; otherwise go to the confirmation page. */
  lemma RegisterOutcomes(form: FormData, isEmail: string -> bool, signUpError: Option<string>,
                         user: Option<SignUpUser>)
    requires ParseRegister(form, isEmail).Valid?
    ensures Register(form, isEmail, signUpError, user).calls == [SignUp(form[EMAIL], form[PASSWORD])]
    ensures signUpError.Some? ==> Register(form, isEmail, signUpError, user).outcome == ErrorMessage(signUpError.value)
    ensures signUpError.None? && user.Some? && user.value.identities == Some([])
            ==> Register(form, isEmail, signUpError, user).outcome == ErrorMessage("Email already in use")
    ensures signUpError.None? && (user.None? || user.value.identities.None? || |user.value.identities.value| > 0)
            ==> Register(form, isEmail, signUpError, user).outcome == Redirect("/register/confirmation")
  {
  }

  /** Forgot password: the provider's error message is returned; otherwise go to the confirmation page. */
  lemma ForgotPasswordOutcomes(form: FormData, isEmail: string -> bool, resetError: Option<string>)
    requires ParseForgot(form, isEmail).Valid?
    ensures ForgotPassword(form, isEmail, resetError).calls == [ResetPasswordForEmail(form[EMAIL])]
    ensures resetError.Some? ==> ForgotPassword(form, isEmail, resetError).outcome == ErrorMessage(resetError.value)
    ensures resetError.None?
            ==> ForgotPassword(form, isEmail, resetError).outcome == Redirect("/forgot-password/confirmation")
  {
  }

  /** Reset password: the new password is sent; the provider's error message is returned, otherwise go to the dashboard. */
  lemma ResetPasswordOutcomes(form: FormData, updateError: Option<string>)
    requires ParseReset(form).Valid?
    ensures ResetPassword(form, updateError).calls == [UpdateUser(form[PASSWORD])]
    ensures updateError.Some? ==> ResetPassword(form, updateError).outcome == ErrorMessage(updateError.value)
    ensures updateError.None? ==> ResetPassword(form, updateError).outcome == Redirect("/dashboard")
  {
  }
}
