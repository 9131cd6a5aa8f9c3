/**
 * The form schemas of the server actions: what each schema accepts, the
 * issues it raises otherwise, and the field-to-messages map that zod's
 * `flatten` builds from those issues.
 *
 * A submission is the form's entries collected into an object: a map from a
 * field name to its text, in which a field the form did not send is absent.
 * Zod's email syntax check and its numeric coercion are library behaviour and
 * enter as oracles. The messages are those of zod 3 from version 3.23 on:
 * "Required" for a missing field, "Expected number, received nan" after a
 * coercion to NaN, and a schema's own `message` also covering a missing field.
 */
module Schemas {
  import opened Definitions

  type FormData = map<string, string>

  /** The flattened field errors: every field that failed, with its messages in order. */
  type FieldErrors = map<string, seq<string>>

  const CUSTOMER_ID := "customerId"
  const AMOUNT := "amount"
  const STATUS := "status"
  const EMAIL := "email"
  const PASSWORD := "password"
  const PASSWORD_CONFIRM := "passwordConfirm"

  const MIN_PASSWORD_LENGTH := 6

  /** Zod's default message for a field that is missing. */
  const REQUIRED_MESSAGE := "Required"
  /** Zod's default message when coercion yields NaN. */
  const NAN_MESSAGE := "Expected number, received nan"
  const CUSTOMER_MESSAGE := "Please select a customer."
  const AMOUNT_MESSAGE := "Please enter an amount greater than $0."
  const STATUS_MESSAGE := "Please select an invoice status."
  const EMAIL_MESSAGE := "Please enter a valid email address."
  const PASSWORD_LENGTH_MESSAGE := "Password must contain at least 6 characters"
  const MISMATCH_MESSAGE := "Passwords do not match."

  /** A JavaScript number produced by `Number(...)`: a finite value or NaN. */
  datatype JsNumber = Num(value: real) | NaN

  /** One zod issue: the field it is attached to and its message. */
  datatype Issue = Issue(path: string, message: string)

  /** The result of a safe parse: the typed payload, or the flattened field errors. */
  datatype Parsed<T> = Valid(data: T) | Invalid(errors: FieldErrors) {

    /** The field errors of a failed parse; none for a successful one. */
    function Errors(): FieldErrors {
      if Invalid? then errors else map[]
    }
  }

  datatype InvoiceFields = InvoiceFields(customerId: string, amount: real, status: Status)
  datatype LoginFields = LoginFields(email: string, password: string)
  datatype RegisterFields = RegisterFields(email: string, password: string)
  datatype ResetFields = ResetFields(password: string)

  // ---------------------------------------------------------------------------
  // Flattening issues into field errors

  /** All messages of `issues` that are attached to `field`, in order. */
  function MessagesFor(issues: seq<Issue>, field: string): seq<string> {
    if issues == [] then []
    else (if issues[0].path == field then [issues[0].message] else []) + MessagesFor(issues[1..], field)
  }

  /** The flattened field errors: issues are visited in order and pushed onto their field's list. */
  function Flatten(issues: seq<Issue>): FieldErrors {
    if issues == [] then map[]
    else
      var errors := Flatten(issues[..|issues| - 1]);
      var last := issues[|issues| - 1];
      errors[last.path := (if last.path in errors then errors[last.path] else []) + [last.message]]
  }

  lemma {:induction false} MessagesForSnoc(issues: seq<Issue>, last: Issue, field: string)
    ensures MessagesFor(issues + [last], field)
            == MessagesFor(issues, field) + (if last.path == field then [last.message] else [])
  {
    if issues != [] {
      assert (issues + [last])[1..] == issues[1..] + [last];
      MessagesForSnoc(issues[1..], last, field);
    }
  }

  /** The flattened map lists a field exactly when some issue names it, with that field's messages in order. */
  lemma {:induction false} FlattenIsGrouping(issues: seq<Issue>, field: string)
    ensures field in Flatten(issues) <==> MessagesFor(issues, field) != []
    ensures field in Flatten(issues) ==> Flatten(issues)[field] == MessagesFor(issues, field)
  {
    if issues != [] {
      var init, last := issues[..|issues| - 1], issues[|issues| - 1];
      assert issues == init + [last];
      FlattenIsGrouping(init, field);
      MessagesForSnoc(init, last, field);
    }
  }

  /** No issue, no field error; an issue always leaves its field in the map. */
  lemma {:induction false} FlattenEmpty(issues: seq<Issue>)
    ensures Flatten(issues) == map[] <==> issues == []
  {
    if issues != [] {
      var last := issues[|issues| - 1];
      assert last.path in Flatten(issues);
    }
  }

  // ---------------------------------------------------------------------------
  // Field rules

  /** The customer rule: any sent text passes; a missing field gets the schema's own customer message. */
  function CustomerIdIssues(form: FormData): seq<Issue> {
    if CUSTOMER_ID in form then [] else [Issue(CUSTOMER_ID, CUSTOMER_MESSAGE)]
  }

  /** The number the amount coerces to; a missing amount coerces to NaN. */
  function CoercedAmount(form: FormData, coerce: string -> JsNumber): JsNumber {
    if AMOUNT in form then coerce(form[AMOUNT]) else NaN
  }

  /** The amount rule: NaN gets zod's number message, and a number must be strictly positive. */
  function AmountIssues(form: FormData, coerce: string -> JsNumber): seq<Issue> {
    match CoercedAmount(form, coerce)
    case NaN => [Issue(AMOUNT, NAN_MESSAGE)]
    case Num(v) => if v > 0.0 then [] else [Issue(AMOUNT, AMOUNT_MESSAGE)]
  }

  /** The status the `status` field names, when it is one of the two the enum lists. */
  function StatusOf(form: FormData): Option<Status> {
    if STATUS !in form then None
    else if form[STATUS] == "pending" then Some(Pending)
    else if form[STATUS] == "paid" then Some(Paid)
    else None
  }

  /** The status rule: a missing field and an unlisted value get the same status message. */
  function StatusIssues(form: FormData): seq<Issue> {
    if StatusOf(form).Some? then [] else [Issue(STATUS, STATUS_MESSAGE)]
  }

  /** The email rule: a missing field is required, and sent text must pass the email check. */
  function EmailIssues(form: FormData, isEmail: string -> bool): seq<Issue> {
    if EMAIL !in form then [Issue(EMAIL, REQUIRED_MESSAGE)]
    else if !isEmail(form[EMAIL]) then [Issue(EMAIL, EMAIL_MESSAGE)]
    else []
  }

  /** The password rule: a missing field is required, and sent text needs at least 6 characters. */
  function PasswordIssues(form: FormData): seq<Issue> {
    if PASSWORD !in form then [Issue(PASSWORD, REQUIRED_MESSAGE)]
    else if |form[PASSWORD]| < MIN_PASSWORD_LENGTH then [Issue(PASSWORD, PASSWORD_LENGTH_MESSAGE)]
    else []
  }

  /**
   * The password-match schema: the two fields, then the refinement that compares them.
   * A missing field aborts the object, and zod then skips the refinement; a
   * short password only marks it dirty, so the refinement still runs.
   */
  function PasswordMatchIssues(form: FormData): seq<Issue> {
    var confirmIssues := if PASSWORD_CONFIRM in form then [] else [Issue(PASSWORD_CONFIRM, REQUIRED_MESSAGE)];
    var refinement :=
      if PASSWORD in form && PASSWORD_CONFIRM in form && form[PASSWORD] != form[PASSWORD_CONFIRM]
      then [Issue(PASSWORD_CONFIRM, MISMATCH_MESSAGE)]
      else [];
    PasswordIssues(form) + confirmIssues + refinement
  }

  // ---------------------------------------------------------------------------
  // Schemas

  /** The invoice rules shared by the create and update actions (the schema without `id` and `date`). */
  function InvoiceIssues(form: FormData, coerce: string -> JsNumber): seq<Issue> {
    CustomerIdIssues(form) + AmountIssues(form, coerce) + StatusIssues(form)
  }

  function ParseInvoice(form: FormData, coerce: string -> JsNumber): (r: Parsed<InvoiceFields>)
    ensures r.Valid? <==> CUSTOMER_ID in form && CoercedAmount(form, coerce).Num?
                          && CoercedAmount(form, coerce).value > 0.0 && StatusOf(form).Some?
    ensures r.Valid? ==> r.data == InvoiceFields(form[CUSTOMER_ID], CoercedAmount(form, coerce).value, StatusOf(form).value)
    ensures r.Invalid? ==> r.errors == Flatten(InvoiceIssues(form, coerce)) && r.errors != map[]
  {
    var issues := InvoiceIssues(form, coerce);
    FlattenEmpty(issues);
    if issues == [] then
      Valid(InvoiceFields(form[CUSTOMER_ID], CoercedAmount(form, coerce).value, StatusOf(form).value))
    else Invalid(Flatten(issues))
  }

  /** The login rules: a valid email and any password text (no length rule here). */
  function LoginIssues(form: FormData, isEmail: string -> bool): seq<Issue> {
    EmailIssues(form, isEmail) + (if PASSWORD in form then [] else [Issue(PASSWORD, REQUIRED_MESSAGE)])
  }

  function ParseLogin(form: FormData, isEmail: string -> bool): (r: Parsed<LoginFields>)
    ensures r.Valid? <==> EMAIL in form && isEmail(form[EMAIL]) && PASSWORD in form
    ensures r.Valid? ==> r.data == LoginFields(form[EMAIL], form[PASSWORD])
    ensures r.Invalid? ==> r.errors == Flatten(LoginIssues(form, isEmail)) && r.errors != map[]
  {
    var issues := LoginIssues(form, isEmail);
    FlattenEmpty(issues);
    if issues == [] then Valid(LoginFields(form[EMAIL], form[PASSWORD])) else Invalid(Flatten(issues))
  }

  /** The registration rules: the email rule intersected with the password-match schema; both sides report. */
  function RegisterIssues(form: FormData, isEmail: string -> bool): seq<Issue> {
    EmailIssues(form, isEmail) + PasswordMatchIssues(form)
  }

  function ParseRegister(form: FormData, isEmail: string -> bool): (r: Parsed<RegisterFields>)
    ensures r.Valid? <==> EMAIL in form && isEmail(form[EMAIL]) && PASSWORD in form && PASSWORD_CONFIRM in form
                          && |form[PASSWORD]| >= MIN_PASSWORD_LENGTH && form[PASSWORD] == form[PASSWORD_CONFIRM]
    ensures r.Valid? ==> r.data == RegisterFields(form[EMAIL], form[PASSWORD])
    ensures r.Invalid? ==> r.errors == Flatten(RegisterIssues(form, isEmail)) && r.errors != map[]
  {
    var issues := RegisterIssues(form, isEmail);
    FlattenEmpty(issues);
    if issues == [] then Valid(RegisterFields(form[EMAIL], form[PASSWORD])) else Invalid(Flatten(issues))
  }

  /** The forgot-password rules: a valid email only. */
  function ParseForgot(form: FormData, isEmail: string -> bool): (r: Parsed<string>)
    ensures r.Valid? <==> EMAIL in form && isEmail(form[EMAIL])
    ensures r.Valid? ==> r.data == form[EMAIL]
    ensures r.Invalid? ==> r.errors == Flatten(EmailIssues(form, isEmail)) && r.errors != map[]
  {
    var issues := EmailIssues(form, isEmail);
    FlattenEmpty(issues);
    if issues == [] then Valid(form[EMAIL]) else Invalid(Flatten(issues))
  }

  /** The password-match schema on its own, as the reset-password action uses it. */
  function ParseReset(form: FormData): (r: Parsed<ResetFields>)
    ensures r.Valid? <==> PASSWORD in form && PASSWORD_CONFIRM in form
                          && |form[PASSWORD]| >= MIN_PASSWORD_LENGTH && form[PASSWORD] == form[PASSWORD_CONFIRM]
    ensures r.Valid? ==> r.data == ResetFields(form[PASSWORD])
    ensures r.Invalid? ==> r.errors == Flatten(PasswordMatchIssues(form)) && r.errors != map[]
  {
    var issues := PasswordMatchIssues(form);
    FlattenEmpty(issues);
    if issues == [] then Valid(ResetFields(form[PASSWORD])) else Invalid(Flatten(issues))
  }

  // ---------------------------------------------------------------------------
  // Properties of the rules

  /** An amount that is not strictly positive is refused with the amount message. */
  lemma NonPositiveAmountRefused(form: FormData, coerce: string -> JsNumber)
    requires AMOUNT in form && coerce(form[AMOUNT]).Num? && coerce(form[AMOUNT]).value <= 0.0
    ensures AMOUNT in ParseInvoice(form, coerce).Errors()
    ensures ParseInvoice(form, coerce).Errors()[AMOUNT] == ["Please enter an amount greater than $0."]
  {
    var issues := InvoiceIssues(form, coerce);
    FlattenIsGrouping(issues, AMOUNT);
    assert MessagesFor(CustomerIdIssues(form), AMOUNT) == [];
    MessagesForAppend(CustomerIdIssues(form), AmountIssues(form, coerce), AMOUNT);
    MessagesForAppend(CustomerIdIssues(form) + AmountIssues(form, coerce), StatusIssues(form), AMOUNT);
  }

  /** A missing customer is refused with the schema's own customer message. */
  lemma MissingCustomerRefused(form: FormData, coerce: string -> JsNumber)
    requires CUSTOMER_ID !in form
    ensures CUSTOMER_ID in ParseInvoice(form, coerce).Errors()
    ensures ParseInvoice(form, coerce).Errors()[CUSTOMER_ID] == ["Please select a customer."]
  {
    var issues := InvoiceIssues(form, coerce);
    FlattenIsGrouping(issues, CUSTOMER_ID);
    MessagesForAppend(CustomerIdIssues(form), AmountIssues(form, coerce), CUSTOMER_ID);
    MessagesForAppend(CustomerIdIssues(form) + AmountIssues(form, coerce), StatusIssues(form), CUSTOMER_ID);
  }

  /** A missing amount, or one that coerces to NaN, is refused with zod's number message. */
  lemma NotANumberRefused(form: FormData, coerce: string -> JsNumber)
    requires AMOUNT !in form || coerce(form[AMOUNT]).NaN?
    ensures AMOUNT in ParseInvoice(form, coerce).Errors()
    ensures ParseInvoice(form, coerce).Errors()[AMOUNT] == ["Expected number, received nan"]
  {
    var issues := InvoiceIssues(form, coerce);
    FlattenIsGrouping(issues, AMOUNT);
    assert MessagesFor(CustomerIdIssues(form), AMOUNT) == [];
    MessagesForAppend(CustomerIdIssues(form), AmountIssues(form, coerce), AMOUNT);
    MessagesForAppend(CustomerIdIssues(form) + AmountIssues(form, coerce), StatusIssues(form), AMOUNT);
  }

  /** A status other than "pending" or "paid", or none, is refused with the status message. */
  lemma UnknownStatusRefused(form: FormData, coerce: string -> JsNumber)
    requires STATUS !in form || (form[STATUS] != "pending" && form[STATUS] != "paid")
    ensures STATUS in ParseInvoice(form, coerce).Errors()
    ensures ParseInvoice(form, coerce).Errors()[STATUS] == ["Please select an invoice status."]
  {
    var issues := InvoiceIssues(form, coerce);
    FlattenIsGrouping(issues, STATUS);
    MessagesForAppend(CustomerIdIssues(form), AmountIssues(form, coerce), STATUS);
    MessagesForAppend(CustomerIdIssues(form) + AmountIssues(form, coerce), StatusIssues(form), STATUS);
  }

  /** A password shorter than 6 characters is refused with the length message on `password`. */
  lemma ShortPasswordRefused(form: FormData, isEmail: string -> bool)
    requires PASSWORD in form && |form[PASSWORD]| < 6
    ensures PASSWORD in ParseReset(form).Errors()
    ensures ParseReset(form).Errors()[PASSWORD] == ["Password must contain at least 6 characters"]
    ensures PASSWORD in ParseRegister(form, isEmail).Errors()
    ensures ParseRegister(form, isEmail).Errors()[PASSWORD] == ["Password must contain at least 6 characters"]
  {
    PasswordMatchMessages(form);
    FlattenIsGrouping(PasswordMatchIssues(form), PASSWORD);
    FlattenEmpty(PasswordMatchIssues(form));
    RegisterSharesPasswordRules(form, isEmail, PASSWORD);
  }

  /** Mismatched passwords are refused with the mismatch message, attached to `passwordConfirm`. */
  lemma MismatchOnConfirmField(form: FormData, isEmail: string -> bool)
    requires PASSWORD in form && PASSWORD_CONFIRM in form && form[PASSWORD] != form[PASSWORD_CONFIRM]
    ensures PASSWORD_CONFIRM in ParseReset(form).Errors()
    ensures ParseReset(form).Errors()[PASSWORD_CONFIRM] == ["Passwords do not match."]
    ensures PASSWORD_CONFIRM in ParseRegister(form, isEmail).Errors()
    ensures ParseRegister(form, isEmail).Errors()[PASSWORD_CONFIRM] == ["Passwords do not match."]
  {
    PasswordMatchMessages(form);
    FlattenIsGrouping(PasswordMatchIssues(form), PASSWORD_CONFIRM);
    FlattenEmpty(PasswordMatchIssues(form));
    RegisterSharesPasswordRules(form, isEmail, PASSWORD_CONFIRM);
  }

  /**
   * A missing or malformed email is refused with a field error on `email` by the
   * login, registration and forgot-password schemas: "Required" when it is missing,
   * the email message when it is sent but malformed.
   */
  lemma BadEmailRefused(form: FormData, isEmail: string -> bool)
    requires EMAIL !in form || !isEmail(form[EMAIL])
    ensures EMAIL in ParseLogin(form, isEmail).Errors()
    ensures ParseLogin(form, isEmail).Errors()[EMAIL]
            == if EMAIL in form then ["Please enter a valid email address."] else ["Required"]
    ensures EMAIL in ParseRegister(form, isEmail).Errors()
    ensures ParseRegister(form, isEmail).Errors()[EMAIL]
            == if EMAIL in form then ["Please enter a valid email address."] else ["Required"]
    ensures EMAIL in ParseForgot(form, isEmail).Errors()
    ensures ParseForgot(form, isEmail).Errors()[EMAIL]
            == if EMAIL in form then ["Please enter a valid email address."] else ["Required"]
  {
    var emailIssues := EmailIssues(form, isEmail);
    var passwordIssue := if PASSWORD in form then [] else [Issue(PASSWORD, REQUIRED_MESSAGE)];
    MessagesForAppend(emailIssues, passwordIssue, EMAIL);
    FlattenIsGrouping(LoginIssues(form, isEmail), EMAIL);
    PasswordMatchHasNoEmailIssue(form);
    MessagesForAppend(emailIssues, PasswordMatchIssues(form), EMAIL);
    FlattenIsGrouping(RegisterIssues(form, isEmail), EMAIL);
    FlattenIsGrouping(emailIssues, EMAIL);
  }

  /** The invoice issues, field by field: each rule's messages for `field`, in the schema's order. */
  lemma InvoiceMessages(form: FormData, coerce: string -> JsNumber, field: string)
    ensures MessagesFor(InvoiceIssues(form, coerce), field)
            == MessagesFor(CustomerIdIssues(form), field) + MessagesFor(AmountIssues(form, coerce), field)
               + MessagesFor(StatusIssues(form), field)
  {
    MessagesForAppend(CustomerIdIssues(form), AmountIssues(form, coerce), field);
    MessagesForAppend(CustomerIdIssues(form) + AmountIssues(form, coerce), StatusIssues(form), field);
  }

  /** Which fields the invoice rules attach an issue to. */
  lemma InvoiceIssueFields(form: FormData, coerce: string -> JsNumber, field: string)
    ensures MessagesFor(InvoiceIssues(form, coerce), field) != []
            <==> (field == CUSTOMER_ID && CUSTOMER_ID !in form)
                 || (field == AMOUNT && !(CoercedAmount(form, coerce).Num? && CoercedAmount(form, coerce).value > 0.0))
                 || (field == STATUS && StatusOf(form).None?)
  {
    InvoiceMessages(form, coerce, field);
  }

  /** The invoice error map holds exactly the fields whose rule fails, and no other key. */
  lemma InvoiceErrorsAreTheFailingFields(form: FormData, coerce: string -> JsNumber)
    ensures CUSTOMER_ID in ParseInvoice(form, coerce).Errors() <==> CUSTOMER_ID !in form
    ensures AMOUNT in ParseInvoice(form, coerce).Errors()
            <==> !(CoercedAmount(form, coerce).Num? && CoercedAmount(form, coerce).value > 0.0)
    ensures STATUS in ParseInvoice(form, coerce).Errors() <==> StatusOf(form).None?
    ensures forall f | f in ParseInvoice(form, coerce).Errors() :: f == CUSTOMER_ID || f == AMOUNT || f == STATUS
  {
    var errors := ParseInvoice(form, coerce).Errors();
    var issues := InvoiceIssues(form, coerce);
    FlattenEmpty(issues);
    assert errors == Flatten(issues);
    forall f
      ensures f in errors
              <==> (f == CUSTOMER_ID && CUSTOMER_ID !in form)
                   || (f == AMOUNT && !(CoercedAmount(form, coerce).Num? && CoercedAmount(form, coerce).value > 0.0))
                   || (f == STATUS && StatusOf(form).None?)
    {
      FlattenIsGrouping(issues, f);
      InvoiceIssueFields(form, coerce, f);
    }
  }

  /** The messages the login rules attach to each field. */
  lemma LoginIssueFields(form: FormData, isEmail: string -> bool, field: string)
    ensures MessagesFor(LoginIssues(form, isEmail), field)
            == if field == EMAIL && EMAIL !in form then [REQUIRED_MESSAGE]
               else if field == EMAIL && !isEmail(form[EMAIL]) then [EMAIL_MESSAGE]
               else if field == PASSWORD && PASSWORD !in form then [REQUIRED_MESSAGE]
               else []
  {
    var passwordIssue := if PASSWORD in form then [] else [Issue(PASSWORD, REQUIRED_MESSAGE)];
    MessagesForAppend(EmailIssues(form, isEmail), passwordIssue, field);
  }

  /**
   * The login error map holds exactly the failing fields: `email` when it is missing or
   * malformed, `password` only when it is missing, and then with "Required".
   */
  lemma LoginErrorsAreTheFailingFields(form: FormData, isEmail: string -> bool)
    ensures EMAIL in ParseLogin(form, isEmail).Errors() <==> !(EMAIL in form && isEmail(form[EMAIL]))
    ensures PASSWORD in ParseLogin(form, isEmail).Errors() <==> PASSWORD !in form
    ensures PASSWORD !in form ==> ParseLogin(form, isEmail).Errors()[PASSWORD] == ["Required"]
    ensures forall f | f in ParseLogin(form, isEmail).Errors() :: f == EMAIL || f == PASSWORD
  {
    var errors := ParseLogin(form, isEmail).Errors();
    var issues := LoginIssues(form, isEmail);
    FlattenEmpty(issues);
    assert errors == Flatten(issues);
    forall f
      ensures f in errors <==> MessagesFor(issues, f) != []
      ensures f in errors ==> errors[f] == MessagesFor(issues, f)
      ensures MessagesFor(issues, f) != [] ==> f == EMAIL || f == PASSWORD
    {
      FlattenIsGrouping(issues, f);
      LoginIssueFields(form, isEmail, f);
    }
    LoginIssueFields(form, isEmail, EMAIL);
    LoginIssueFields(form, isEmail, PASSWORD);
  }

  /**
   * The registration error map holds exactly the failing fields: `email` by the email rule,
   * `password` by the length rule, `passwordConfirm` when it is missing or differs.
   */
  lemma RegisterErrorsAreTheFailingFields(form: FormData, isEmail: string -> bool)
    ensures EMAIL in ParseRegister(form, isEmail).Errors() <==> !(EMAIL in form && isEmail(form[EMAIL]))
    ensures PASSWORD in ParseRegister(form, isEmail).Errors()
            <==> PASSWORD !in form || |form[PASSWORD]| < MIN_PASSWORD_LENGTH
    ensures PASSWORD_CONFIRM in ParseRegister(form, isEmail).Errors()
            <==> PASSWORD_CONFIRM !in form || (PASSWORD in form && form[PASSWORD] != form[PASSWORD_CONFIRM])
    ensures forall f | f in ParseRegister(form, isEmail).Errors() :: f == EMAIL || f == PASSWORD || f == PASSWORD_CONFIRM
  {
    var issues := RegisterIssues(form, isEmail);
    forall f
      ensures f in Flatten(issues) <==> MessagesFor(issues, f) != []
      ensures MessagesFor(issues, f) != [] ==> f == EMAIL || f == PASSWORD || f == PASSWORD_CONFIRM
    {
      FlattenIsGrouping(issues, f);
      MessagesForAppend(EmailIssues(form, isEmail), PasswordMatchIssues(form), f);
      if f != PASSWORD && f != PASSWORD_CONFIRM {
        PasswordMatchFields(form, f);
      }
    }
    MessagesForAppend(EmailIssues(form, isEmail), PasswordMatchIssues(form), EMAIL);
    MessagesForAppend(EmailIssues(form, isEmail), PasswordMatchIssues(form), PASSWORD);
    MessagesForAppend(EmailIssues(form, isEmail), PasswordMatchIssues(form), PASSWORD_CONFIRM);
    PasswordMatchHasNoEmailIssue(form);
    PasswordMatchMessages(form);
  }

  /**
   * The reset error map holds exactly the failing fields: `password` by the length rule,
   * `passwordConfirm` when it is missing or differs.
   */
  lemma ResetErrorsAreTheFailingFields(form: FormData)
    ensures PASSWORD in ParseReset(form).Errors() <==> PASSWORD !in form || |form[PASSWORD]| < MIN_PASSWORD_LENGTH
    ensures PASSWORD_CONFIRM in ParseReset(form).Errors()
            <==> PASSWORD_CONFIRM !in form || (PASSWORD in form && form[PASSWORD] != form[PASSWORD_CONFIRM])
    ensures forall f | f in ParseReset(form).Errors() :: f == PASSWORD || f == PASSWORD_CONFIRM
  {
    var issues := PasswordMatchIssues(form);
    forall f
      ensures f in Flatten(issues) <==> MessagesFor(issues, f) != []
      ensures MessagesFor(issues, f) != [] ==> f == PASSWORD || f == PASSWORD_CONFIRM
    {
      FlattenIsGrouping(issues, f);
      if f != PASSWORD && f != PASSWORD_CONFIRM {
        PasswordMatchFields(form, f);
      }
    }
    PasswordMatchMessages(form);
  }

  /** The password-match schema attaches issues to its two fields only. */
  lemma PasswordMatchFields(form: FormData, field: string)
    requires field != PASSWORD && field != PASSWORD_CONFIRM
    ensures MessagesFor(PasswordMatchIssues(form), field) == []
  {
    var confirmIssues := if PASSWORD_CONFIRM in form then [] else [Issue(PASSWORD_CONFIRM, REQUIRED_MESSAGE)];
    var refinement :=
      if PASSWORD in form && PASSWORD_CONFIRM in form && form[PASSWORD] != form[PASSWORD_CONFIRM]
      then [Issue(PASSWORD_CONFIRM, MISMATCH_MESSAGE)]
      else [];
    MessagesForAppend(PasswordIssues(form), confirmIssues, field);
    MessagesForAppend(PasswordIssues(form) + confirmIssues, refinement, field);
  }

  /** The password-match schema attaches nothing to `email`. */
  lemma PasswordMatchHasNoEmailIssue(form: FormData)
    ensures MessagesFor(PasswordMatchIssues(form), EMAIL) == []
  {
    var confirmIssues := if PASSWORD_CONFIRM in form then [] else [Issue(PASSWORD_CONFIRM, REQUIRED_MESSAGE)];
    var refinement :=
      if PASSWORD in form && PASSWORD_CONFIRM in form && form[PASSWORD] != form[PASSWORD_CONFIRM]
      then [Issue(PASSWORD_CONFIRM, MISMATCH_MESSAGE)]
      else [];
    MessagesForAppend(PasswordIssues(form), confirmIssues, EMAIL);
    MessagesForAppend(PasswordIssues(form) + confirmIssues, refinement, EMAIL);
  }

  /** The messages the password-match schema attaches to each of its two fields. */
  lemma PasswordMatchMessages(form: FormData)
    ensures MessagesFor(PasswordMatchIssues(form), PASSWORD)
            == if PASSWORD !in form then [REQUIRED_MESSAGE]
               else if |form[PASSWORD]| < MIN_PASSWORD_LENGTH then [PASSWORD_LENGTH_MESSAGE]
               else []
    ensures MessagesFor(PasswordMatchIssues(form), PASSWORD_CONFIRM)
            == if PASSWORD_CONFIRM !in form then [REQUIRED_MESSAGE]
               else if PASSWORD in form && form[PASSWORD] != form[PASSWORD_CONFIRM] then [MISMATCH_MESSAGE]
               else []
  {
    var confirmIssues := if PASSWORD_CONFIRM in form then [] else [Issue(PASSWORD_CONFIRM, REQUIRED_MESSAGE)];
    var refinement :=
      if PASSWORD in form && PASSWORD_CONFIRM in form && form[PASSWORD] != form[PASSWORD_CONFIRM]
      then [Issue(PASSWORD_CONFIRM, MISMATCH_MESSAGE)]
      else [];
    MessagesForAppend(PasswordIssues(form), confirmIssues, PASSWORD);
    MessagesForAppend(PasswordIssues(form) + confirmIssues, refinement, PASSWORD);
    MessagesForAppend(PasswordIssues(form), confirmIssues, PASSWORD_CONFIRM);
    MessagesForAppend(PasswordIssues(form) + confirmIssues, refinement, PASSWORD_CONFIRM);
  }

  /**
   * Registration and reset share the password rules: for both password fields,
   * registration reports exactly the messages the reset form reports.
   */
  lemma RegisterSharesPasswordRules(form: FormData, isEmail: string -> bool, field: string)
    requires field == PASSWORD || field == PASSWORD_CONFIRM
    ensures field in ParseRegister(form, isEmail).Errors() <==> field in ParseReset(form).Errors()
    ensures field in ParseReset(form).Errors()
            ==> ParseRegister(form, isEmail).Errors()[field] == ParseReset(form).Errors()[field]
  {
    MessagesForAppend(EmailIssues(form, isEmail), PasswordMatchIssues(form), field);
    FlattenIsGrouping(RegisterIssues(form, isEmail), field);
    FlattenIsGrouping(PasswordMatchIssues(form), field);
    FlattenEmpty(RegisterIssues(form, isEmail));
    FlattenEmpty(PasswordMatchIssues(form));
  }

  lemma {:induction false} MessagesForAppend(a: seq<Issue>, b: seq<Issue>, field: string)
    ensures MessagesFor(a + b, field) == MessagesFor(a, field) + MessagesFor(b, field)
  {
    if a == [] {
      assert a + b == b;
    } else {
      assert (a + b)[0] == a[0];
      assert (a + b)[1..] == a[1..] + b;
      MessagesForAppend(a[1..], b, field);
    }
  }
}
