# Invoice dashboard: server-side decisions

This project models the server-side logic of an invoice and customer dashboard.
The dashboard stores its data in a hosted backend and authenticates users through
that backend's identity provider. The model covers the decisions the
application makes itself:

- **Email-confirmation callback** (`ConfirmRoute`). The handler reads `token_hash`,
  `type` and `next` and asks the provider to verify the token. It then redirects to
  the error page, to the reset-password form, or to `next`.
- **Form schemas** (`Schemas`). These are the validation rules of the invoice, login,
  registration, forgot-password and reset-password forms. Each rule gives the issues
  it raises, and those issues are grouped into a field-to-messages map, as
  `error.flatten().fieldErrors` groups them.
- **Server actions** (`Actions`). Each action validates its form and forwards only a
  valid submission to the backend. It turns the backend's answer into a returned
  state, a redirect or a thrown error. Every action records the backend calls it
  makes, so "a failed validation never reaches the store" is a statement about
  that record.
- **Dashboard data** (`Dashboard`). This part holds the page size of 6, the page
  offset and page count, and the in-place sort of revenue rows by calendar month.
  It also holds the paid and pending totals, with the all-or-nothing error rule of
  the card-data fetch.
- **Credential authorization** (`Credentials`). `authorize` runs parse, user lookup
  and password comparison in order, and stops at the first failure.

Remote calls and library behaviour are parameters of the model:

- The token verifier, the user lookup, `bcrypt.compare`, the email-syntax check,
  `Number(...)` coercion, and the `search_invoices` and `count_invoices` procedures
  enter as function parameters (oracles).
- Every other store or provider answer enters as a value: an optional error message,
  or the data returned.
- A Next.js `redirect` becomes a returned value, and a thrown error becomes a
  `Thrown` or `DatabaseError` result.
- The date an invoice is created on enters as a parameter.

Four behaviours of the code worth stating:

- The login form's schema has no length rule for the password. A short password
  is sent to the provider. Only the credentials provider's `authorize` demands 6
  characters, and a short password there gives `null`, not a field error.
- The `type` parameter of the confirmation callback is not checked against a closed
  set. Any non-empty string is passed to the verifier. Only `"recovery"` is
  treated specially.
- Single use of a token is enforced by the provider, not by this code.
- A store error that `getUser` receives in its result, rather than as a thrown
  exception, is ignored and reads as an unknown user.

## Model

| member | source | states |
|---|---|---|
| `ConfirmRoute.Confirm` | app/auth/confirm/route.ts:7-29 | verification is requested exactly when `token_hash` and `type` are both present and non-empty, and with exactly those two values |
| `ConfirmRoute.MissingParameterIsError` | app/auth/confirm/route.ts:13-28 | a missing or empty `token_hash` or `type` redirects to `/error?error=true` and no verification is requested |
| `ConfirmRoute.RejectedTokenIsError` | app/auth/confirm/route.ts:20-28 | a verification the provider rejects redirects to `/error?error=true` |
| `ConfirmRoute.RecoveryGoesToReset` | app/auth/confirm/route.ts:21-22 | an accepted `recovery` token redirects to `/forgot-password/reset-password?token=` followed by the token hash |
| `ConfirmRoute.OtherTypeGoesToNext` | app/auth/confirm/route.ts:23-24 | an accepted token of any other type redirects to `next`, or to `/dashboard` when `next` is absent |
| `ConfirmRoute.EmptyNextIsKept` | app/auth/confirm/route.ts:11 | a present but empty `next` is kept as the target, because only absence selects the default |
| `ConfirmRoute.ExactlyOneTarget` | app/auth/confirm/route.ts:13-28 | every input gives exactly one of the three targets: the reset page when a recovery token is accepted, `next` when another type is accepted, and the error page otherwise |
| `Schemas.FlattenIsGrouping` | app/lib/actions.ts:40 | a field appears in the flattened error map exactly when some issue names it, and its list holds that field's messages in issue order |
| `Schemas.FlattenEmpty` | app/lib/actions.ts:38-43 | the error map is empty exactly when there is no issue, so a failed parse always reports at least one field |
| `Schemas.ParseInvoice` | app/lib/actions.ts:8-31 | an invoice parses exactly when `customerId` is sent, the coerced `amount` is a number greater than 0 and `status` is `pending` or `paid`; the payload carries those values; otherwise the result is the non-empty map of the raised issues |
| `Schemas.NonPositiveAmountRefused` | app/lib/actions.ts:13-15 | an amount that is 0 or negative is refused with exactly "Please enter an amount greater than $0." on `amount` |
| `Schemas.MissingCustomerRefused` | app/lib/actions.ts:10-12 | a missing `customerId` is refused with exactly "Please select a customer." on `customerId` |
| `Schemas.NotANumberRefused` | app/lib/actions.ts:13-15 | a missing amount, or one that coerces to NaN, is refused with exactly zod's "Expected number, received nan" on `amount` |
| `Schemas.UnknownStatusRefused` | app/lib/actions.ts:16-18 | a missing status, or one other than `pending` and `paid`, is refused with exactly "Please select an invoice status." on `status` |
| `Schemas.ParseLogin` | app/lib/actions.ts:118-121 | a login parses exactly when the email is sent and well formed and a password is sent, of any length |
| `Schemas.ParseRegister` | app/lib/actions.ts:184-188 | a registration parses exactly when the email is well formed, the password has at least 6 characters and the confirmation equals it |
| `Schemas.ParseForgot` | app/lib/actions.ts:233-235 | a forgot-password form parses exactly when the email is sent and well formed |
| `Schemas.InvoiceErrorsAreTheFailingFields` | app/lib/actions.ts:8-31 | the invoice error map has `customerId` exactly when it is missing, `amount` exactly when it does not coerce to a number above 0, `status` exactly when it is not `pending` or `paid`, and no other key |
| `Schemas.LoginErrorsAreTheFailingFields` | app/lib/actions.ts:118-121 | the login error map has `email` exactly when it is missing or malformed, `password` exactly when it is missing and then with "Required", and no other key |
| `Schemas.RegisterErrorsAreTheFailingFields` | app/lib/actions.ts:165-188 | the registration error map has `email` exactly when it is missing or malformed, `password` exactly when it is missing or under 6 characters, `passwordConfirm` exactly when it is missing or differs from a sent password, and no other key |
| `Schemas.ResetErrorsAreTheFailingFields` | app/lib/actions.ts:165-182 | the reset error map has `password` exactly when it is missing or under 6 characters, `passwordConfirm` exactly when it is missing or differs from a sent password, and no other key |
| `Schemas.BadEmailRefused` | app/lib/actions.ts:118-119 | a missing email gets exactly "Required" on `email`, and a malformed one exactly "Please enter a valid email address.", at login, at registration (184-188) and in the forgot-password form (233-235) |
| `Schemas.ParseReset` | app/lib/actions.ts:169-182 | a reset form parses exactly when the password has at least 6 characters and the confirmation equals it |
| `Schemas.PasswordMatchMessages` | app/lib/actions.ts:169-182 | `password` gets "Required" or the length message; `passwordConfirm` gets "Required", or "Passwords do not match." when both fields are sent and differ |
| `Schemas.ShortPasswordRefused` | app/lib/actions.ts:165-167 | a password under 6 characters gives exactly "Password must contain at least 6 characters" on `password`, at registration and at reset |
| `Schemas.MismatchOnConfirmField` | app/lib/actions.ts:174-182 | differing passwords give exactly "Passwords do not match." on `passwordConfirm`, at registration and at reset |
| `Schemas.RegisterSharesPasswordRules` | app/lib/actions.ts:184-188 | registration reports the same `password` and `passwordConfirm` errors as the reset form |
| `Actions.CreateInvoice` | app/lib/actions.ts:33-65 | no backend call is made exactly when validation fails, and every invoice written has a positive amount |
| `Actions.UpdateInvoice` | app/lib/actions.ts:69-103 | no backend call is made exactly when validation fails, and every invoice written has a positive amount |
| `Actions.Login` | app/lib/actions.ts:131-163 | no sign-in is attempted exactly when validation fails; a redirect happens only to `/dashboard`, with no provider error and with a user |
| `Actions.Register` | app/lib/actions.ts:199-231 | no sign-up is attempted exactly when validation fails; a redirect happens only to `/register/confirmation`, and never for a user with an empty identity list |
| `Actions.ForgotPassword` | app/lib/actions.ts:244-270 | no reset email is requested exactly when validation fails; the action redirects exactly when the form is valid and the provider reports no error |
| `Actions.ResetPassword` | app/lib/actions.ts:280-306 | no password update is sent exactly when validation fails; the action redirects exactly when the form is valid and the provider reports no error |
| `Actions.FailedValidationNeverReachesStore` | app/lib/actions.ts:38-43 | a failed validation records no backend call, whatever the backend would have answered; create and update return the issue map with their "Missing Fields" summary, and login (136-140), register (204-208), forgot-password (252-256) and reset (288-292) return the issue map alone |
| `Actions.CreateAndUpdateShareRules` | app/lib/actions.ts:67 | create and update refuse the same submissions and report the same field errors |
| `Actions.ValidInvoiceIsWrittenOnce` | app/lib/actions.ts:45-64 | a valid invoice is written once, with its customer, amount times 100 and status; a store error throws the action's generic message, otherwise the action redirects to `/dashboard/invoices` |
| `Actions.LoginOutcomes` | app/lib/actions.ts:149-162 | after a valid login: the provider's error message if there is one, "Login failed. Please try again." without a user, otherwise a redirect to `/dashboard` |
| `Actions.RegisterOutcomes` | app/lib/actions.ts:217-230 | after a valid registration: the provider's error message if there is one, "Email already in use" for an empty identity list, otherwise a redirect to `/register/confirmation` |
| `Actions.ForgotPasswordOutcomes` | app/lib/actions.ts:258-269 | after a valid form: one reset email is requested for the submitted address; the provider's error message is returned if there is one, otherwise the action redirects to `/forgot-password/confirmation` |
| `Actions.ResetPasswordOutcomes` | app/lib/actions.ts:294-305 | after a valid form: one update is sent with the submitted password; the provider's error message is returned if there is one, otherwise the action redirects to `/dashboard` |
| `Dashboard.IndexOf` | app/lib/data.ts:36 | `indexOf` gives -1 exactly for an absent value, and otherwise the first position holding it |
| `Dashboard.SortBy` | app/lib/data.ts:35-37 | the array ends sorted by non-decreasing key and holds the same rows as before |
| `Dashboard.FetchRevenueData` | app/lib/data.ts:11-44 | a store error throws "Failed to fetch revenue data."; otherwise the rows are returned as a permutation of the fetched rows, in non-decreasing calendar-month order |
| `Dashboard.UnknownMonthsFirst` | app/lib/data.ts:21-37 | after the sort, a row whose month's position in Jan…Dec is -1 (not found) comes before every row with a found position |
| `Dashboard.UnknownMonthNamesFirst` | app/lib/data.ts:21-37 | the same order stated by month name: a row whose month is not one of Jan…Dec comes before every row whose month is |
| `Dashboard.CalendarOrder` | app/lib/data.ts:21-37 | after the sort, a row of an earlier month never follows a row of a later month |
| `Dashboard.PageCount` | app/lib/data.ts:135 | the page count is the least number of 6-row pages that holds all rows |
| `Dashboard.NoRowsNoPages` | app/lib/data.ts:135 | zero rows give zero pages |
| `Dashboard.RowOnOnePage` | app/lib/data.ts:107-135 | each row below the count lies in the 6-row window of exactly one page, and that page is between 1 and the page count |
| `Dashboard.FetchFilteredInvoices` | app/lib/data.ts:108-128 | the search asks for 6 rows at offset `(currentPage - 1) * 6`; its error throws "Failed to fetch invoices.", otherwise its rows are returned |
| `Dashboard.FetchInvoicesPages` | app/lib/data.ts:130-140 | a count error throws "Failed to fetch invoices pages."; otherwise the result is the least number of 6-row pages that holds the counted rows |
| `Dashboard.FetchCardData` | app/lib/data.ts:70-105 | a record is returned exactly when none of the four queries reports an error; otherwise the call fails as a whole with "Failed to fetch card data." |
| `Dashboard.TotalAppend` | app/lib/data.ts:86-93 | the `reduce` total of two lists joined is the sum of their totals |
| `Dashboard.TotalIsSumWithStatus` | app/lib/data.ts:76-93 | the total of the rows a status query returns is the sum of the amounts of the invoices with that status |
| `Dashboard.PaidPlusPendingIsAll` | app/lib/data.ts:76-77 | the paid sum and the pending sum add up to the sum of all invoices |
| `Dashboard.CardDataOfTable` | app/lib/data.ts:86-100 | on a table, the cards show its paid and pending sums (0 for an empty table), and a count that is missing is shown as 0 |
| `Credentials.Authorize` | auth.ts:27-44 | no call is made exactly when the credentials are malformed; a user is returned only when it is the looked-up user and its stored hash matches the password |
| `Credentials.MalformedRefusedWithoutLookup` | auth.ts:28-43 | a malformed email or a password under 6 characters gives `null` without a lookup |
| `Credentials.UnknownUserRefused` | auth.ts:35-36 | an unknown email gives `null` after the one lookup, and no password is compared |
| `Credentials.AuthorizedIffPasswordMatches` | auth.ts:35-39 | for a found user, a user is returned exactly when the comparison succeeds, and it is that user; the calls are the lookup and then one comparison of the password with the stored hash |
| `Credentials.LookupFailureThrows` | auth.ts:9-20 | a lookup that throws makes `authorize` throw "Failed to fetch user" after that one lookup, with no comparison (called at 35) |
| `Credentials.WrongPasswordLooksLikeUnknownEmail` | auth.ts:36-43 | a wrong password and an unknown email give the same result, `null` |

## Left out

- User interface pages and forms are not modelled. They only render the returned states.
- The seed endpoint is not modelled. It only issues fixture upserts concurrently.
- The fetches that only pass data through or format it for display are not modelled:
  `fetchLatestInvoices`, `fetchCustomers`, `fetchInvoiceById` and `fetchFilteredCustomers`.
- Remote services are not modelled. The Supabase client, its queries and procedures, the
  identity provider and NextAuth's session handling enter only as answers or oracles.
- The concurrency of `Promise.all` in the card-data fetch is not modelled. The model checks
  the four answers one after another, as the code does after the join.
- Logging (`console.error`, `console.log`) and cache invalidation (`expirePath`) are not modelled.
- `formatCurrency` is not part of this model. The card totals are the integer sums before formatting.
- Floating point is not modelled. `amount * 100` is exact real arithmetic and the sums are
  unbounded integers, so rounding and precision above 2^53 are not captured.
- The zod messages are those of zod 3 from version 3.23 on: "Required" for a missing field,
  "Expected number, received nan" after a coercion to NaN, and a schema's own `message`
  also covering a missing field. Other zod versions are not modelled.
- `Number(...)` coercion is an oracle giving a finite number or NaN.
  Infinity, which zod's number check would accept, is not modelled.
- Zod's email pattern is an oracle. String length counts Dafny characters, not
  JavaScript's UTF-16 code units.
- A `File` value in the submitted form is treated like a missing field. For `customerId`
  and `status` zod gives the same message, since the schema's message also covers a type
  error, and for `amount` `Number` of a file is NaN, as for a missing amount. For `email`,
  `password` and `passwordConfirm` zod would report a type error with another message.
- Zod's ordering of issues across fields is not captured. Each field in this code gets at
  most one message, so the field-to-messages map does not depend on that order.
- `deleteInvoice` and `logout` are not modelled: each sends one call and returns a fixed
  message or redirect, so there is no decision of the application's own to state.
- `Dashboard.SortBy`: the contract states sortedness and permutation, but not stability.
- If `getUser` throws, the model returns `Thrown("Failed to fetch user")` as the result of
  `authorize`. What the session framework then does with it is not modelled.
- The creation date (`new Date().toISOString()`) is a parameter of `CreateInvoice`.
