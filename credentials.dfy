/**
 * The credentials provider's `authorize`: parse the submitted credentials,
 * look the user up by email, compare the password with the stored hash.
 *
 * The user lookup (`getUser`), the hash comparison (`bcrypt.compare`) and the
 * email syntax check are oracles. The attempt records the calls it made.
 */
module Credentials {
  import opened Definitions

  const MIN_PASSWORD_LENGTH := 6
  const LOOKUP_FAILED := "Failed to fetch user"

  /** A row of the `users` table; `password` is the stored hash. */
  datatype User = User(id: string, name: string, email: string, password: string)

  /** The submitted credentials; a field that is missing or not a string is `None`. */
  datatype Submitted = Submitted(email: Option<string>, password: Option<string>)

  /** What `getUser` yields: the row, no row (also when the store reports an error in its result), or an exception it rethrows. */
  datatype Lookup = Found(user: User) | NotFound | LookupFailed

  datatype Call = GetUser(email: string) | Compare(candidate: string, hash: string)

  /** `authorize`'s result: the user, `null`, or the error it throws. */
  datatype Decision = Authorized(user: User) | Refused | Thrown(message: string)

  datatype Attempt = Attempt(decision: Decision, calls: seq<Call>)

  /** The credentials schema: an email that passes the email check and a password of at least 6 characters. */
  predicate WellFormed(c: Submitted, isEmail: string -> bool) {
    c.email.Some? && isEmail(c.email.value) && c.password.Some? && |c.password.value| >= MIN_PASSWORD_LENGTH
  }

  function Authorize(c: Submitted, isEmail: string -> bool, getUser: string -> Lookup,
                     compare: (string, string) -> bool): (a: Attempt)
    ensures a.calls == [] <==> !WellFormed(c, isEmail)
    ensures a.decision.Authorized? ==> WellFormed(c, isEmail) && getUser(c.email.value) == Found(a.decision.user)
                                       && compare(c.password.value, a.decision.user.password)
  {
    if WellFormed(c, isEmail) then
      var email, password := c.email.value, c.password.value;
      match getUser(email)
      case LookupFailed => Attempt(Thrown(LOOKUP_FAILED), [GetUser(email)])
      case NotFound => Attempt(Refused, [GetUser(email)])
      case Found(user) =>
        var calls := [GetUser(email), Compare(password, user.password)];
        if compare(password, user.password) then Attempt(Authorized(user), calls)
        else Attempt(Refused, calls)
    else Attempt(Refused, [])
  }

  /** Malformed credentials are refused before any lookup. */
  lemma MalformedRefusedWithoutLookup(c: Submitted, isEmail: string -> bool, getUser: string -> Lookup,
                                      compare: (string, string) -> bool)
    requires !WellFormed(c, isEmail)
    ensures Authorize(c, isEmail, getUser, compare) == Attempt(Refused, [])
  {
  }

  /** An unknown email is refused after the single lookup, and no password is compared. */
  lemma UnknownUserRefused(c: Submitted, isEmail: string -> bool, getUser: string -> Lookup,
                           compare: (string, string) -> bool)
    requires WellFormed(c, isEmail) && getUser(c.email.value) == NotFound
    ensures Authorize(c, isEmail, getUser, compare) == Attempt(Refused, [GetUser(c.email.value)])
  {
  }

  /**
   * A user is returned exactly when the comparison succeeds, and it is the looked-up user;
   * the lookup and then one comparison against the stored hash are made either way.
   */
  lemma AuthorizedIffPasswordMatches(c: Submitted, isEmail: string -> bool, getUser: string -> Lookup,
                                     compare: (string, string) -> bool, user: User)
    requires WellFormed(c, isEmail) && getUser(c.email.value) == Found(user)
    ensures Authorize(c, isEmail, getUser, compare).decision.Authorized?
            <==> compare(c.password.value, user.password)
    ensures Authorize(c, isEmail, getUser, compare).decision.Authorized?
            ==> Authorize(c, isEmail, getUser, compare).decision.user == user
    ensures Authorize(c, isEmail, getUser, compare).calls
            == [GetUser(c.email.value), Compare(c.password.value, user.password)]
  {
  }

  /** A lookup that throws is not turned into a refusal: `authorize` throws "Failed to fetch user" after that one call. */
  lemma LookupFailureThrows(c: Submitted, isEmail: string -> bool, getUser: string -> Lookup,
                            compare: (string, string) -> bool)
    requires WellFormed(c, isEmail) && getUser(c.email.value) == LookupFailed
    ensures Authorize(c, isEmail, getUser, compare) == Attempt(Thrown("Failed to fetch user"), [GetUser(c.email.value)])
  {
  }

  /**
   * A wrong password and an unknown email are indistinguishable to the caller:
   * both attempts are refused with the same result.
   */
  lemma WrongPasswordLooksLikeUnknownEmail(c: Submitted, isEmail: string -> bool,
                                           unknown: string -> Lookup, known: string -> Lookup,
                                           compare: (string, string) -> bool)
    requires WellFormed(c, isEmail)
    requires unknown(c.email.value) == NotFound
    requires known(c.email.value).Found? && !compare(c.password.value, known(c.email.value).user.password)
    ensures Authorize(c, isEmail, unknown, compare).decision == Authorize(c, isEmail, known, compare).decision
    ensures Authorize(c, isEmail, unknown, compare).decision == Refused
  {
  }
}
