/**
 * The email-confirmation callback (`GET /auth/confirm`): it reads the query
 * parameters `token_hash`, `type` and `next`, asks the identity provider to
 * verify the one-time token, and answers with exactly one redirect.
 *
 * The provider's `verifyOtp` is an oracle: `verify(request)` is true when the
 * provider reports no error. The response records which verification request,
 * if any, was sent, so that "verification is never invoked" can be stated.
 */
module ConfirmRoute {
  import opened Definitions

  const ERROR_TARGET := "/error?error=true"
  const RESET_PREFIX := "/forgot-password/reset-password?token="
  const DEFAULT_NEXT := "/dashboard"
  const RECOVERY := "recovery"

  /** The arguments of one `verifyOtp` call. */
  datatype OtpRequest = OtpRequest(otpType: string, tokenHash: string)

  /** The redirect the handler issues, and the verification it asked for. */
  datatype Response = Response(target: string, verification: Option<OtpRequest>)

  /** JavaScript truthiness of a query parameter: present and not the empty string. */
  predicate Truthy(p: Option<string>) {
    p.Some? && p.value != ""
  }

  /** The page to go to after a non-recovery confirmation: `next` when present, even if empty, else the dashboard. */
  function NextTarget(next: Option<string>): string {
    next.GetOr(DEFAULT_NEXT)
  }

  /** The page that carries a recovery token into the reset-password form. */
  function ResetTarget(tokenHash: string): string {
    RESET_PREFIX + tokenHash
  }

  /** The handler: one nested decision whose thrown redirects become the result. */
  function Confirm(tokenHash: Option<string>, otpType: Option<string>, next: Option<string>,
                   verify: OtpRequest -> bool): (r: Response)
    ensures r.verification.Some? <==> Truthy(tokenHash) && Truthy(otpType)
    ensures r.verification.Some? ==> r.verification.value == OtpRequest(otpType.value, tokenHash.value)
  {
    if Truthy(tokenHash) && Truthy(otpType) then
      var request := OtpRequest(otpType.value, tokenHash.value);
      if verify(request) then
        if otpType.value == RECOVERY then Response(ResetTarget(tokenHash.value), Some(request))
        else Response(NextTarget(next), Some(request))
      else Response(ERROR_TARGET, Some(request))
    else Response(ERROR_TARGET, None)
  }

  /** A missing or empty token or type goes to the error page without verification. */
  lemma MissingParameterIsError(tokenHash: Option<string>, otpType: Option<string>, next: Option<string>,
                                verify: OtpRequest -> bool)
    requires !Truthy(tokenHash) || !Truthy(otpType)
    ensures Confirm(tokenHash, otpType, next, verify) == Response(ERROR_TARGET, None)
  {
  }

  /** A verification the provider rejects goes to the error page. */
  lemma RejectedTokenIsError(tokenHash: Option<string>, otpType: Option<string>, next: Option<string>,
                             verify: OtpRequest -> bool)
    requires Truthy(tokenHash) && Truthy(otpType)
    requires !verify(OtpRequest(otpType.value, tokenHash.value))
    ensures Confirm(tokenHash, otpType, next, verify).target == ERROR_TARGET
  {
  }

  /** An accepted recovery token goes to the reset form, carrying the token hash. */
  lemma RecoveryGoesToReset(tokenHash: string, next: Option<string>, verify: OtpRequest -> bool)
    requires tokenHash != ""
    requires verify(OtpRequest(RECOVERY, tokenHash))
    ensures Confirm(Some(tokenHash), Some(RECOVERY), next, verify).target
            == "/forgot-password/reset-password?token=" + tokenHash
  {
  }

  /** An accepted token of any other type goes to `next`, or to the dashboard when `next` is absent. */
  lemma OtherTypeGoesToNext(tokenHash: string, otpType: string, next: Option<string>, verify: OtpRequest -> bool)
    requires tokenHash != "" && otpType != "" && otpType != RECOVERY
    requires verify(OtpRequest(otpType, tokenHash))
    ensures next.Some? ==> Confirm(Some(tokenHash), Some(otpType), next, verify).target == next.value
    ensures next.None? ==> Confirm(Some(tokenHash), Some(otpType), next, verify).target == "/dashboard"
  {
  }

  /** `??` keeps a present `next` even when it is empty: only absence selects the default. */
  lemma EmptyNextIsKept(tokenHash: string, otpType: string, verify: OtpRequest -> bool)
    requires tokenHash != "" && otpType != "" && otpType != RECOVERY
    requires verify(OtpRequest(otpType, tokenHash))
    ensures Confirm(Some(tokenHash), Some(otpType), Some(""), verify).target == ""
  {
  }

  /**
   * Every input ends in exactly one of the three branches: the error page, the
   * reset page or `next`. The reset page is chosen exactly when a recovery token
   * was accepted, `next` exactly when a token of another type was accepted.
   */
  lemma ExactlyOneTarget(tokenHash: Option<string>, otpType: Option<string>, next: Option<string>,
                         verify: OtpRequest -> bool)
    ensures var r := Confirm(tokenHash, otpType, next, verify);
            var accepted := Truthy(tokenHash) && Truthy(otpType) && verify(OtpRequest(otpType.value, tokenHash.value));
            && (accepted && otpType.value == RECOVERY ==> r.target == ResetTarget(tokenHash.value))
            && (accepted && otpType.value != RECOVERY ==> r.target == NextTarget(next))
            && (!accepted ==> r.target == ERROR_TARGET)
  {
  }
}
