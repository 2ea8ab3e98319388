/**
 * The OTP form, components/auth/verify-otp-form.tsx: a six-character code checked
 * before the stored email, then the verify thunk.
 */
module VerifyOtpForm {
  import opened Wrappers
  import opened Validators
  import opened Ui

  /** `!otpEmail`: no email, or the empty one. */
  predicate MissingEmail(otpEmail: Option<string>) {
    otpEmail.None? || otpEmail.value == ""
  }

  /** The effects of one submit, given the stored email and, when reached, how verification ended. */
  function SubmitEffects(otp: string, otpEmail: Option<string>, outcome: Outcome): (effects: seq<Effect>)
    ensures !ValidOtpLength(otp) ==> effects == [ToastError("Please enter a valid 6-digit OTP")]
    ensures ValidOtpLength(otp) && MissingEmail(otpEmail) ==>
      effects == [ToastError("Email not found. Please register again."), Navigate("/signup")]
    ensures ValidOtpLength(otp) && !MissingEmail(otpEmail) ==>
      |effects| >= 2 && effects[0] == Dispatched(VerifyOtp(otpEmail.value, otp))
    ensures ValidOtpLength(otp) && !MissingEmail(otpEmail) && outcome.Fulfilled? ==>
      effects[1..] == [ToastSuccess("Email verified successfully!"), Navigate("/chat")]
    ensures ValidOtpLength(otp) && !MissingEmail(otpEmail) && outcome.RejectedWith? ==>
      effects[1..] == [ToastError(ErrorText(outcome.payload, "OTP verification failed"))]
  {
    if !ValidOtpLength(otp) then [ToastError("Please enter a valid 6-digit OTP")]
    else if MissingEmail(otpEmail) then [ToastError("Email not found. Please register again."), Navigate("/signup")]
    else
      [Dispatched(VerifyOtp(otpEmail.value, otp))]
      + if outcome.Fulfilled? then [ToastSuccess("Email verified successfully!"), Navigate("/chat")]
        else [ToastError(ErrorText(outcome.payload, "OTP verification failed"))]
  }

  /** `isLoading || otp.length !== 6`. */
  predicate SubmitDisabled(isLoading: bool, otp: string) {
    isLoading || !ValidOtpLength(otp)
  }

  /**
   * The button rule and the submit guard agree: an enabled button never meets the length
   * toast, and when not loading the button is disabled exactly when submitting would only
   * show that toast.
   */
  lemma EnabledPassesLengthCheck(isLoading: bool, otp: string, otpEmail: Option<string>, outcome: Outcome)
    ensures !SubmitDisabled(isLoading, otp) ==> SubmitEffects(otp, otpEmail, outcome)[0] != ToastError("Please enter a valid 6-digit OTP")
    ensures !isLoading ==>
      (SubmitDisabled(isLoading, otp) <==> SubmitEffects(otp, otpEmail, outcome) == [ToastError("Please enter a valid 6-digit OTP")])
  {
  }

  /** Verification is requested only with a six-character code and a stored email. */
  lemma VerifyNeedsCodeAndEmail(otp: string, otpEmail: Option<string>, outcome: Outcome, r: Request)
    requires r in Requests(SubmitEffects(otp, otpEmail, outcome))
    ensures ValidOtpLength(otp) && !MissingEmail(otpEmail) && r == VerifyOtp(otpEmail.value, otp)
  {
    var effects := SubmitEffects(otp, otpEmail, outcome);
    assert Dispatched(r) in effects;
  }

  class VerifyOtpFormState {
    var otp: string
    var effects: seq<Effect>

    constructor ()
      ensures otp == "" && effects == []
    {
      otp, effects := "", [];
    }

    method SetOtp(value: string)
      modifies this
      ensures otp == value && effects == old(effects)
    {
      otp := value;
    }

    /** `handleSubmit`, with the store's `otpEmail` and the thunk's outcome as inputs. */
    method Submit(otpEmail: Option<string>, outcome: Outcome)
      modifies this
      ensures otp == old(otp)
      ensures effects == old(effects) + SubmitEffects(otp, otpEmail, outcome)
    {
      if |otp| != 6 {
        effects := effects + [ToastError("Please enter a valid 6-digit OTP")];
        return;
      }
      if otpEmail.None? || otpEmail.value == "" {
        effects := effects + [ToastError("Email not found. Please register again."), Navigate("/signup")];
        return;
      }
      effects := effects + [Dispatched(VerifyOtp(otpEmail.value, otp))];
      if outcome.Fulfilled? {
        effects := effects + [ToastSuccess("Email verified successfully!"), Navigate("/chat")];
      } else {
        effects := effects + [ToastError(ErrorText(outcome.payload, "OTP verification failed"))];
      }
    }
  }
}
