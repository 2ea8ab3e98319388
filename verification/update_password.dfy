/**
 * The password reset page, app/update-password/page.tsx: one error line, the strength
 * check before the match check, and a simulated 1.5 s request before the login page.
 */
module UpdatePassword {
  import opened Validators
  import opened Ui

  const WeakPassword := "Password does not meet security requirements"
  const PasswordMismatch := "Passwords do not match"

  /** The error line after a submit: strength is checked first, so at most one message is set. */
  function SubmitError(password: string, confirmPassword: string): (e: string)
    ensures !ValidPassword(password) ==> e == WeakPassword
    ensures ValidPassword(password) && password != confirmPassword ==> e == PasswordMismatch
    ensures e == "" <==> ValidPassword(password) && password == confirmPassword
  {
    if !ValidPassword(password) then WeakPassword
    else if password != confirmPassword then PasswordMismatch
    else ""
  }

  class UpdatePasswordState {
    var password: string
    var confirmPassword: string
    var isSubmitting: bool
    var error: string
    var effects: seq<Effect>

    constructor ()
      ensures password == "" && confirmPassword == "" && !isSubmitting && error == "" && effects == []
    {
      password, confirmPassword, isSubmitting, error, effects := "", "", false, "", [];
    }

    method SetPassword(value: string)
      modifies this
      ensures password == value && confirmPassword == old(confirmPassword)
      ensures isSubmitting == old(isSubmitting) && error == old(error) && effects == old(effects)
    {
      password := value;
    }

    method SetConfirmPassword(value: string)
      modifies this
      ensures confirmPassword == value && password == old(password)
      ensures isSubmitting == old(isSubmitting) && error == old(error) && effects == old(effects)
    {
      confirmPassword := value;
    }

    /** `handleSubmit` up to the wait: the error is reset, then set by the first failing check. */
    method Submit()
      requires !isSubmitting
      modifies this
      ensures error == SubmitError(password, confirmPassword)
      ensures isSubmitting <==> error == ""
      ensures password == old(password) && confirmPassword == old(confirmPassword) && effects == old(effects)
    {
      error := "";
      if !ValidPassword(password) {
        error := WeakPassword;
        return;
      }
      if password != confirmPassword {
        error := PasswordMismatch;
        return;
      }
      isSubmitting := true;
    }

    /** The 1.5 s wait ends: off to the login page. */
    method DelayElapsed()
      requires isSubmitting
      modifies this
      ensures !isSubmitting && effects == old(effects) + [Navigate("/login")]
      ensures password == old(password) && confirmPassword == old(confirmPassword) && error == old(error)
    {
      isSubmitting := false;
      effects := effects + [Navigate("/login")];
    }
  }

  /** The page only navigates after a submit whose password is strong and confirmed. */
  lemma NavigatesOnlyWhenValid(password: string, confirmPassword: string)
    requires SubmitError(password, confirmPassword) == ""
    ensures ValidPassword(password) && PasswordsMatch(password, confirmPassword)
  {
  }
}
