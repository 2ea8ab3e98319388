/**
 * The stand-alone sign-up page, app/signup/page.tsx: five text fields, an error map
 * over three checks, and a simulated 1.5 s request after which the email is stored
 * for OTP verification and the OTP page opens.
 */
module SignupPage {
  import opened Text
  import opened Validators
  import opened Ui

  const UsernameRule := "Username must be 3-20 characters (letters, numbers, underscore)"
  const WeakPassword := "Password does not meet security requirements"
  const PasswordMismatch := "Passwords do not match"

  /** The page's inputs; its error map is keyed by the input. */
  datatype Field = Name | Username | Email | Password | ConfirmPassword

  /** Whether the submit-time check of `f` fails; name and email have none. */
  predicate Fails(username: string, password: string, confirmPassword: string, f: Field) {
    match f
    case Username => !ValidUsername(username)
    case Password => !ValidPassword(password)
    case ConfirmPassword => password != confirmPassword
    case _ => false
  }

  function ErrorMessage(f: Field): string {
    match f
    case Username => UsernameRule
    case Password => WeakPassword
    case ConfirmPassword => PasswordMismatch
    case _ => ""
  }

  /** The page's checks: username, password strength and confirmation; name and email are not checked. */
  function PageErrors(username: string, password: string, confirmPassword: string): (errs: map<Field, string>)
    ensures Username in errs <==> !ValidUsername(username)
    ensures Password in errs <==> !ValidPassword(password)
    ensures ConfirmPassword in errs <==> password != confirmPassword
    ensures Name !in errs && Email !in errs
    ensures Username in errs ==> errs[Username] == UsernameRule
    ensures Password in errs ==> errs[Password] == WeakPassword
    ensures ConfirmPassword in errs ==> errs[ConfirmPassword] == PasswordMismatch
  {
    map f | f in {Username, Password, ConfirmPassword} && Fails(username, password, confirmPassword, f) :: ErrorMessage(f)
  }

  /** No errors exactly when the three checks pass. */
  lemma PageErrorsEmptyIff(username: string, password: string, confirmPassword: string)
    ensures PageErrors(username, password, confirmPassword) == map[] <==>
      ValidUsername(username) && ValidPassword(password) && password == confirmPassword
  {
    var errs := PageErrors(username, password, confirmPassword);
    if errs != map[] {
      var k :| k in errs;
    }
  }

  class SignupPageState {
    var name: string
    var username: string
    var email: string
    var password: string
    var confirmPassword: string
    var isSubmitting: bool
    var errors: map<Field, string>
    /** The email the pending submit captured, dispatched when the wait ends. */
    var submittedEmail: string
    var effects: seq<Effect>

    constructor ()
      ensures name == "" && username == "" && email == "" && password == "" && confirmPassword == ""
      ensures !isSubmitting && errors == map[] && effects == []
    {
      name, username, email, password, confirmPassword := "", "", "", "", "";
      isSubmitting, errors, submittedEmail, effects := false, map[], "", [];
    }

    method SetName(value: string)
      modifies this
      ensures name == value
      ensures username == old(username) && email == old(email) && password == old(password)
      ensures confirmPassword == old(confirmPassword) && isSubmitting == old(isSubmitting) && errors == old(errors)
      ensures submittedEmail == old(submittedEmail) && effects == old(effects)
    {
      name := value;
    }

    /** The username field lower-cases what is typed. */
    method SetUsername(value: string)
      modifies this
      ensures username == ToLower(value)
      ensures name == old(name) && email == old(email) && password == old(password)
      ensures confirmPassword == old(confirmPassword) && isSubmitting == old(isSubmitting) && errors == old(errors)
      ensures submittedEmail == old(submittedEmail) && effects == old(effects)
    {
      username := ToLower(value);
    }

    method SetEmail(value: string)
      modifies this
      ensures email == value
      ensures name == old(name) && username == old(username) && password == old(password)
      ensures confirmPassword == old(confirmPassword) && isSubmitting == old(isSubmitting) && errors == old(errors)
      ensures submittedEmail == old(submittedEmail) && effects == old(effects)
    {
      email := value;
    }

    method SetPassword(value: string)
      modifies this
      ensures password == value
      ensures name == old(name) && username == old(username) && email == old(email)
      ensures confirmPassword == old(confirmPassword) && isSubmitting == old(isSubmitting) && errors == old(errors)
      ensures submittedEmail == old(submittedEmail) && effects == old(effects)
    {
      password := value;
    }

    method SetConfirmPassword(value: string)
      modifies this
      ensures confirmPassword == value
      ensures name == old(name) && username == old(username) && email == old(email)
      ensures password == old(password) && isSubmitting == old(isSubmitting) && errors == old(errors)
      ensures submittedEmail == old(submittedEmail) && effects == old(effects)
    {
      confirmPassword := value;
    }

    /**
     * `handleSubmit` up to the simulated wait: any error sets the map and stops; otherwise
     * the map is cleared and the page is submitting. The button is disabled meanwhile.
     */
    method Submit()
      requires !isSubmitting
      modifies this
      ensures name == old(name) && username == old(username) && email == old(email)
      ensures password == old(password) && confirmPassword == old(confirmPassword) && effects == old(effects)
      ensures PageErrors(username, password, confirmPassword) != map[] ==>
        errors == PageErrors(username, password, confirmPassword) && !isSubmitting
      ensures PageErrors(username, password, confirmPassword) == map[] ==>
        errors == map[] && isSubmitting && submittedEmail == email
    {
      var newErrors := PageErrors(username, password, confirmPassword);
      if newErrors != map[] {
        errors := newErrors;
        return;
      }
      errors, isSubmitting, submittedEmail := map[], true, email;
    }

    /** The 1.5 s wait ends: the captured email becomes the OTP email, then the OTP page opens. */
    method DelayElapsed()
      requires isSubmitting
      modifies this
      ensures !isSubmitting
      ensures effects == old(effects) + [Dispatched(SetOtpEmail(old(submittedEmail))), Navigate("/verify-otp")]
      ensures name == old(name) && username == old(username) && email == old(email)
      ensures password == old(password) && confirmPassword == old(confirmPassword) && errors == old(errors)
    {
      effects := effects + [Dispatched(SetOtpEmail(submittedEmail)), Navigate("/verify-otp")];
      isSubmitting := false;
    }
  }
}
