/**
 * The sign-in form, components/auth/login-form.tsx: email and password, an error map
 * whose entries editing blanks rather than deletes, and the login thunk.
 */
module LoginForm {
  import opened Validators
  import opened Ui

  const InvalidEmail := "Invalid email address"
  const ShortPassword := "Password must be at least 8 characters"

  /** The two inputs; the error map is keyed by the input. */
  datatype Field = Email | Password

  predicate Fails(email: string, password: string, f: Field) {
    match f
    case Email => !ValidEmail(email)
    case Password => |password| < 8
  }

  function ErrorMessage(f: Field): string {
    match f
    case Email => InvalidEmail
    case Password => ShortPassword
  }

  /** The submit-time checks: the shared email pattern and a bare length rule for the password. */
  function LoginErrors(email: string, password: string): (errs: map<Field, string>)
    ensures Email in errs <==> !ValidEmail(email)
    ensures Password in errs <==> |password| < 8
    ensures Email in errs ==> errs[Email] == InvalidEmail
    ensures Password in errs ==> errs[Password] == ShortPassword
  {
    map f | f in {Email, Password} && Fails(email, password, f) :: ErrorMessage(f)
  }

  /** Eight characters of any kind are enough; seven never are. */
  lemma PasswordLengthOnly(email: string, password: string)
    requires ValidEmail(email)
    ensures LoginErrors(email, password) == map[] <==> LoginPasswordLongEnough(password)
  {
    if |password| < 8 {
      assert Password in LoginErrors(email, password);
    }
  }

  /** An error line is shown for `k` when the map has a non-empty message there. */
  predicate ShowsError(errors: map<Field, string>, k: Field) {
    k in errors && errors[k] != ""
  }

  /** `if (errors[k]) setErrors(prev => ({ ...prev, [k]: "" }))`. */
  function BlankError(errors: map<Field, string>, k: Field): (r: map<Field, string>)
    ensures !ShowsError(r, k)
    ensures ShowsError(errors, k) ==> k in r && r[k] == ""
    ensures !ShowsError(errors, k) ==> r == errors
    ensures forall j :: j != k ==> (j in r <==> j in errors) && (j in r ==> r[j] == errors[j])
  {
    if ShowsError(errors, k) then errors[k := ""] else errors
  }

  /** What follows a submit that passed the checks. */
  function LoginEffects(email: string, password: string, outcome: Outcome): (effects: seq<Effect>)
    ensures |effects| >= 2 && effects[0] == Dispatched(LoginUser(email, password))
    ensures outcome.Fulfilled? ==> effects[1..] == [ToastSuccess("Login successful!"), Navigate("/chat")]
    ensures outcome.RejectedWith? ==> effects[1..] == [ToastError(ErrorText(outcome.payload, "Login failed"))]
  {
    [Dispatched(LoginUser(email, password))]
    + if outcome.Fulfilled? then [ToastSuccess("Login successful!"), Navigate("/chat")]
      else [ToastError(ErrorText(outcome.payload, "Login failed"))]
  }

  class LoginFormState {
    var email: string
    var password: string
    var errors: map<Field, string>
    var effects: seq<Effect>

    constructor ()
      ensures email == "" && password == "" && errors == map[] && effects == []
    {
      email, password, errors, effects := "", "", map[], [];
    }

    /** The email field: stores the text and blanks a shown email error, leaving the password's. */
    method OnEmailChange(value: string)
      modifies this
      ensures email == value && password == old(password)
      ensures errors == BlankError(old(errors), Email) && effects == old(effects)
    {
      email := value;
      errors := BlankError(errors, Email);
    }

    /** The password field, alike. */
    method OnPasswordChange(value: string)
      modifies this
      ensures password == value && email == old(email)
      ensures errors == BlankError(old(errors), Password) && effects == old(effects)
    {
      password := value;
      errors := BlankError(errors, Password);
    }

    /**
     * `handleSubmit`: failing checks replace the error map and stop; otherwise the login
     * runs (the error map is left as it was) and `outcome` is how it ended.
     */
    method Submit(outcome: Outcome)
      modifies this
      ensures email == old(email) && password == old(password)
      ensures LoginErrors(email, password) != map[] ==> errors == LoginErrors(email, password) && effects == old(effects)
      ensures LoginErrors(email, password) == map[] ==>
        errors == old(errors) && effects == old(effects) + LoginEffects(email, password, outcome)
    {
      var newErrors := LoginErrors(email, password);
      if newErrors != map[] {
        errors := newErrors;
        return;
      }
      effects := effects + LoginEffects(email, password, outcome);
    }
  }
}
