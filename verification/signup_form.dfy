/**
 * The registration form of components/auth/signup-form.tsx: six text fields, a map of
 * field errors, the submit-time checks, and the register / OTP-email / navigate
 * sequence that follows a clean submit.
 */
module SignupForm {
  import opened Text
  import opened Validators
  import opened Ui

  /** The six inputs; the error map is keyed by the input's `name` attribute, i.e. by the field. */
  datatype Field = Name | Username | Email | PhoneNumber | Password | ConfirmPassword

  datatype SignupData = SignupData(name: string, username: string, email: string, phoneNumber: string,
                                   password: string, confirmPassword: string)

  function Get(d: SignupData, f: Field): string {
    match f
    case Name => d.name
    case Username => d.username
    case Email => d.email
    case PhoneNumber => d.phoneNumber
    case Password => d.password
    case ConfirmPassword => d.confirmPassword
  }

  /** `{ ...prev, [name]: value }`. */
  function Put(d: SignupData, f: Field, value: string): (r: SignupData)
    ensures Get(r, f) == value
    ensures forall g :: g != f ==> Get(r, g) == Get(d, g)
  {
    match f
    case Name => d.(name := value)
    case Username => d.(username := value)
    case Email => d.(email := value)
    case PhoneNumber => d.(phoneNumber := value)
    case Password => d.(password := value)
    case ConfirmPassword => d.(confirmPassword := value)
  }

  const NameRequired := "Name is required"
  const UsernameRule := "Username must be 3-20 characters (letters, numbers, underscore)"
  const InvalidEmail := "Invalid email address"
  const WeakPassword := "Password does not meet security requirements"
  const PasswordMismatch := "Passwords do not match"

  /** Whether the submit-time check of field `f` fails; the phone number has none. */
  predicate Fails(d: SignupData, f: Field) {
    match f
    case Name => Trim(d.name) == ""
    case Username => !ValidUsername(d.username)
    case Email => !ValidEmail(d.email)
    case PhoneNumber => false
    case Password => !ValidPassword(d.password)
    case ConfirmPassword => d.password != d.confirmPassword
  }

  /** The message `handleSubmit` stores for a failing field. */
  function ErrorMessage(f: Field): string {
    match f
    case Name => NameRequired
    case Username => UsernameRule
    case Email => InvalidEmail
    case PhoneNumber => ""
    case Password => WeakPassword
    case ConfirmPassword => PasswordMismatch
  }

  /** The checks `handleSubmit` makes, each adding its field to `newErrors`. */
  function SubmitErrors(d: SignupData): (errs: map<Field, string>)
    ensures Name in errs <==> Trim(d.name) == ""
    ensures Username in errs <==> !ValidUsername(d.username)
    ensures Email in errs <==> !ValidEmail(d.email)
    ensures Password in errs <==> !ValidPassword(d.password)
    ensures ConfirmPassword in errs <==> d.password != d.confirmPassword
    ensures PhoneNumber !in errs
    ensures Name in errs ==> errs[Name] == NameRequired
    ensures Username in errs ==> errs[Username] == UsernameRule
    ensures Email in errs ==> errs[Email] == InvalidEmail
    ensures Password in errs ==> errs[Password] == WeakPassword
    ensures ConfirmPassword in errs ==> errs[ConfirmPassword] == PasswordMismatch
  {
    map f | f in {Name, Username, Email, PhoneNumber, Password, ConfirmPassword} && Fails(d, f) :: ErrorMessage(f)
  }

  /** The form is submitted exactly when every check passes; the phone number plays no part. */
  lemma SubmitErrorsEmptyIff(d: SignupData)
    ensures SubmitErrors(d) == map[] <==>
      Trim(d.name) != "" && ValidUsername(d.username) && ValidEmail(d.email) && ValidPassword(d.password)
      && d.password == d.confirmPassword
  {
    var errs := SubmitErrors(d);
    if errs != map[] {
      var k :| k in errs;
    }
  }

  /** The phone number is never validated. */
  lemma PhoneNotValidated(d: SignupData, phoneNumber: string)
    ensures SubmitErrors(d.(phoneNumber := phoneNumber)) == SubmitErrors(d)
  {
    var d' := d.(phoneNumber := phoneNumber);
    forall f ensures Fails(d', f) == Fails(d, f) {
    }
    assert SubmitErrors(d').Keys == SubmitErrors(d).Keys;
  }

  /** What follows a clean submit: the register thunk, then on success the OTP email, a toast and the OTP page. */
  function SubmitEffects(d: SignupData, outcome: Outcome): (effects: seq<Effect>)
    ensures |effects| >= 2
    ensures effects[0] == Dispatched(RegisterUser(d.name, d.username, d.email, d.password, d.phoneNumber))
    ensures outcome.Fulfilled? ==>
      effects[1..] == [Dispatched(SetOtpEmail(d.email)), ToastSuccess("Registration successful! Check your email for OTP."),
                       Navigate("/verify-otp")]
    ensures outcome.RejectedWith? ==> effects[1..] == [ToastError(ErrorText(outcome.payload, "Registration failed"))]
  {
    [Dispatched(RegisterUser(d.name, d.username, d.email, d.password, d.phoneNumber))]
    + if outcome.Fulfilled? then
        [Dispatched(SetOtpEmail(d.email)), ToastSuccess("Registration successful! Check your email for OTP."), Navigate("/verify-otp")]
      else [ToastError(ErrorText(outcome.payload, "Registration failed"))]
  }

  /** The form's state and what it has handed to the store, toaster and router. */
  class SignupFormState {
    var data: SignupData
    var errors: map<Field, string>
    var effects: seq<Effect>

    constructor ()
      ensures data == SignupData("", "", "", "", "", "") && errors == map[] && effects == []
    {
      data, errors, effects := SignupData("", "", "", "", "", ""), map[], [];
    }

    /**
     * `handleChange`: stores the value (lower-cased for the username only) and, when the
     * field has a non-empty error, deletes that one key.
     */
    method HandleChange(f: Field, value: string)
      modifies this
      ensures data == Put(old(data), f, if f == Username then ToLower(value) else value)
      ensures f in old(errors) && old(errors)[f] != "" ==> errors == old(errors) - {f}
      ensures !(f in old(errors) && old(errors)[f] != "") ==> errors == old(errors)
      ensures forall k :: k != f ==> (k in errors <==> k in old(errors))
      ensures forall k :: k != f && k in errors ==> errors[k] == old(errors)[k]
      ensures effects == old(effects)
    {
      data := Put(data, f, if f == Username then ToLower(value) else value);
      if f in errors && errors[f] != "" {
        errors := errors - {f};
      }
    }

    /**
     * `handleSubmit`: with any failing check the new error map replaces the old one and
     * nothing is dispatched; otherwise the registration runs and `outcome` is how it ended.
     */
    method Submit(outcome: Outcome)
      modifies this
      ensures data == old(data)
      ensures SubmitErrors(old(data)) != map[] ==> errors == SubmitErrors(old(data)) && effects == old(effects)
      ensures SubmitErrors(old(data)) == map[] ==>
        errors == old(errors) && effects == old(effects) + SubmitEffects(old(data), outcome)
    {
      var newErrors := SubmitErrors(data);
      if newErrors != map[] {
        errors := newErrors;
        return;
      }
      effects := effects + SubmitEffects(data, outcome);
    }
  }

  /** The registration request carries the form's fields as they stood at submit. */
  lemma RegisterCarriesFormData(d: SignupData, outcome: Outcome, r: Request)
    requires r.RegisterUser? && r in Requests(SubmitEffects(d, outcome))
    ensures r == RegisterUser(d.name, d.username, d.email, d.password, d.phoneNumber)
  {
    var effects := SubmitEffects(d, outcome);
    assert Dispatched(r) in effects;
  }
}
