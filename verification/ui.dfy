/** What the screens hand to the store, the toaster and the router, recorded in order. */
module Ui {
  import opened Files

  /** A store action or thunk a screen dispatches, with the arguments it passes. */
  datatype Request =
    | RegisterUser(name: string, username: string, email: string, password: string, phoneNumber: string)
    | SetOtpEmail(email: string)
    | LoginUser(email: string, password: string)
    | VerifyOtp(email: string, otp: string)
    | UpdateProfile(name: string, username: string, phoneNumber: string)
    | UploadAvatar(file: File)
    | DeleteAvatar
    | ClearProfileSuccess
    | ClearProfileError
    | LogoutUser

  datatype Effect =
    | Dispatched(request: Request)
    | ToastSuccess(text: string)
    | ToastError(text: string)
    | Navigate(path: string)

  /** How an awaited `.unwrap()` ended: fulfilled, or rejected with the thunk's payload. */
  datatype Outcome = Fulfilled | RejectedWith(payload: string)

  /** `err || fallback` on a rejection payload. */
  function ErrorText(payload: string, fallback: string): (text: string)
    ensures payload != "" ==> text == payload
    ensures payload == "" ==> text == fallback
  {
    if payload != "" then payload else fallback
  }

  /** The dispatches among recorded effects. */
  function Requests(effects: seq<Effect>): (rs: seq<Request>)
    ensures |rs| <= |effects|
    ensures forall r :: r in rs <==> Dispatched(r) in effects
  {
    if effects == [] then []
    else (if effects[0].Dispatched? then [effects[0].request] else []) + Requests(effects[1..])
  }

  /** Recording more effects only adds requests at the end. */
  lemma {:induction false} RequestsAppend(a: seq<Effect>, b: seq<Effect>)
    ensures Requests(a + b) == Requests(a) + Requests(b)
  {
    if a != [] {
      assert (a + b)[0] == a[0] && (a + b)[1..] == a[1..] + b;
      RequestsAppend(a[1..], b);
    } else {
      assert a + b == b;
    }
  }
}
