/**
 * The auth slice of lib/store/slices/auth-slice.ts: its state, its plain reducers and
 * the pending / fulfilled / rejected cases of its five thunks. `Reduce` is the
 * transition function; `AuthStore` is the store object whose `Dispatch` assigns the
 * fields in place and is proved to follow `Reduce`.
 */
module AuthSlice {
  import opened Wrappers
  import opened Accounts

  datatype AuthState = AuthState(user: Option<User>, isAuthenticated: bool, isLoading: bool,
                                 error: Option<string>, otpEmail: Option<string>, isInitialized: bool)

  /** The signed-out state the store starts in. */
  const Initial := AuthState(None, false, false, None, None, false)

  datatype Thunk = Register | VerifyOtp | Login | GetCurrentUser | Logout

  /** The actions the slice handles; the rejected payload is the thunk's rejection message. */
  datatype AuthAction =
    | SetOtpEmail(email: Option<string>)
    | ClearError
    | SetIsInitialized(value: bool)
    | Pending(thunk: Thunk)
    | RegisterFulfilled(requestEmail: string)
    | VerifyOtpFulfilled(verified: User)
    | LoginFulfilled(loggedIn: User)
    | GetCurrentUserFulfilled(current: User)
    | LogoutFulfilled
    | Rejected(failed: Thunk, payload: string)

  predicate Settles(a: AuthAction) {
    a.RegisterFulfilled? || a.VerifyOtpFulfilled? || a.LoginFulfilled? || a.GetCurrentUserFulfilled?
    || a.LogoutFulfilled? || a.Rejected?
  }

  /** The thunks whose pending and rejected cases clear and record `error`. */
  predicate IsCredentialThunk(t: Thunk) {
    t == Register || t == VerifyOtp || t == Login
  }

  /** The user an authenticating action carries, if it is one. */
  function SignedInUser(a: AuthAction): Option<User> {
    match a
    case VerifyOtpFulfilled(u) => Some(u)
    case LoginFulfilled(u) => Some(u)
    case GetCurrentUserFulfilled(u) => Some(u)
    case _ => None
  }

  /** The actions that sign the user out. */
  predicate SignsOut(a: AuthAction) {
    a.LogoutFulfilled? || (a.Rejected? && (a.failed == Logout || a.failed == GetCurrentUser))
  }

  /** The slice reducer: one case per reducer and per `addCase`. */
  function Reduce(s: AuthState, a: AuthAction): (r: AuthState)
    ensures a.Pending? ==> r.isLoading
    ensures a.Pending? && IsCredentialThunk(a.thunk) ==> r.error.None?
    ensures a.Pending? && !IsCredentialThunk(a.thunk) ==> r.error == s.error
    ensures Settles(a) ==> !r.isLoading
    ensures a.Rejected? && IsCredentialThunk(a.failed) ==>
      r.error == Some(a.payload) && r.user == s.user && r.isAuthenticated == s.isAuthenticated
    ensures SignedInUser(a).Some? ==> r.isAuthenticated && r.user == SignedInUser(a) && r.error.None?
    ensures SignsOut(a) ==> !r.isAuthenticated && r.user.None?
    ensures r.isAuthenticated != s.isAuthenticated || r.user != s.user ==> SignedInUser(a).Some? || SignsOut(a)
    ensures a.RegisterFulfilled? ==> r.otpEmail == Some(a.requestEmail)
    ensures a.VerifyOtpFulfilled? ==> r.otpEmail.None?
    ensures a.GetCurrentUserFulfilled? || (a.Rejected? && a.failed == GetCurrentUser) ==> r.isInitialized
    ensures a.LogoutFulfilled? ==> r.error.None? && r.otpEmail.None?
    ensures a.Rejected? && a.failed == Logout ==> r.error == s.error && r.otpEmail == s.otpEmail
    ensures a.SetOtpEmail? ==> r == s.(otpEmail := a.email)
    ensures a.ClearError? ==> r == s.(error := None)
    ensures a.SetIsInitialized? ==> r == s.(isInitialized := a.value)
  {
    match a
    case SetOtpEmail(e) => s.(otpEmail := e)
    case ClearError => s.(error := None)
    case SetIsInitialized(v) => s.(isInitialized := v)
    case Pending(t) =>
      if IsCredentialThunk(t) then s.(isLoading := true, error := None) else s.(isLoading := true)
    case RegisterFulfilled(email) => s.(isLoading := false, error := None, otpEmail := Some(email))
    case VerifyOtpFulfilled(u) =>
      s.(isLoading := false, user := Some(u), isAuthenticated := true, otpEmail := None, error := None)
    case LoginFulfilled(u) => s.(isLoading := false, user := Some(u), isAuthenticated := true, error := None)
    case GetCurrentUserFulfilled(u) =>
      s.(isLoading := false, user := Some(u), isAuthenticated := true, isInitialized := true, error := None)
    case LogoutFulfilled => s.(isLoading := false, user := None, isAuthenticated := false, error := None, otpEmail := None)
    case Rejected(t, payload) =>
      match t
      case GetCurrentUser => s.(isLoading := false, isInitialized := true, isAuthenticated := false, user := None)
      case Logout => s.(isLoading := false, user := None, isAuthenticated := false)
      case _ => s.(isLoading := false, error := Some(payload))
  }

  /** The store keeps "authenticated" and "has a user" together. */
  ghost predicate Consistent(s: AuthState) {
    s.isAuthenticated <==> s.user.Some?
  }

  function ReduceAll(s: AuthState, actions: seq<AuthAction>): AuthState
    decreases |actions|
  {
    if actions == [] then s else ReduceAll(Reduce(s, actions[0]), actions[1..])
  }

  /** Every reachable state, from the initial one and any action history, is consistent. */
  lemma {:induction false} ReachableConsistent(s: AuthState, actions: seq<AuthAction>)
    requires Consistent(s)
    ensures Consistent(ReduceAll(s, actions))
    decreases |actions|
  {
    if actions != [] {
      ReachableConsistent(Reduce(s, actions[0]), actions[1..]);
    }
  }

  /** A successful logout returns to the initial state, except that the store stays initialized. */
  lemma LogoutResets(s: AuthState)
    ensures Reduce(Reduce(s, Pending(Logout)), LogoutFulfilled) == Initial.(isInitialized := s.isInitialized)
  {
  }

  /** The fixed rejection message of each thunk. */
  function DefaultRejection(t: Thunk): (m: string)
    ensures m != ""
  {
    match t
    case Register => "Registration failed"
    case VerifyOtp => "OTP verification failed"
    case Login => "Login failed"
    case GetCurrentUser => "Failed to fetch user"
    case Logout => "Logout failed"
  }

  /** `error.response?.data?.message || "<default>"`: a non-empty server message, else the default. */
  function RejectionMessage(t: Thunk, serverMessage: Option<string>): (m: string)
    ensures m != ""
    ensures serverMessage.Some? && serverMessage.value != "" ==> m == serverMessage.value
    ensures serverMessage.None? || serverMessage.value == "" ==> m == DefaultRejection(t)
  {
    if serverMessage.Some? && serverMessage.value != "" then serverMessage.value else DefaultRejection(t)
  }

  /** The default messages are pairwise distinct, so the message tells which thunk failed. */
  lemma DefaultsDistinct(t1: Thunk, t2: Thunk)
    requires t1 != t2
    ensures DefaultRejection(t1) != DefaultRejection(t2)
  {
  }

  /** The store object: the state's fields, reassigned in place by each dispatched action. */
  class AuthStore {
    var user: Option<User>
    var isAuthenticated: bool
    var isLoading: bool
    var error: Option<string>
    var otpEmail: Option<string>
    var isInitialized: bool

    function State(): AuthState
      reads this
    {
      AuthState(user, isAuthenticated, isLoading, error, otpEmail, isInitialized)
    }

    constructor ()
      ensures State() == Initial
    {
      user, isAuthenticated, isLoading := None, false, false;
      error, otpEmail, isInitialized := None, None, false;
    }

    method Dispatch(a: AuthAction)
      modifies this
      ensures State() == Reduce(old(State()), a)
    {
      match a {
        case SetOtpEmail(e) => otpEmail := e;
        case ClearError => error := None;
        case SetIsInitialized(v) => isInitialized := v;
        case Pending(t) =>
          isLoading := true;
          if IsCredentialThunk(t) {
            error := None;
          }
        case RegisterFulfilled(email) =>
          isLoading := false;
          error := None;
          otpEmail := Some(email);
        case VerifyOtpFulfilled(u) =>
          isLoading := false;
          user := Some(u);
          isAuthenticated := true;
          otpEmail := None;
          error := None;
        case LoginFulfilled(u) =>
          isLoading := false;
          user := Some(u);
          isAuthenticated := true;
          error := None;
        case GetCurrentUserFulfilled(u) =>
          isLoading := false;
          user := Some(u);
          isAuthenticated := true;
          isInitialized := true;
          error := None;
        case LogoutFulfilled =>
          isLoading := false;
          user := None;
          isAuthenticated := false;
          error := None;
          otpEmail := None;
        case Rejected(t, payload) =>
          isLoading := false;
          if t == GetCurrentUser {
            isInitialized := true;
            isAuthenticated := false;
            user := None;
          } else if t == Logout {
            user := None;
            isAuthenticated := false;
          } else {
            error := Some(payload);
          }
      }
    }
  }
}
