/**
 * The profile slice of lib/store/slices/profile-slice.ts: three thunks sharing one
 * loading / error / success triple, the file checks `uploadAvatar` makes before it
 * calls the API, and the store object whose `Dispatch` follows `Reduce`.
 */
module ProfileSlice {
  import opened Wrappers
  import opened Accounts
  import opened Files

  datatype ProfileState = ProfileState(isLoading: bool, error: Option<string>, success: bool)

  const Initial := ProfileState(false, None, false)

  datatype ProfileThunk = UpdateProfile | UploadAvatar | DeleteAvatar

  datatype ProfileAction =
    | ClearError
    | ClearSuccess
    | Pending(thunk: ProfileThunk)
    | Fulfilled(thunk: ProfileThunk)
    | Rejected(thunk: ProfileThunk, payload: string)

  /** The slice reducer; the three thunks' cases are written out alike. */
  function Reduce(s: ProfileState, a: ProfileAction): (r: ProfileState)
    ensures a.Pending? ==> r.isLoading && r.error.None? && r.success == s.success
    ensures a.Fulfilled? ==> !r.isLoading && r.success && r.error.None?
    ensures a.Rejected? ==> !r.isLoading && r.error == Some(a.payload) && r.success == s.success
    ensures a.ClearError? ==> r.error.None? && r.isLoading == s.isLoading && r.success == s.success
    ensures a.ClearSuccess? ==> !r.success && r.isLoading == s.isLoading && r.error == s.error
  {
    match a
    case ClearError => s.(error := None)
    case ClearSuccess => s.(success := false)
    case Pending(_) => s.(isLoading := true, error := None)
    case Fulfilled(_) => s.(isLoading := false, success := true, error := None)
    case Rejected(_, payload) => s.(isLoading := false, error := Some(payload))
  }

  function ReduceAll(s: ProfileState, actions: seq<ProfileAction>): ProfileState
    decreases |actions|
  {
    if actions == [] then s else ReduceAll(Reduce(s, actions[0]), actions[1..])
  }

  /** Dispatching two batches one after the other is dispatching their concatenation. */
  lemma {:induction false} ReduceAllAppend(s: ProfileState, a: seq<ProfileAction>, b: seq<ProfileAction>)
    ensures ReduceAll(s, a + b) == ReduceAll(ReduceAll(s, a), b)
    decreases |a|
  {
    if a == [] {
      assert a + b == b;
    } else {
      assert (a + b)[0] == a[0] && (a + b)[1..] == a[1..] + b;
      ReduceAllAppend(Reduce(s, a[0]), a[1..], b);
    }
  }

  /** Once set, `success` stays set until `clearSuccess` is dispatched. */
  lemma {:induction false} SuccessSticky(s: ProfileState, actions: seq<ProfileAction>)
    requires s.success
    requires forall i :: 0 <= i < |actions| ==> !actions[i].ClearSuccess?
    ensures ReduceAll(s, actions).success
    decreases |actions|
  {
    if actions != [] {
      SuccessSticky(Reduce(s, actions[0]), actions[1..]);
    }
  }

  /** A settled action clears the loading flag, whatever came before it. */
  lemma {:induction false} SettledNotLoading(s: ProfileState, actions: seq<ProfileAction>)
    requires actions != [] && (actions[|actions| - 1].Fulfilled? || actions[|actions| - 1].Rejected?)
    ensures !ReduceAll(s, actions).isLoading
    decreases |actions|
  {
    if |actions| > 1 {
      SettledNotLoading(Reduce(s, actions[0]), actions[1..]);
    }
  }

  /** `error.response?.data?.message || "<default>"` for the update and delete thunks. */
  function RejectionMessage(t: ProfileThunk, serverMessage: Option<string>): (m: string)
    requires t != UploadAvatar
    ensures m != ""
    ensures serverMessage.Some? && serverMessage.value != "" ==> m == serverMessage.value
    ensures serverMessage.None? || serverMessage.value == "" ==>
      m == (if t == UpdateProfile then "Profile update failed" else "Avatar deletion failed")
  {
    if serverMessage.Some? && serverMessage.value != "" then serverMessage.value
    else if t == UpdateProfile then "Profile update failed" else "Avatar deletion failed"
  }

  /** `error.message || error.response?.data?.message || "Avatar upload failed"`. */
  function UploadRejectionMessage(errorMessage: string, serverMessage: Option<string>): (m: string)
    ensures m != ""
    ensures errorMessage != "" ==> m == errorMessage
    ensures errorMessage == "" && serverMessage.Some? && serverMessage.value != "" ==> m == serverMessage.value
    ensures errorMessage == "" && (serverMessage.None? || serverMessage.value == "") ==> m == "Avatar upload failed"
  {
    if errorMessage != "" then errorMessage
    else if serverMessage.Some? && serverMessage.value != "" then serverMessage.value
    else "Avatar upload failed"
  }

  datatype ThunkResult = Done(user: User) | RejectedWith(message: string)

  /** One run of the `uploadAvatar` thunk body: whether it reached the API, and how it ended. */
  datatype UploadRun = UploadRun(apiCalled: bool, result: ThunkResult)

  /**
   * The `uploadAvatar` body: the type check, then the size check, each throwing its
   * message; only a file passing both reaches the API, whose outcome is `api`.
   */
  function RunUploadAvatar(f: File, api: ApiResult<User>): (run: UploadRun)
    ensures run.apiCalled <==> IsImage(f) && f.size <= MaxAvatarBytes
    ensures !IsImage(f) ==> run.result == RejectedWith("Please select a valid image file")
    ensures IsImage(f) && f.size > MaxAvatarBytes ==> run.result == RejectedWith("File size must be less than 5MB")
    ensures run.apiCalled && api.Ok? ==> run.result == Done(api.value)
    ensures run.apiCalled && api.Failed? ==>
      run.result == RejectedWith(UploadRejectionMessage(api.errorMessage, api.serverMessage))
  {
    var verdict := CheckAvatar(f);
    if verdict != Accepted then UploadRun(false, RejectedWith(UploadRejectionMessage(verdict.Message(), None)))
    else match api
      case Ok(u) => UploadRun(true, Done(u))
      case Failed(msg, server) => UploadRun(true, RejectedWith(UploadRejectionMessage(msg, server)))
  }

  /** The actions a dispatched thunk produces: pending first, then its settled case. */
  function ThunkActions(t: ProfileThunk, result: ThunkResult): (actions: seq<ProfileAction>)
    ensures |actions| == 2 && actions[0] == Pending(t)
    ensures result.Done? <==> actions[1] == Fulfilled(t)
  {
    [Pending(t), if result.Done? then Fulfilled(t) else Rejected(t, result.message)]
  }

  /** A refused file still goes through pending, and leaves the check's message as the error. */
  lemma RefusedUploadRecordsMessage(s: ProfileState, f: File, api: ApiResult<User>)
    requires CheckAvatar(f) != Accepted
    ensures ReduceAll(s, ThunkActions(UploadAvatar, RunUploadAvatar(f, api).result))
            == s.(isLoading := false, error := Some(CheckAvatar(f).Message()))
  {
    var actions := ThunkActions(UploadAvatar, RunUploadAvatar(f, api).result);
    var mid := Reduce(s, actions[0]);
    assert ReduceAll(s, actions) == ReduceAll(mid, actions[1..]);
    assert actions[1..] == [actions[1]];
    assert ReduceAll(mid, [actions[1]]) == ReduceAll(Reduce(mid, actions[1]), []);
  }

  /** The store object: the three fields, reassigned in place by each dispatched action. */
  class ProfileStore {
    var isLoading: bool
    var error: Option<string>
    var success: bool

    function State(): ProfileState
      reads this
    {
      ProfileState(isLoading, error, success)
    }

    constructor ()
      ensures State() == Initial
    {
      isLoading, error, success := false, None, false;
    }

    method Dispatch(a: ProfileAction)
      modifies this
      ensures State() == Reduce(old(State()), a)
    {
      match a {
        case ClearError => error := None;
        case ClearSuccess => success := false;
        case Pending(_) =>
          isLoading := true;
          error := None;
        case Fulfilled(_) =>
          isLoading := false;
          success := true;
          error := None;
        case Rejected(_, payload) =>
          isLoading := false;
          error := Some(payload);
      }
    }
  }
}
