/**
 * The profile editor, components/profile/edit-profile-form.tsx: three fields seeded
 * from the signed-in user, an error map, the update thunk, and the avatar picker's
 * checks before the upload thunk.
 */
module EditProfile {
  import opened Wrappers
  import opened Text
  import opened Files
  import opened Validators
  import opened Accounts
  import opened Ui
  import ProfileSlice

  /** The three inputs; the error map is keyed by the input. */
  datatype Field = Name | Username | PhoneNumber

  datatype ProfileData = ProfileData(name: string, username: string, phoneNumber: string)

  function Get(d: ProfileData, f: Field): string {
    match f
    case Name => d.name
    case Username => d.username
    case PhoneNumber => d.phoneNumber
  }

  /** `{ ...prev, [name]: value }`. */
  function Put(d: ProfileData, f: Field, value: string): (r: ProfileData)
    ensures Get(r, f) == value
    ensures forall g :: g != f ==> Get(r, g) == Get(d, g)
  {
    match f
    case Name => d.(name := value)
    case Username => d.(username := value)
    case PhoneNumber => d.(phoneNumber := value)
  }

  /** `user?.x || ""` for each field. */
  function InitialData(user: Option<User>): (d: ProfileData)
    ensures user.None? ==> d == ProfileData("", "", "")
    ensures user.Some? ==> d == ProfileData(user.value.name, user.value.username, user.value.phoneNumber)
  {
    if user.Some? then ProfileData(user.value.name, user.value.username, user.value.phoneNumber)
    else ProfileData("", "", "")
  }

  const NameRequired := "Name is required"
  const UsernameRule := "Username must be 3-20 characters (letters, numbers, underscore)"

  predicate Fails(name: string, username: string, f: Field) {
    match f
    case Name => Trim(name) == ""
    case Username => !ValidUsername(username)
    case PhoneNumber => false
  }

  function ErrorMessage(f: Field): string {
    match f
    case Name => NameRequired
    case Username => UsernameRule
    case PhoneNumber => ""
  }

  /** The submit-time checks: a non-blank name and the username pattern; the phone number is not checked. */
  function ProfileErrors(name: string, username: string): (errs: map<Field, string>)
    ensures Name in errs <==> Trim(name) == ""
    ensures Username in errs <==> !ValidUsername(username)
    ensures PhoneNumber !in errs
    ensures Name in errs ==> errs[Name] == NameRequired
    ensures Username in errs ==> errs[Username] == UsernameRule
  {
    map f | f in {Name, Username} && Fails(name, username, f) :: ErrorMessage(f)
  }

  /** A blank-only name is refused, whichever whitespace it is made of. */
  lemma BlankNameRefused(name: string, username: string)
    ensures Name in ProfileErrors(name, username) <==> IsBlank(name)
  {
    TrimEmptyIffBlank(name);
  }

  /** The picker's verdict on a chosen file: nothing, a toast with the refusal, or the upload thunk. */
  function AvatarEffects(file: Option<File>): (effects: seq<Effect>)
    ensures file.None? ==> effects == []
    ensures file.Some? && !IsImage(file.value) ==> effects == [ToastError("Please select a valid image file")]
    ensures file.Some? && IsImage(file.value) && file.value.size > MaxAvatarBytes ==>
      effects == [ToastError("File size must be less than 5MB")]
    ensures file.Some? && CheckAvatar(file.value) == Accepted ==> effects == [Dispatched(UploadAvatar(file.value))]
  {
    if file.None? then []
    else
      var verdict := CheckAvatar(file.value);
      if verdict == Accepted then [Dispatched(UploadAvatar(file.value))] else [ToastError(verdict.Message())]
  }

  /** A file the picker lets through also passes the thunk's own checks, so the upload reaches the API. */
  lemma PickedFileReachesApi(file: File, api: ApiResult<User>)
    requires Dispatched(UploadAvatar(file)) in AvatarEffects(Some(file))
    ensures ProfileSlice.RunUploadAvatar(file, api).apiCalled
  {
  }

  /** The notice effect: a success toast and its clear, then an error toast and its clear. */
  function ProfileNotices(s: ProfileSlice.ProfileState): (effects: seq<Effect>)
    ensures s.success <==> ToastSuccess("Profile updated successfully!") in effects
    ensures Dispatched(ClearProfileSuccess) in effects <==> s.success
    ensures (s.error.Some? && s.error.value != "") <==> Dispatched(ClearProfileError) in effects
    ensures s.error.Some? && s.error.value != "" ==> ToastError(s.error.value) in effects
  {
    (if s.success then [ToastSuccess("Profile updated successfully!"), Dispatched(ClearProfileSuccess)] else [])
    + (if s.error.Some? && s.error.value != "" then [ToastError(s.error.value), Dispatched(ClearProfileError)] else [])
  }

  /** The slice action each notice dispatch stands for. */
  function SliceActions(effects: seq<Effect>): seq<ProfileSlice.ProfileAction> {
    if effects == [] then []
    else
      (match effects[0]
       case Dispatched(ClearProfileSuccess) => [ProfileSlice.ClearSuccess]
       case Dispatched(ClearProfileError) => [ProfileSlice.ClearError]
       case _ => [])
      + SliceActions(effects[1..])
  }

  /** Once its clears reach the slice, the effect's next run shows nothing: each notice is shown once. */
  lemma {:induction false} NoticesShownOnce(s: ProfileSlice.ProfileState)
    ensures ProfileNotices(ProfileSlice.ReduceAll(s, SliceActions(ProfileNotices(s)))) == []
  {
    var e := ProfileNotices(s);
    var succ := if s.success then [ToastSuccess("Profile updated successfully!"), Dispatched(ClearProfileSuccess)] else [];
    var err := if s.error.Some? && s.error.value != "" then [ToastError(s.error.value), Dispatched(ClearProfileError)] else [];
    SliceActionsAppend(succ, err);
    assert e == succ + err;
    var s1 := ProfileSlice.ReduceAll(s, SliceActions(succ));
    if s.success {
      assert SliceActions(succ) == [ProfileSlice.ClearSuccess] by {
        assert succ[1..][1..] == [];
      }
      assert s1 == ProfileSlice.Reduce(s, ProfileSlice.ClearSuccess) by {
        assert [ProfileSlice.ClearSuccess][1..] == [];
      }
    } else {
      assert s1 == s;
    }
    assert !s1.success && s1.error == s.error;
    ProfileSlice.ReduceAllAppend(s, SliceActions(succ), SliceActions(err));
    var s2 := ProfileSlice.ReduceAll(s1, SliceActions(err));
    if s.error.Some? && s.error.value != "" {
      assert SliceActions(err) == [ProfileSlice.ClearError] by {
        assert err[1..][1..] == [];
      }
      assert s2 == ProfileSlice.Reduce(s1, ProfileSlice.ClearError) by {
        assert [ProfileSlice.ClearError][1..] == [];
      }
    } else {
      assert s2 == s1;
    }
  }

  lemma {:induction false} SliceActionsAppend(a: seq<Effect>, b: seq<Effect>)
    ensures SliceActions(a + b) == SliceActions(a) + SliceActions(b)
  {
    if a == [] {
      assert a + b == b;
    } else {
      assert (a + b)[0] == a[0] && (a + b)[1..] == a[1..] + b;
      SliceActionsAppend(a[1..], b);
    }
  }

  class EditProfileState {
    var data: ProfileData
    var errors: map<Field, string>
    var effects: seq<Effect>

    constructor (user: Option<User>)
      ensures data == InitialData(user) && errors == map[] && effects == []
    {
      data, errors, effects := InitialData(user), map[], [];
    }

    /** `handleChange`: stores the value and deletes that field's error when it is non-empty. */
    method HandleChange(f: Field, value: string)
      modifies this
      ensures data == Put(old(data), f, value)
      ensures f in old(errors) && old(errors)[f] != "" ==> errors == old(errors) - {f}
      ensures !(f in old(errors) && old(errors)[f] != "") ==> errors == old(errors)
      ensures effects == old(effects)
    {
      data := Put(data, f, value);
      if f in errors && errors[f] != "" {
        errors := errors - {f};
      }
    }

    /** `handleSubmit`: failing checks set the map; otherwise the update carries the three fields unchanged. */
    method Submit()
      modifies this
      ensures data == old(data)
      ensures ProfileErrors(data.name, data.username) != map[] ==>
        errors == ProfileErrors(data.name, data.username) && effects == old(effects)
      ensures ProfileErrors(data.name, data.username) == map[] ==>
        errors == old(errors)
        && effects == old(effects) + [Dispatched(UpdateProfile(data.name, data.username, data.phoneNumber))]
    {
      var newErrors := ProfileErrors(data.name, data.username);
      if newErrors != map[] {
        errors := newErrors;
        return;
      }
      effects := effects + [Dispatched(UpdateProfile(data.name, data.username, data.phoneNumber))];
    }

    /** `handleAvatarUpload` on the picker's first file, if any. */
    method AvatarUpload(file: Option<File>)
      modifies this
      ensures data == old(data) && errors == old(errors)
      ensures effects == old(effects) + AvatarEffects(file)
    {
      if file.None? {
        return;
      }
      var f := file.value;
      if !IsImage(f) {
        effects := effects + [ToastError("Please select a valid image file")];
        return;
      }
      if f.size > MaxAvatarBytes {
        effects := effects + [ToastError("File size must be less than 5MB")];
        return;
      }
      effects := effects + [Dispatched(UploadAvatar(f))];
    }

    /** `handleAvatarDelete`, with the answer to the confirmation dialog as input. */
    method AvatarDelete(confirmed: bool)
      modifies this
      ensures data == old(data) && errors == old(errors)
      ensures effects == old(effects) + (if confirmed then [Dispatched(DeleteAvatar)] else [])
    {
      if confirmed {
        effects := effects + [Dispatched(DeleteAvatar)];
      }
    }
  }
}
