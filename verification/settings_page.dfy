/**
 * The settings page's profile and account parts, app/settings/page.tsx: the avatar
 * preview and its upload, the avatar shown, the initials fallback and sign-out.
 */
module SettingsPage {
  import opened Wrappers
  import opened Text
  import opened Files
  import opened Accounts
  import opened Ui

  /** `previewAvatar || currentUser.avatar`: a non-empty preview wins. */
  function DisplayAvatar(previewAvatar: Option<string>, user: Option<User>): (shown: Option<string>)
    ensures previewAvatar.Some? && previewAvatar.value != "" ==> shown == previewAvatar
    ensures !(previewAvatar.Some? && previewAvatar.value != "") ==> shown == CurrentUser(user, "User", "user").avatar
  {
    if previewAvatar.Some? && previewAvatar.value != "" then previewAvatar else CurrentUser(user, "User", "user").avatar
  }

  /** The sign-out outcome: the logout thunk, then a toast and the home page, or only an error toast. */
  function LogoutEffects(outcome: Outcome): (effects: seq<Effect>)
    ensures |effects| >= 2 && effects[0] == Dispatched(LogoutUser)
    ensures outcome.Fulfilled? ==> effects[1..] == [ToastSuccess("Logged out successfully"), Navigate("/")]
    ensures outcome.RejectedWith? ==> effects[1..] == [ToastError("Failed to logout")]
  {
    [Dispatched(LogoutUser)]
    + if outcome.Fulfilled? then [ToastSuccess("Logged out successfully"), Navigate("/")] else [ToastError("Failed to logout")]
  }

  class SettingsPageState {
    var previewAvatar: Option<string>
    /** The file the hidden file input currently holds. */
    var inputFile: Option<File>
    var effects: seq<Effect>

    constructor ()
      ensures previewAvatar.None? && inputFile.None? && effects == []
    {
      previewAvatar, inputFile, effects := None, None, [];
    }

    /**
     * `handleAvatarChange`: the input now holds `file`; no file does nothing more; a
     * non-image, then an oversized file, is refused with a toast; otherwise its preview is set.
     */
    method AvatarChange(file: Option<File>, mint: File -> string)
      modifies this
      ensures inputFile == file
      ensures file.None? ==> previewAvatar == old(previewAvatar) && effects == old(effects)
      ensures file.Some? && CheckAvatar(file.value) != Accepted ==>
        previewAvatar == old(previewAvatar) && effects == old(effects) + [ToastError(CheckAvatar(file.value).Message())]
      ensures file.Some? && CheckAvatar(file.value) == Accepted ==>
        previewAvatar == Some(mint(file.value)) && effects == old(effects)
    {
      inputFile := file;
      if file.None? {
        return;
      }
      var f := file.value;
      if !IsImage(f) {
        effects := effects + [ToastError("Please select a valid image file")];
        return;
      }
      if f.size > MaxAvatarBytes {
        effects := effects + [ToastError("File size must be less than 5MB")];
        return;
      }
      previewAvatar := Some(mint(f));
    }

    /** `handleUploadAvatar`: only with a preview and a file, the upload, then preview and input cleared. */
    method UploadAvatar()
      modifies this
      ensures (old(previewAvatar).Some? && old(previewAvatar).value != "" && old(inputFile).Some?) ==>
        effects == old(effects) + [Dispatched(Request.UploadAvatar(old(inputFile).value))]
        && previewAvatar.None? && inputFile.None?
      ensures !(old(previewAvatar).Some? && old(previewAvatar).value != "" && old(inputFile).Some?) ==>
        unchanged(this)
    {
      if previewAvatar.Some? && previewAvatar.value != "" && inputFile.Some? {
        effects := effects + [Dispatched(Request.UploadAvatar(inputFile.value))];
        previewAvatar, inputFile := None, None;
      }
    }

    /** `handleRemoveAvatar`, with the dialog's answer as input: the delete thunk, then preview and input cleared. */
    method RemoveAvatar(confirmed: bool)
      modifies this
      ensures confirmed ==>
        effects == old(effects) + [Dispatched(DeleteAvatar)] && previewAvatar.None? && inputFile.None?
      ensures !confirmed ==> unchanged(this)
    {
      if confirmed {
        effects := effects + [Dispatched(DeleteAvatar)];
        previewAvatar, inputFile := None, None;
      }
    }

    /** `handleLogout`, with the thunk's outcome as input. */
    method Logout(outcome: Outcome)
      modifies this
      ensures previewAvatar == old(previewAvatar) && inputFile == old(inputFile)
      ensures effects == old(effects) + LogoutEffects(outcome)
    {
      effects := effects + LogoutEffects(outcome);
    }
  }
}
