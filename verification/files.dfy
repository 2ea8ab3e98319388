/**
 * A browser `File` and the avatar check repeated in the profile slice's `uploadAvatar`,
 * the profile form's `handleAvatarUpload` and the settings page's `handleAvatarChange`.
 */
module Files {
  import opened Text

  datatype File = File(name: string, mimeType: string, size: nat)

  /** `5 * 1024 * 1024` bytes. */
  const MaxAvatarBytes: nat := 5 * 1024 * 1024

  /** The outcome of the avatar checks, in the order they are made. */
  datatype AvatarVerdict = Accepted | NotAnImage | TooLarge {
    /** The message shown or thrown for a refused file. */
    function Message(): string
      requires !Accepted?
    {
      if NotAnImage? then "Please select a valid image file" else "File size must be less than 5MB"
    }
  }

  /** `file.type.startsWith("image/")`. */
  predicate IsImage(f: File) {
    StartsWith(f.mimeType, "image/")
  }

  /** The type check comes first, then the size check; exactly 5 MiB still passes. */
  function CheckAvatar(f: File): (v: AvatarVerdict)
    ensures v == Accepted <==> IsImage(f) && f.size <= MaxAvatarBytes
    ensures v == NotAnImage <==> !IsImage(f)
    ensures v == TooLarge <==> IsImage(f) && f.size > 5242880
  {
    if !IsImage(f) then NotAnImage
    else if f.size > MaxAvatarBytes then TooLarge
    else Accepted
  }

  /** `files.map(file => URL.createObjectURL(file))`, with `mint` standing for the browser call. */
  function ObjectUrls(files: seq<File>, mint: File -> string): (urls: seq<string>)
    ensures |urls| == |files|
    ensures forall i :: 0 <= i < |files| ==> urls[i] == mint(files[i])
  {
    if files == [] then [] else [mint(files[0])] + ObjectUrls(files[1..], mint)
  }
}
