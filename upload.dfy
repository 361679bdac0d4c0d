/**
 * The image check both image uploads (components/projects.tsx and
 * components/extras.tsx) run before reading a file.
 */
module Upload {
  import opened Wrappers

  /** The selected `File`: its name, MIME type and size in bytes. */
  datatype SelectedFile = SelectedFile(name: string, mimeType: string, size: nat)

  /** 5 MiB, written `5 * 1024 * 1024` in the source. */
  const MaxImageBytes: nat := 5 * 1024 * 1024

  const ImagePrefix: string := "image/"

  /** `s.startsWith(p)`. */
  predicate StartsWith(s: string, p: string) {
    |p| <= |s| && s[..|p|] == p
  }

  /** Which alert, if any, the check raises. */
  datatype ImageCheck = NotAnImage | TooLarge | Accepted

  /** The type is checked first, then the size; a file of exactly 5 MiB passes. */
  function CheckImage(f: SelectedFile): (r: ImageCheck)
    ensures r == NotAnImage <==> !StartsWith(f.mimeType, ImagePrefix)
    ensures r == TooLarge <==> StartsWith(f.mimeType, ImagePrefix) && f.size > 5242880
    ensures r == Accepted <==> StartsWith(f.mimeType, ImagePrefix) && f.size <= 5242880
  {
    if !StartsWith(f.mimeType, ImagePrefix) then NotAnImage
    else if f.size > MaxImageBytes then TooLarge
    else Accepted
  }

  /** What an image upload does: nothing without a file, an alert for a rejected
      one, and otherwise the reader's data URL lands in the form. */
  datatype UploadOutcome = NoFile | Rejected(reason: ImageCheck) | Loaded

  function ImageUploadOutcome(file: Option<SelectedFile>): (r: UploadOutcome)
    ensures r == NoFile <==> file.None?
    ensures r == Loaded <==> file.Some? && CheckImage(file.value) == Accepted
    ensures r.Rejected? ==> file.Some? && r.reason == CheckImage(file.value) && r.reason != Accepted
  {
    match file
    case None => NoFile
    case Some(f) => if CheckImage(f) == Accepted then Loaded else Rejected(CheckImage(f))
  }

  /** The size bound is inclusive: 5 MiB is accepted, one byte more is not. */
  lemma SizeBoundary(name: string, mimeType: string)
    requires StartsWith(mimeType, ImagePrefix)
    ensures CheckImage(SelectedFile(name, mimeType, MaxImageBytes)) == Accepted
    ensures CheckImage(SelectedFile(name, mimeType, MaxImageBytes + 1)) == TooLarge
  {
  }

  /** A file that is neither an image nor small enough gets the type alert. */
  lemma TypeCheckedFirst(f: SelectedFile)
    requires !StartsWith(f.mimeType, ImagePrefix) && f.size > MaxImageBytes
    ensures CheckImage(f) == NotAnImage
  {
  }
}
