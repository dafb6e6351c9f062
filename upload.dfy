/** The validation that runs when a file is picked for a member's avatar,
    before the file is read. */
module Upload {
  import opened Wrappers

  /** The largest accepted avatar, in bytes (2 MiB). */
  const MaxAvatarBytes: nat := 2 * 1024 * 1024

  /** Every accepted media type begins with this. */
  const ImagePrefix: string := "image/"

  /** What the browser reports about a picked file: its declared media type
      and its size in bytes. */
  datatype File = File(mimeType: string, size: nat)

  /** The outcome of a pick: nothing picked, one of the two alerts, or
      acceptance. */
  datatype Decision = NoFile | NotAnImage | TooLarge | Accepted

  /** `s.startsWith(prefix)`. */
  predicate StartsWith(s: string, prefix: string)
    ensures StartsWith(s, prefix) <==>
      |prefix| <= |s| && forall i :: 0 <= i < |prefix| ==> s[i] == prefix[i]
  {
    |prefix| <= |s| && s[..|prefix|] == prefix
  }

  /** The three guards in order: no file returns quietly, a type that does not
      begin with "image/" is reported first, and only then is the size
      compared, where a file of exactly `MaxAvatarBytes` still passes. */
  function Check(file: Option<File>): (d: Decision)
    ensures d == NoFile <==> file.None?
    ensures d == NotAnImage <==> file.Some? && !StartsWith(file.value.mimeType, ImagePrefix)
    ensures d == TooLarge <==>
      file.Some? && StartsWith(file.value.mimeType, ImagePrefix) && file.value.size > MaxAvatarBytes
    ensures d == Accepted <==>
      file.Some? && StartsWith(file.value.mimeType, ImagePrefix) && file.value.size <= MaxAvatarBytes
  {
    match file
    case None => NoFile
    case Some(f) =>
      if !StartsWith(f.mimeType, ImagePrefix) then NotAnImage
      else if f.size > MaxAvatarBytes then TooLarge
      else Accepted
  }

  /** The size limit is inclusive: an image of exactly 2 MiB passes and one
      byte more is refused. */
  lemma SizeLimitIsInclusive(mimeType: string)
    requires StartsWith(mimeType, ImagePrefix)
    ensures Check(Some(File(mimeType, 2097152))) == Accepted
    ensures Check(Some(File(mimeType, 2097153))) == TooLarge
  {
  }

  /** A 3 MiB PNG is refused for its size; a plain-text file is refused for its
      type, whatever its size. */
  lemma SampleRejections(size: nat)
    ensures Check(Some(File("image/png", 3 * 1024 * 1024))) == TooLarge
    ensures Check(Some(File("text/plain", size))) == NotAnImage
  {
    assert "text/plain"[..|ImagePrefix|] != ImagePrefix by {
      assert "text/plain"[0] != ImagePrefix[0];
    }
  }
}
