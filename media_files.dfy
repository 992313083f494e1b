/**
 * The upload size rule shared by `components/posts/SkillPostCard.tsx` and
 * `components/posts/CreatePost.tsx`: videos up to 100MB, anything else up
 * to 5MB.
 */
module MediaFiles {
  import opened Wrappers
  import opened Text

  /** A selected `File`: its MIME type and size in bytes. */
  datatype MediaFile = MediaFile(name: string, mime: string, size: nat)

  predicate IsVideoFile(f: MediaFile) {
    StartsWith(f.mime, "video/")
  }

  const VideoLimit: nat := 100 * 1024 * 1024
  const OtherLimit: nat := 5 * 1024 * 1024

  function MaxSize(f: MediaFile): (m: nat)
    ensures IsVideoFile(f) ==> m == 104857600
    ensures !IsVideoFile(f) ==> m == 5242880
  {
    if IsVideoFile(f) then VideoLimit else OtherLimit
  }

  /** The error `handleFileSelect` sets, or `None` when the file is accepted. */
  function SizeError(f: MediaFile): (e: Option<string>)
    ensures e.None? <==> f.size <= MaxSize(f)
    ensures e.Some? ==> e.value == (if IsVideoFile(f) then "File size should be less than 100MB" else "File size should be less than 5MB")
  {
    if f.size > MaxSize(f) then
      Some("File size should be less than " + (if IsVideoFile(f) then "100MB" else "5MB"))
    else None
  }

  /** A file of at most 5MB is accepted whatever its type; one over 100MB never is. */
  lemma SizeBounds(f: MediaFile)
    ensures f.size <= 5242880 ==> SizeError(f).None?
    ensures f.size > 104857600 ==> SizeError(f).Some?
  {
  }
}
