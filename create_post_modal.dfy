/**
 * The media list and validators of `components/modals/CreatePostModal.tsx`.
 * `objectUrl` stands for `URL.createObjectURL`.
 */
module CreatePostModal {
  import opened Wrappers
  import opened Text
  import opened Seqs
  import opened MediaFiles

  const MaxFiles: nat := 3

  /** The MIME types the modal accepts: three, each an image or a video type. */
  function AllowedType(f: MediaFile): (ok: bool)
    ensures ok ==> StartsWith(f.mime, "image/") || StartsWith(f.mime, "video/")
  {
    f.mime == "image/jpeg" || f.mime == "image/png" || f.mime == "video/mp4"
  }

  predicate Disallowed(f: MediaFile) {
    !AllowedType(f)
  }

  /** The selected files, their previews and the error line. */
  datatype ModalState = ModalState(media: seq<MediaFile>, previews: seq<string>, error: Option<string>)

  /** The invariant the modal keeps: previews aligned with files, at most three of them. */
  predicate Aligned(s: ModalState) {
    |s.media| == |s.previews| && |s.media| <= MaxFiles
  }

  function Previews(files: seq<MediaFile>, objectUrl: MediaFile -> string): (r: seq<string>)
    ensures |r| == |files| && forall i :: 0 <= i < |files| ==> r[i] == objectUrl(files[i])
  {
    if files == [] then [] else [objectUrl(files[0])] + Previews(files[1..], objectUrl)
  }

  /** `handleMediaChange`: a batch is refused whole when it would pass three files or holds a disallowed type. */
  function MediaChange(s: ModalState, files: seq<MediaFile>, objectUrl: MediaFile -> string): (r: ModalState)
    ensures |files| + |s.media| > MaxFiles ==>
      r == s.(error := Some("Maximum 3 files allowed"))
    ensures |files| + |s.media| <= MaxFiles && Find(files, Disallowed).Some? ==>
      r == s.(error := Some("Only JPG, PNG images and MP4 videos are allowed"))
    ensures |files| + |s.media| <= MaxFiles && Find(files, Disallowed).None? ==>
      r.media == s.media + files && r.previews == s.previews + Previews(files, objectUrl) && r.error.None?
  {
    if |files| + |s.media| > MaxFiles then s.(error := Some("Maximum 3 files allowed"))
    else if Find(files, Disallowed).Some? then s.(error := Some("Only JPG, PNG images and MP4 videos are allowed"))
    else ModalState(s.media + files, s.previews + Previews(files, objectUrl), None)
  }

  /** `removeMedia(index)`: both lists drop that index. */
  function RemoveMedia(s: ModalState, index: int): (r: ModalState)
    ensures r.error == s.error
    ensures r.media == RemoveIndex(s.media, index) && r.previews == RemoveIndex(s.previews, index)
  {
    ModalState(RemoveIndex(s.media, index), RemoveIndex(s.previews, index), s.error)
  }

  /** The submit validator: blank first, then over 1000 UTF-16 code units; `None` lets the modal close. */
  function SubmitError(description: string): (e: Option<string>)
    ensures IsBlank(description) ==> e == Some("Description is required")
    ensures !IsBlank(description) && Utf16Length(description) > 1000 ==> e == Some("Description must be less than 1000 characters")
    ensures e.None? <==> !IsBlank(description) && Utf16Length(description) <= 1000
  {
    if IsBlank(description) then Some("Description is required")
    else if Utf16Length(description) > 1000 then Some("Description must be less than 1000 characters")
    else None
  }

  /** The upload control is shown while fewer than three files are selected. */
  predicate UploadShown(s: ModalState) {
    |s.media| < MaxFiles
  }

  // -------------------------------------------------------------- lemmas

  /** Adding a batch keeps previews aligned with files and never passes three files. */
  lemma MediaChangeKeepsAligned(s: ModalState, files: seq<MediaFile>, objectUrl: MediaFile -> string)
    requires Aligned(s)
    ensures Aligned(MediaChange(s, files, objectUrl))
  {
  }

  /** Removing an index keeps previews aligned with files, and file i's preview stays with it. */
  lemma RemoveKeepsAligned(s: ModalState, index: int)
    requires Aligned(s)
    ensures Aligned(RemoveMedia(s, index))
  {
  }

  /** An accepted batch holds only allowed types. */
  lemma {:induction false} AcceptedBatchAllowed(s: ModalState, files: seq<MediaFile>, objectUrl: MediaFile -> string)
    requires MediaChange(s, files, objectUrl).error.None?
    ensures forall i :: 0 <= i < |files| ==> AllowedType(files[i])
  {
    assert Find(files, Disallowed).None?;
  }

  /** At three files the upload control is hidden, and any further batch is refused. */
  lemma {:induction false} FullRefusesMore(s: ModalState, files: seq<MediaFile>, objectUrl: MediaFile -> string)
    requires Aligned(s) && !UploadShown(s) && files != []
    ensures MediaChange(s, files, objectUrl).media == s.media
    ensures MediaChange(s, files, objectUrl).error == Some("Maximum 3 files allowed")
  {
  }

  /** Removing an index that exists leaves one file fewer; any other index leaves the lists alone. */
  lemma RemoveCount(s: ModalState, index: int)
    ensures 0 <= index < |s.media| ==> |RemoveMedia(s, index).media| == |s.media| - 1
    ensures !(0 <= index < |s.media|) ==> RemoveMedia(s, index).media == s.media
  {
  }
}
