/** The form state of `components/posts/CreatePost.tsx`: file selection, removal and submit. */
module CreatePost {
  import opened Wrappers
  import opened Text
  import opened MediaFiles

  const DescriptionRequired: string := "Description is required"
  const CreateFailed: string := "Failed to create post. Please try again."

  /** The `createPost` payload; the user id is hard-coded. */
  datatype CreateRequest = CreateRequest(description: string, file: Option<MediaFile>, userId: string)

  const TempUserId: string := "temp-user-id"

  class PostForm {
    var description: string
    var selectedFile: Option<MediaFile>
    var mediaPreview: Option<string>
    var isVideo: bool
    var isLoading: bool
    var error: Option<string>

    /** `isVideo` always describes the selected file. */
    predicate Valid()
      reads this`isVideo, this`selectedFile
    {
      isVideo <==> selectedFile.Some? && IsVideoFile(selectedFile.value)
    }

    constructor ()
      ensures Valid()
      ensures description == [] && selectedFile.None? && mediaPreview.None? && !isVideo && !isLoading && error.None?
    {
      description := [];
      selectedFile := None;
      mediaPreview := None;
      isVideo := false;
      isLoading := false;
      error := None;
    }

    /** `handleFileSelect`; `preview` is what the FileReader produces. */
    method FileSelect(file: Option<MediaFile>, preview: string)
      requires Valid()
      modifies this`selectedFile, this`isVideo, this`mediaPreview, this`error
      ensures Valid()
      ensures file.None? ==> selectedFile == old(selectedFile) && mediaPreview == old(mediaPreview) && error == old(error)
      ensures file.Some? && SizeError(file.value).Some? ==>
        selectedFile == old(selectedFile) && mediaPreview == old(mediaPreview) && error == SizeError(file.value)
      ensures file.Some? && SizeError(file.value).None? ==>
        selectedFile == file && mediaPreview == Some(preview) && error.None? && isVideo == IsVideoFile(file.value)
    {
      if file.Some? {
        var f := file.value;
        var video := IsVideoFile(f);
        if f.size > MaxSize(f) {
          error := Some("File size should be less than " + (if video then "100MB" else "5MB"));
          return;
        }
        selectedFile := file;
        isVideo := video;
        mediaPreview := Some(preview);
        error := None;
      }
    }

    /** `removeMedia`. */
    method RemoveMedia()
      modifies this`selectedFile, this`mediaPreview, this`isVideo
      ensures Valid()
      ensures selectedFile.None? && mediaPreview.None? && !isVideo
    {
      selectedFile := None;
      mediaPreview := None;
      isVideo := false;
    }

    /** The form once `createPost` has settled: cleared, or as it was (`text`, `file`, `preview`) with an error. */
    predicate Settled(succeeded: bool, text: string, file: Option<MediaFile>, preview: Option<string>)
      reads this`description, this`selectedFile, this`mediaPreview, this`isVideo, this`error, this`isLoading
    {
      !isLoading &&
      (succeeded ==> description == [] && selectedFile.None? && mediaPreview.None? && !isVideo && error.None?) &&
      (!succeeded ==> description == text && selectedFile == file && mediaPreview == preview && error == Some(CreateFailed))
    }

    /** `handleSubmit`; `succeeded` is whether `createPost` resolves. `notified` is whether `onPostCreated` runs. */
    method Submit(succeeded: bool) returns (request: Option<CreateRequest>, notified: bool)
      requires Valid()
      modifies this`description, this`selectedFile, this`mediaPreview, this`isVideo, this`error, this`isLoading
      ensures Valid()
      ensures old(IsBlank(description)) ==> request.None? && !notified && error == Some(DescriptionRequired)
      ensures old(IsBlank(description)) ==>
        description == old(description) && selectedFile == old(selectedFile) &&
        mediaPreview == old(mediaPreview) && isVideo == old(isVideo) && isLoading == old(isLoading)
      ensures !old(IsBlank(description)) ==>
        request == Some(CreateRequest(old(Trim(description)), old(selectedFile), TempUserId)) && notified == succeeded &&
        Settled(succeeded, old(description), old(selectedFile), old(mediaPreview))
    {
      var content := Trim(description);
      if content == [] {
        error := Some(DescriptionRequired);
        return None, false;
      }
      var sent;
      sent, notified := Send(succeeded, content);
      request := Some(sent);
    }

    /** The call itself, once the description has passed the check. */
    method Send(succeeded: bool, content: string) returns (request: CreateRequest, notified: bool)
      requires Valid()
      modifies this`description, this`selectedFile, this`mediaPreview, this`isVideo, this`error, this`isLoading
      ensures Valid()
      ensures request == CreateRequest(content, old(selectedFile), TempUserId) && notified == succeeded
      ensures Settled(succeeded, old(description), old(selectedFile), old(mediaPreview))
    {
      isLoading := true;
      error := None;
      request := CreateRequest(content, selectedFile, TempUserId);
      if succeeded {
        description := [];
        selectedFile := None;
        mediaPreview := None;
        isVideo := false;
        notified := true;
      } else {
        error := Some(CreateFailed);
        notified := false;
      }
      isLoading := false;
    }
  }

  /** The payload never carries surrounding whitespace, and never a blank description. */
  lemma {:induction false} PayloadIsTrimmed(description: string)
    requires !IsBlank(description)
    ensures Trim(description) != [] && Trim(Trim(description)) == Trim(description)
  {
    TrimIdempotent(description);
  }
}
