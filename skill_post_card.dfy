/**
 * The stateful handlers of `components/posts/SkillPostCard.tsx`: carousel
 * navigation, the edit form's file check and submit, the optimistic like with
 * rollback, and save. Each remote call's outcome is a parameter.
 */
module SkillPostCard {
  import opened Wrappers
  import opened Text
  import opened PostsApi
  import opened MediaFiles

  const DescriptionRequired := "Description is required"
  const UpdateFailed := "Failed to update post. Please try again."
  const LikeFailed := "Failed to update like status. Please try again."

  /** `a % b` in JavaScript: the remainder takes the sign of the dividend. */
  function JsRem(a: int, b: int): (r: int)
    requires b > 0
    ensures a >= 0 ==> 0 <= r < b && r == a % b
    ensures a < 0 ==> -b < r <= 0
  {
    if a >= 0 then a % b else -((-a) % b)
  }

  /** `post.media?.length || 1`. */
  function SlideCount(media: seq<MediaItem>): (n: nat)
    ensures n >= 1 && (media != [] ==> n == |media|)
  {
    if |media| > 0 then |media| else 1
  }

  /** `handleNextSlide`'s updater. */
  function NextIndex(i: int, n: int): (r: int)
    requires n > 0
    ensures 0 <= i < n ==> r == if i == n - 1 then 0 else i + 1
  {
    if 0 <= i < n then RemBelowTwice(i + 1, n); JsRem(i + 1, n)
    else JsRem(i + 1, n)
  }

  /** `handlePrevSlide`'s updater. */
  function PrevIndex(i: int, n: int): (r: int)
    requires n > 0
    ensures 0 <= i < n ==> r == if i == 0 then n - 1 else i - 1
  {
    if 0 <= i < n then RemBelowTwice(i - 1 + n, n); JsRem(i - 1 + n, n)
    else JsRem(i - 1 + n, n)
  }

  /** The initial `liked`: some like carries the viewer's id (no viewer id, no match). */
  function InitiallyLiked(likes: seq<Like>, viewerId: Option<string>): (liked: bool)
    ensures liked <==> viewerId.Some? && viewerId.value in (set i | 0 <= i < |likes| :: likes[i].userId)
  {
    viewerId.Some? && exists i :: 0 <= i < |likes| && likes[i].userId == viewerId.value
  }

  /** The optimistic like step: flip `liked` and move the count one way. */
  function FlipLike(liked: bool, count: int): (r: (bool, int))
    ensures r.0 == !liked
    ensures r.1 == (if liked then count - 1 else count + 1)
  {
    (!liked, if liked then count - 1 else count + 1)
  }

  /** The `updatePost` payload. */
  datatype UpdateRequest = UpdateRequest(description: string, file: Option<MediaFile>, userId: string)

  /** Which like call a click sends. */
  datatype LikeCall = LikeCall(postId: string) | UnlikeCall(postId: string)

  datatype SaveCall = SaveCall(postId: string) | UnsaveCall(postId: string)

  class PostCard {
    var post: Post
    /** Whether a user is logged in, and that user's id. */
    const loggedIn: bool
    const viewerId: Option<string>
    var currentSlide: int
    var liked: bool
    var likesCount: int
    var saved: bool
    var isLoading: bool
    var error: Option<string>
    var showEditForm: bool
    var editDescription: string
    var editFile: Option<MediaFile>
    var editPreview: Option<string>

    constructor (p: Post, loggedIn0: bool, viewerId0: Option<string>)
      ensures post == p && loggedIn == loggedIn0 && viewerId == viewerId0
      ensures currentSlide == 0 && !saved && !isLoading && error.None? && !showEditForm
      ensures liked == InitiallyLiked(p.likes, viewerId0) && likesCount == |p.likes|
      ensures editDescription == p.description && editFile.None? && editPreview.None?
    {
      post := p;
      loggedIn := loggedIn0;
      viewerId := viewerId0;
      currentSlide := 0;
      liked := InitiallyLiked(p.likes, viewerId0);
      likesCount := |p.likes|;
      saved := false;
      isLoading := false;
      error := None;
      showEditForm := false;
      editDescription := p.description;
      editFile := None;
      editPreview := None;
    }

    method NextSlide()
      modifies this`currentSlide
      ensures currentSlide == NextIndex(old(currentSlide), SlideCount(post.media))
    {
      currentSlide := JsRem(currentSlide + 1, SlideCount(post.media));
    }

    method PrevSlide()
      modifies this`currentSlide
      ensures currentSlide == PrevIndex(old(currentSlide), SlideCount(post.media))
    {
      var n := SlideCount(post.media);
      currentSlide := JsRem(currentSlide - 1 + n, n);
    }

    /** `handleFileSelect`; `preview` is what the FileReader produces. */
    method FileSelect(file: Option<MediaFile>, preview: string)
      modifies this`error, this`editFile, this`editPreview
      ensures file.None? ==> error == old(error) && editFile == old(editFile) && editPreview == old(editPreview)
      ensures file.Some? && SizeError(file.value).Some? ==>
        error == SizeError(file.value) && editFile == old(editFile) && editPreview == old(editPreview)
      ensures file.Some? && SizeError(file.value).None? ==>
        error.None? && editFile == file && editPreview == Some(preview)
    {
      if file.Some? {
        var f := file.value;
        if f.size > MaxSize(f) {
          error := Some("File size should be less than " + (if IsVideoFile(f) then "100MB" else "5MB"));
          return;
        }
        editFile := file;
        editPreview := Some(preview);
        error := None;
      }
    }

    /** `handleUpdate`; `outcome` is the server's updated post, or `None` when the call fails. */
    method Update(outcome: Option<Post>) returns (request: Option<UpdateRequest>, updated: Option<Post>)
      modifies this`error, this`isLoading, this`showEditForm
      ensures IsBlank(editDescription) ==> request.None? && updated.None? && error == Some(DescriptionRequired)
      ensures IsBlank(editDescription) ==> isLoading == old(isLoading) && showEditForm == old(showEditForm)
      ensures !IsBlank(editDescription) ==>
        request == Some(UpdateRequest(Trim(editDescription), editFile, post.userId)) &&
        UpdateSettled(outcome, updated, old(showEditForm))
    {
      var content := Trim(editDescription);
      if content == [] {
        error := Some(DescriptionRequired);
        return None, None;
      }
      var sent;
      sent, updated := SendUpdate(content, outcome);
      request := Some(sent);
    }

    /** The card once `updatePost` has settled: closed on success, the retry message on failure. */
    predicate UpdateSettled(outcome: Option<Post>, updated: Option<Post>, formWasShown: bool)
      reads this`isLoading, this`error, this`showEditForm
    {
      !isLoading && updated == outcome &&
      (outcome.Some? ==> error.None? && !showEditForm) &&
      (outcome.None? ==> error == Some(UpdateFailed) && showEditForm == formWasShown)
    }

    /** The `updatePost` call itself, once the description has passed the check. */
    method SendUpdate(content: string, outcome: Option<Post>) returns (request: UpdateRequest, updated: Option<Post>)
      modifies this`error, this`isLoading, this`showEditForm
      ensures request == UpdateRequest(content, editFile, post.userId)
      ensures UpdateSettled(outcome, updated, old(showEditForm))
    {
      isLoading := true;
      error := None;
      request := UpdateRequest(content, editFile, post.userId);
      if outcome.Some? {
        updated := outcome;
        showEditForm := false;
      } else {
        updated := None;
        error := Some(UpdateFailed);
      }
      isLoading := false;
    }

    /** `handleLike`; `outcome` is the server's post, or `None` when the call fails. */
    method LikeClicked(outcome: Option<Post>) returns (call: Option<LikeCall>, updated: Option<Post>)
      modifies this`liked, this`likesCount, this`error
      ensures old(isLoading) || !loggedIn ==>
        call.None? && updated.None? && liked == old(liked) && likesCount == old(likesCount) && error == old(error)
      ensures !old(isLoading) && loggedIn ==>
        call == Some(if old(liked) then UnlikeCall(post.id) else LikeCall(post.id)) && updated == outcome
      ensures !old(isLoading) && loggedIn && outcome.Some? ==>
        (liked, likesCount) == FlipLike(old(liked), old(likesCount)) && error == old(error)
      ensures !old(isLoading) && loggedIn && outcome.None? ==>
        liked == old(liked) && likesCount == old(likesCount) && error == Some(LikeFailed)
    {
      if isLoading || !loggedIn {
        return None, None;
      }
      var wasLiked := liked;
      var count := likesCount;
      liked := !wasLiked;
      likesCount := if wasLiked then likesCount - 1 else likesCount + 1;
      call := Some(if wasLiked then UnlikeCall(post.id) else LikeCall(post.id));
      if outcome.Some? {
        updated := outcome;
      } else {
        updated := None;
        liked := wasLiked;
        likesCount := count;
        error := Some(LikeFailed);
      }
    }

    /**
     * The `[post, user]` effect, run when the parent hands the card a post
     * (after `onPostUpdated`, the feed passes the server's post back): the
     * heart and the count are derived afresh from that post's likes.
     */
    method PostChanged(p: Post)
      modifies this`post, this`liked, this`likesCount
      ensures post == p && liked == InitiallyLiked(p.likes, viewerId) && likesCount == |p.likes|
    {
      post := p;
      liked := InitiallyLiked(p.likes, viewerId);
      likesCount := |p.likes|;
    }

    /** `handleSave`; `succeeded` is whether the save or unsave call resolves. */
    method SaveClicked(succeeded: bool) returns (call: Option<SaveCall>)
      modifies this`saved, this`isLoading
      ensures old(isLoading) ==> call.None? && saved == old(saved) && isLoading
      ensures !old(isLoading) ==>
        call == Some(if old(saved) then UnsaveCall(post.id) else SaveCall(post.id)) && !isLoading &&
        saved == (if succeeded then !old(saved) else old(saved))
    {
      if isLoading {
        return None;
      }
      isLoading := true;
      call := Some(if saved then UnsaveCall(post.id) else SaveCall(post.id));
      if succeeded {
        saved := !saved;
      }
      isLoading := false;
    }
  }

  // -------------------------------------------------------------- lemmas

  /** For a dividend below twice the divisor, the remainder is one subtraction at most. */
  lemma RemBelowTwice(a: int, n: int)
    requires 0 <= a < 2 * n
    ensures JsRem(a, n) == if a < n then a else a - n
  {
    var q := a / n;
    var r := a % n;
    assert a == n * q + r && 0 <= r < n;
    if q == 0 {
      assert r == a;
    } else {
      assert q == 1;
      assert r == a - n;
    }
  }

  /** Going back undoes going forward, and the other way round. */
  lemma {:induction false} PrevUndoesNext(i: int, n: int)
    requires 0 <= i < n
    ensures PrevIndex(NextIndex(i, n), n) == i
    ensures NextIndex(PrevIndex(i, n), n) == i
  {
  }

  /**
   * The like call records the fixed id `CurrentUserId`. Once the server's post
   * comes back, a viewer with another id sees the heart as it was before the
   * click, while the count has grown by one.
   */
  lemma {:induction false} ServerLikeLeavesHeart(likes: seq<Like>, like: Like, viewerId: Option<string>)
    requires like.userId == CurrentUserId && viewerId != Some(CurrentUserId)
    ensures InitiallyLiked(likes + [like], viewerId) == InitiallyLiked(likes, viewerId)
    ensures |likes + [like]| == |likes| + 1
  {
    var after := likes + [like];
    if viewerId.Some? {
      forall i | 0 <= i < |likes|
        ensures after[i].userId == likes[i].userId
      {
      }
      if InitiallyLiked(after, viewerId) {
        var i :| 0 <= i < |after| && after[i].userId == viewerId.value;
        assert i < |likes|;
        assert likes[i].userId == viewerId.value;
      }
    }
  }

  /** Flipping the like twice restores both the flag and the count. */
  lemma FlipLikeTwiceRestores(liked: bool, count: int)
    ensures var r := FlipLike(liked, count); FlipLike(r.0, r.1) == (liked, count)
  {
  }

  /** The optimistic count is the liked flag's change: one more when it becomes liked, one fewer otherwise. */
  lemma FlipLikeMovesCountWithFlag(liked: bool, count: int)
    ensures var r := FlipLike(liked, count); r.1 - count == (if r.0 then 1 else -1)
  {
  }
}
