/**
 * The comment list of `components/comments/CommentSection.tsx`: the acting
 * user id, submit, edit and delete behind their guards, the count callback,
 * the owner-only controls and the newest-first display copy. Each remote
 * call's outcome is a parameter; `ms` stands for `new Date(...).getTime()`.
 */
module CommentSection {
  import opened Wrappers
  import opened Text
  import opened Seqs
  import opened Sorting

  const LoadFailed: string := "Failed to load comments. Please try again."
  const PostFailed: string := "Failed to post comment. Please try again."
  const UpdateFailed: string := "Failed to update comment. Please try again."
  const DeleteFailed: string := "Failed to delete comment. Please try again."

  /** `Comment` of `services/api/comments.ts`. */
  datatype Comment = Comment(id: string, postId: string, userId: string, content: string, createdAt: string)

  datatype CommentRequest = CommentRequest(userId: string, content: string)

  /** `user?.id || storedUserId || ''`. */
  function ActingUserId(authId: Option<string>, storedId: Option<string>): (r: string)
    ensures Truthy(authId) ==> r == authId.value
    ensures !Truthy(authId) ==> r == OrElse(storedId, "")
  {
    OrElse(authId, OrElse(storedId, ""))
  }

  /** The list after a successful edit: the comment with that id gets the new content, nothing else changes. */
  function Edited(comments: seq<Comment>, id: string, content: string): (r: seq<Comment>)
    ensures |r| == |comments|
    ensures forall i :: 0 <= i < |comments| && comments[i].id == id ==> r[i] == comments[i].(content := content)
    ensures forall i :: 0 <= i < |comments| && comments[i].id != id ==> r[i] == comments[i]
  {
    if comments == [] then []
    else [if comments[0].id == id then comments[0].(content := content) else comments[0]] + Edited(comments[1..], id, content)
  }

  function IdIsNot(id: string): Comment -> bool {
    (c: Comment) => c.id != id
  }

  /** The list after a successful delete. */
  function Deleted(comments: seq<Comment>, id: string): (r: seq<Comment>)
    ensures forall i :: 0 <= i < |r| ==> r[i].id != id
    ensures forall i :: 0 <= i < |comments| && comments[i].id != id ==> comments[i] in r
  {
    Filter(comments, IdIsNot(id))
  }

  function CreatedAt(ms: string -> int): Comment -> int {
    (c: Comment) => ms(c.createdAt)
  }

  /** `sortedComments`: a newest-first copy; the state itself keeps its order. */
  function SortedView(comments: seq<Comment>, ms: string -> int): (r: seq<Comment>)
    ensures |r| == |comments|
  {
    SortNewestFirst(comments, CreatedAt(ms))
  }

  /** Edit and Delete appear only for the owner, and only while nothing is being edited. */
  predicate ShowsOwnerControls(loggedIn: bool, viewerId: Option<string>, c: Comment, editingId: Option<string>) {
    loggedIn && viewerId == Some(c.userId) && !Truthy(editingId)
  }

  class CommentPanel {
    const postId: string
    var userId: string
    var comments: seq<Comment>
    /** The last count handed to `onCommentCountChange`, if any. */
    var reportedCount: Option<nat>
    var loading: bool
    var error: Option<string>
    var newComment: string
    var editingCommentId: Option<string>
    var editContent: string
    var isSubmitting: bool

    /** Every change of the list goes through `updateCommentCount`, so the reported count is its length. */
    predicate Valid()
      reads this`reportedCount, this`comments
    {
      (reportedCount.None? && comments == []) || reportedCount == Some(|comments|)
    }

    constructor (postId0: string)
      ensures Valid()
      ensures postId == postId0 && userId == [] && comments == [] && reportedCount.None? && loading
      ensures error.None? && newComment == [] && editingCommentId.None? && editContent == [] && !isSubmitting
    {
      postId := postId0;
      userId := [];
      comments := [];
      reportedCount := None;
      loading := true;
      error := None;
      newComment := [];
      editingCommentId := None;
      editContent := [];
      isSubmitting := false;
    }

    /** The effect on `user`. */
    method ResolveUser(authId: Option<string>, storedId: Option<string>)
      modifies this`userId
      ensures userId == ActingUserId(authId, storedId)
    {
      userId := OrElse(authId, OrElse(storedId, ""));
    }

    /** `updateCommentCount`. */
    method UpdateCommentCount(newComments: seq<Comment>)
      modifies this`comments, this`reportedCount
      ensures Valid()
      ensures comments == newComments && reportedCount == Some(|newComments|)
    {
      comments := newComments;
      reportedCount := Some(|newComments|);
    }

    /** `fetchComments`; `fetched` is the server's list, or `None` when the call fails. */
    method FetchComments(fetched: Option<seq<Comment>>)
      requires Valid()
      modifies this`comments, this`reportedCount, this`loading, this`error
      ensures Valid() && !loading
      ensures fetched.Some? ==> comments == fetched.value && reportedCount == Some(|fetched.value|) && error.None?
      ensures fetched.None? ==>
        comments == old(comments) && reportedCount == old(reportedCount) &&
        error == Some(LoadFailed)
    {
      loading := true;
      error := None;
      if fetched.Some? {
        UpdateCommentCount(fetched.value);
      } else {
        error := Some(LoadFailed);
      }
      loading := false;
    }

    /** `handleSubmitComment` does nothing on a blank comment, without a user id, or while a call is pending. */
    predicate SubmitBlocked()
      reads this`newComment, this`userId, this`isSubmitting
    {
      IsBlank(newComment) || userId == [] || isSubmitting
    }

    /** `handleEditComment` does nothing on blank text, with no comment being edited, without a user id, or while a call is pending. */
    predicate EditBlocked()
      reads this`editContent, this`editingCommentId, this`userId, this`isSubmitting
    {
      IsBlank(editContent) || !Truthy(editingCommentId) || userId == [] || isSubmitting
    }

    /** The panel once `createComment` has settled: `created` is prepended, or the text stays with an error. */
    predicate SubmitSettled(created: Option<Comment>, before: seq<Comment>, text: string)
      reads this`comments, this`reportedCount, this`newComment, this`error, this`isSubmitting
    {
      !isSubmitting &&
      (created.Some? ==>
        comments == [created.value] + before && reportedCount == Some(|before| + 1) && newComment == [] && error.None?) &&
      (created.None? ==> comments == before && newComment == text && error == Some(PostFailed))
    }

    /** `handleSubmitComment`; `created` is the server's new comment, or `None` when the call fails. */
    method SubmitComment(created: Option<Comment>) returns (request: Option<CommentRequest>)
      requires Valid()
      modifies this`comments, this`reportedCount, this`error, this`newComment, this`isSubmitting
      ensures Valid()
      ensures old(SubmitBlocked()) ==>
        request.None? && comments == old(comments) && newComment == old(newComment) &&
        error == old(error) && isSubmitting == old(isSubmitting)
      ensures !old(SubmitBlocked()) ==>
        request == Some(CommentRequest(userId, Trim(old(newComment)))) &&
        SubmitSettled(created, old(comments), old(newComment))
    {
      if SubmitBlocked() {
        return None;
      }
      var sent := SendComment(created, Trim(newComment));
      request := Some(sent);
    }

    /** The call itself, once the guard has let it through. */
    method SendComment(created: Option<Comment>, content: string) returns (request: CommentRequest)
      requires Valid()
      modifies this`comments, this`reportedCount, this`error, this`newComment, this`isSubmitting
      ensures Valid()
      ensures request == CommentRequest(userId, content)
      ensures SubmitSettled(created, old(comments), old(newComment))
    {
      isSubmitting := true;
      error := None;
      request := CommentRequest(userId, content);
      if created.Some? {
        UpdateCommentCount([created.value] + comments);
        newComment := [];
      } else {
        error := Some(PostFailed);
      }
      isSubmitting := false;
    }

    /** The Edit button: start editing a comment with its current text. */
    method StartEdit(c: Comment)
      modifies this`editingCommentId, this`editContent
      ensures editingCommentId == Some(c.id) && editContent == c.content
    {
      editingCommentId := Some(c.id);
      editContent := c.content;
    }

    /** The panel once `updateComment` has settled for comment `id`: the edit applied, or an error with the edit still open. */
    predicate EditSettled(succeeded: bool, before: seq<Comment>, id: string, content: string, editing: Option<string>)
      reads this`comments, this`editingCommentId, this`editContent, this`error, this`isSubmitting
    {
      !isSubmitting &&
      (succeeded ==> comments == Edited(before, id, content) && editingCommentId.None? && editContent == [] && error.None?) &&
      (!succeeded ==> comments == before && editingCommentId == editing && error == Some(UpdateFailed))
    }

    /** `handleEditComment`; `succeeded` is whether `updateComment` resolves. */
    method EditComment(succeeded: bool) returns (request: Option<(string, CommentRequest)>)
      requires Valid()
      modifies this`comments, this`reportedCount, this`error, this`editingCommentId, this`editContent, this`isSubmitting
      ensures Valid()
      ensures old(EditBlocked()) ==>
        request.None? && comments == old(comments) && editingCommentId == old(editingCommentId) &&
        editContent == old(editContent) && error == old(error) && isSubmitting == old(isSubmitting)
      ensures !old(EditBlocked()) ==>
        request == Some((old(editingCommentId).value, CommentRequest(userId, Trim(old(editContent))))) &&
        EditSettled(succeeded, old(comments), old(editingCommentId).value, Trim(old(editContent)), old(editingCommentId))
    {
      if EditBlocked() {
        return None;
      }
      var id := editingCommentId.value;
      var sent := SendEdit(succeeded, id, Trim(editContent));
      request := Some((id, sent));
    }

    /** The call itself, once the guard has let it through. */
    method SendEdit(succeeded: bool, id: string, content: string) returns (request: CommentRequest)
      requires Valid()
      modifies this`comments, this`reportedCount, this`error, this`editingCommentId, this`editContent, this`isSubmitting
      ensures Valid()
      ensures request == CommentRequest(userId, content)
      ensures EditSettled(succeeded, old(comments), id, content, old(editingCommentId))
    {
      isSubmitting := true;
      error := None;
      request := CommentRequest(userId, content);
      if succeeded {
        UpdateCommentCount(Edited(comments, id, content));
        editingCommentId := None;
        editContent := [];
      } else {
        error := Some(UpdateFailed);
      }
      isSubmitting := false;
    }

    /** `handleDeleteComment(commentId)`; `succeeded` is whether `deleteComment` resolves. */
    method DeleteComment(commentId: string, succeeded: bool) returns (sent: bool)
      requires Valid()
      modifies this`comments, this`reportedCount, this`error, this`isSubmitting
      ensures Valid()
      ensures sent <==> userId != [] && !old(isSubmitting)
      ensures !sent ==> comments == old(comments) && error == old(error) && isSubmitting == old(isSubmitting)
      ensures sent && succeeded ==> comments == Deleted(old(comments), commentId) && error.None? && !isSubmitting
      ensures sent && !succeeded ==>
        comments == old(comments) &&
        error == Some(DeleteFailed) && !isSubmitting
    {
      if userId == [] || isSubmitting {
        return false;
      }
      sent := true;
      isSubmitting := true;
      error := None;
      if succeeded {
        UpdateCommentCount(Filter(comments, IdIsNot(commentId)));
      } else {
        error := Some(DeleteFailed);
      }
      isSubmitting := false;
    }
  }

  // -------------------------------------------------------------- lemmas

  /** An edit keeps every id, owner and timestamp. */
  lemma EditKeepsIdentity(comments: seq<Comment>, id: string, content: string)
    ensures forall i :: 0 <= i < |comments| ==>
      Edited(comments, id, content)[i].id == comments[i].id &&
      Edited(comments, id, content)[i].userId == comments[i].userId &&
      Edited(comments, id, content)[i].createdAt == comments[i].createdAt
  {
  }

  /** Editing an id no comment carries changes nothing. */
  lemma EditUnknownUnchanged(comments: seq<Comment>, id: string, content: string)
    requires forall i :: 0 <= i < |comments| ==> comments[i].id != id
    ensures Edited(comments, id, content) == comments
  {
  }

  /** Deleting keeps every other comment in order, and deleting twice is deleting once. */
  lemma {:induction false} DeleteKeepsOthersInOrder(comments: seq<Comment>, id: string)
    ensures IsSubsequence(Deleted(comments, id), comments)
    ensures Deleted(Deleted(comments, id), id) == Deleted(comments, id)
  {
    FilterIsSubsequence(comments, IdIsNot(id));
    FilterIdempotent(comments, IdIsNot(id));
  }

  /** Deleting an id removes exactly the comments with that id. */
  lemma {:induction false} DeleteRemovesExactly(comments: seq<Comment>, id: string)
    ensures |Deleted(comments, id)| == |comments| - |Filter(comments, (c: Comment) => c.id == id)|
  {
    if comments != [] {
      DeleteRemovesExactly(comments[1..], id);
    }
  }

  /** The display copy is newest first and holds exactly the stored comments. */
  lemma SortedViewIsOrderedCopy(comments: seq<Comment>, ms: string -> int)
    ensures NewestFirst(SortedView(comments, ms), CreatedAt(ms))
    ensures multiset(SortedView(comments, ms)) == multiset(comments)
  {
    SortedIsNewestFirst(comments, CreatedAt(ms));
    SortedIsPermutation(comments, CreatedAt(ms));
  }

  /** Owner controls stay hidden on another user's comment, and on every comment while an edit is open. */
  lemma OwnerControlsHidden(loggedIn: bool, viewerId: Option<string>, c: Comment, editingId: string)
    ensures viewerId != Some(c.userId) ==> !ShowsOwnerControls(loggedIn, viewerId, c, None)
    ensures editingId != [] ==> !ShowsOwnerControls(loggedIn, viewerId, c, Some(editingId))
  {
  }
}
