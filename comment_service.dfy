/**
 * `service/Impl/CommentServiceImpl.java`: comments on posts. Only a
 * comment's owner may change or delete it; the service answers `false`, and
 * changes nothing, for anyone else and for an unknown comment.
 */
module CommentService {
  import opened Wrappers
  import opened Seqs
  import opened Documents

  /** A stored comment; `createdAt` is the clock reading it was created at. */
  datatype Comment = Comment(id: string, postId: string, userId: string, content: string, createdAt: int)

  function CommentId(c: Comment): string { c.id }

  function OnPost(postId: string): Comment -> bool {
    (c: Comment) => c.postId == postId
  }

  /** The comment `commentId` names, when it exists and belongs to `userId`. */
  predicate OwnedBy(comments: seq<Comment>, commentId: string, userId: string) {
    var c := Lookup(comments, commentId, CommentId);
    c.Some? && c.value.userId == userId
  }

  class CommentStore {
    /** The `comments` collection. */
    var comments: seq<Comment>

    predicate Valid()
      reads this
    {
      DistinctKeys(comments, CommentId)
    }

    constructor ()
      ensures Valid() && comments == []
    {
      comments := [];
    }

    /** `createComment`: `freshId` is the id the database gives it, `now` the clock. */
    method CreateComment(postId: string, content: string, userId: string, freshId: string, now: int) returns (saved: Comment)
      requires Valid() && Lookup(comments, freshId, CommentId).None?
      modifies this
      ensures Valid()
      ensures saved == Comment(freshId, postId, userId, content, now)
      ensures comments == old(comments) + [saved]
    {
      saved := Comment(freshId, postId, userId, content, now);
      SavedKeepsKeysDistinct(comments, saved, CommentId);
      comments := Saved(comments, saved, CommentId);
    }

    /** `getAllCommentsByPostId`: the loop over `findAll()` keeping the post's comments. */
    method GetAllCommentsByPostId(postId: string) returns (r: seq<Comment>)
      ensures r == Filter(comments, OnPost(postId))
    {
      var all := comments;
      r := [];
      var i := 0;
      while i < |all|
        invariant 0 <= i <= |all|
        invariant r == Filter(all[..i], OnPost(postId))
      {
        assert all[..i + 1] == all[..i] + [all[i]];
        FilterConcat(all[..i], [all[i]], OnPost(postId));
        if all[i].postId == postId {
          r := r + [all[i]];
        }
        i := i + 1;
      }
      assert all[..i] == all;
    }

    /** `updateComment`: the owner's comment gets the new content; otherwise `false` and nothing changes. */
    method UpdateComment(commentId: string, userId: string, content: string) returns (ok: bool)
      requires Valid()
      modifies this
      ensures Valid()
      ensures ok <==> OwnedBy(old(comments), commentId, userId)
      ensures !ok ==> comments == old(comments)
      ensures ok ==> comments == Saved(old(comments), Lookup(old(comments), commentId, CommentId).value.(content := content), CommentId)
    {
      var found := Lookup(comments, commentId, CommentId);
      if found.Some? && found.value.userId == userId {
        var c := found.value.(content := content);
        SavedKeepsKeysDistinct(comments, c, CommentId);
        comments := Saved(comments, c, CommentId);
        return true;
      }
      return false;
    }

    /** `deleteComment`: the owner's comment goes; otherwise `false` and nothing changes. */
    method DeleteComment(commentId: string, userId: string) returns (ok: bool)
      requires Valid()
      modifies this
      ensures Valid()
      ensures ok <==> OwnedBy(old(comments), commentId, userId)
      ensures !ok ==> comments == old(comments)
      ensures ok ==> comments == Deleted(old(comments), commentId, CommentId)
    {
      var found := Lookup(comments, commentId, CommentId);
      if found.Some? && found.value.userId == userId {
        DeletedKeepsKeysDistinct(comments, commentId, CommentId);
        comments := Deleted(comments, commentId, CommentId);
        return true;
      }
      return false;
    }
  }

  // -------------------------------------------------------------- lemmas

  /** A post's comments are exactly the stored comments on it, in storage order. */
  lemma PostCommentsExact(comments: seq<Comment>, postId: string)
    ensures IsSubsequence(Filter(comments, OnPost(postId)), comments)
    ensures forall c :: c in Filter(comments, OnPost(postId)) <==> c in comments && c.postId == postId
  {
    FilterIsSubsequence(comments, OnPost(postId));
  }

  /** An unknown comment is owned by nobody, so neither an update nor a delete happens. */
  lemma UnknownCommentRefused(comments: seq<Comment>, commentId: string, userId: string)
    requires forall i :: 0 <= i < |comments| ==> comments[i].id != commentId
    ensures !OwnedBy(comments, commentId, userId)
  {
  }

  /** A content update keeps the comment's id, post, owner and time, and the other comments. */
  lemma UpdateKeepsTheRest(comments: seq<Comment>, commentId: string, userId: string, content: string, other: string)
    requires OwnedBy(comments, commentId, userId) && other != commentId
    ensures var c := Lookup(comments, commentId, CommentId).value;
      var after := Saved(comments, c.(content := content), CommentId);
      Lookup(after, commentId, CommentId) == Some(c.(content := content)) &&
      Lookup(after, other, CommentId) == Lookup(comments, other, CommentId)
  {
    var c := Lookup(comments, commentId, CommentId).value;
    SavedKeepsOthers(comments, c.(content := content), CommentId, other);
  }

  /** A delete by the owner removes exactly that comment. */
  lemma DeleteRemovesOne(comments: seq<Comment>, commentId: string, userId: string)
    requires DistinctKeys(comments, CommentId) && OwnedBy(comments, commentId, userId)
    ensures |Deleted(comments, commentId, CommentId)| == |comments| - 1
  {
    var k := FindIndex(comments, HasKey(CommentId, commentId));
    DeletedRemovesOne(comments, k, CommentId);
  }
}
