/**
 * `service/Impl/PostServiceImpl.java`: posts with an optional uploaded file
 * and a list of likes, at most one per user. Every answer is an HTTP status;
 * a request that is refused saves nothing.
 */
module PostService {
  import opened Wrappers
  import opened Seqs
  import opened Sorting
  import opened Documents

  /** A like as stored inside its post; `createdAt` is a clock reading. */
  datatype Like = Like(postId: string, userId: string, createdAt: int)

  /** A post; `date` is the clock reading it was saved at, `url` the uploaded file's address. */
  datatype Post = Post(id: string, userId: Option<string>, description: string, url: Option<string>, likes: seq<Like>, date: int)

  /** The statuses the service answers with on its modelled paths (200, 400, 404); the 500 of each method's `catch (Exception)` is not modelled. */
  datatype Status = Ok | BadRequest | NotFound

  /** What the upload of a request's file gives: no file sent, or the uploader's answer (null on failure). */
  datatype Upload = NoFile | Uploaded(url: Option<string>)

  function PostId(p: Post): string { p.id }

  function PostDate(p: Post): int { p.date }

  /** `anyMatch(like -> like.getUserId().equals(userId))`. */
  predicate HasLiked(likes: seq<Like>, userId: string) {
    exists i :: 0 <= i < |likes| && likes[i].userId == userId
  }

  /** A like not by `userId`: the test `Unliked` filters with. */
  function NotBy(userId: string): Like -> bool {
    (l: Like) => l.userId != userId
  }

  /** The likes with `userId`'s appended: the user has liked, and the other users' likes are as they were. */
  function Liked(likes: seq<Like>, postId: string, userId: string, now: int): (r: seq<Like>)
    ensures HasLiked(r, userId)
    ensures multiset(r) == multiset(likes) + multiset{Like(postId, userId, now)}
    ensures Filter(r, NotBy(userId)) == Filter(likes, NotBy(userId))
  {
    var r := likes + [Like(postId, userId, now)];
    FilterConcat(likes, [Like(postId, userId, now)], NotBy(userId));
    assert r[|likes|].userId == userId;
    r
  }

  /** `removeIf(like -> like.getUserId().equals(userId))`. */
  function Unliked(likes: seq<Like>, userId: string): (r: seq<Like>)
    ensures !HasLiked(r, userId)
    ensures forall i :: 0 <= i < |likes| && likes[i].userId != userId ==> likes[i] in r
    ensures forall l :: l in r ==> l in likes
  {
    Filter(likes, NotBy(userId))
  }

  /** No user has two likes on one post. */
  predicate OneLikePerUser(likes: seq<Like>) {
    forall i, j :: 0 <= i < j < |likes| ==> likes[i].userId != likes[j].userId
  }

  /** `updatePost`'s changes: a non-empty description overwrites, an uploaded file replaces the url. */
  function Updated(p: Post, description: Option<string>, url: Option<string>): (r: Post)
    ensures r.id == p.id && r.userId == p.userId && r.likes == p.likes && r.date == p.date
    ensures r.description == OrElse(description, p.description)
    ensures url.Some? ==> r.url == url
    ensures url.None? ==> r.url == p.url
  {
    p.(description := OrElse(description, p.description), url := if url.Some? then url else p.url)
  }

  class PostStore {
    /** The `post` collection. */
    var posts: seq<Post>

    predicate Valid()
      reads this`posts
    {
      DistinctKeys(posts, PostId) && forall i :: 0 <= i < |posts| ==> OneLikePerUser(posts[i].likes)
    }

    constructor ()
      ensures Valid() && posts == []
    {
      posts := [];
    }

    /**
     * `createPost`: `freshId` is the id the database gives the new post and
     * `now` the clock. An empty description or a failed upload is a 400 and
     * saves nothing.
     */
    method CreatePost(userId: Option<string>, description: Option<string>, upload: Upload, freshId: string, now: int)
      returns (status: Status, saved: Option<Post>)
      requires Valid() && Lookup(posts, freshId, PostId).None?
      modifies this`posts
      ensures Valid()
      ensures !Truthy(description) || upload == Uploaded(None) ==> status == BadRequest && saved.None? && posts == old(posts)
      ensures Truthy(description) && upload != Uploaded(None) ==>
        status == Ok &&
        saved == Some(Post(freshId, userId, description.value, if upload.NoFile? then None else upload.url, [], now)) &&
        posts == old(posts) + [saved.value]
    {
      if !Truthy(description) {
        return BadRequest, None;
      }
      var url: Option<string> := None;
      if upload.Uploaded? {
        if upload.url.None? {
          return BadRequest, None;
        }
        url := upload.url;
      }
      var post := Post(freshId, userId, description.value, url, [], now);
      SavedNewAppends(posts, post, PostId);
      SavedKeepsKeysDistinct(posts, post, PostId);
      SavedLikes(posts, post);
      posts := Saved(posts, post, PostId);
      return Ok, Some(post);
    }

    /** `getAllPosts`: every post, newest first. */
    method GetAllPosts() returns (r: seq<Post>)
      ensures r == SortNewestFirst(posts, PostDate)
      ensures NewestFirst(r, PostDate) && multiset(r) == multiset(posts)
    {
      r := SortNewestFirst(posts, PostDate);
      SortedIsNewestFirst(posts, PostDate);
      SortedIsPermutation(posts, PostDate);
    }

    /**
     * `updatePost`: an unknown id is a 404; a failed upload is a 400 and saves
     * nothing, not even the new description.
     */
    method UpdatePost(postId: string, description: Option<string>, upload: Upload) returns (status: Status)
      requires Valid()
      modifies this`posts
      ensures Valid()
      ensures Lookup(old(posts), postId, PostId).None? ==> status == NotFound && posts == old(posts)
      ensures Lookup(old(posts), postId, PostId).Some? && upload == Uploaded(None) ==> status == BadRequest && posts == old(posts)
      ensures Lookup(old(posts), postId, PostId).Some? && upload != Uploaded(None) ==>
        status == Ok &&
        posts == Saved(old(posts), Updated(Lookup(old(posts), postId, PostId).value, description,
                                           if upload.NoFile? then None else upload.url), PostId)
    {
      var found := Lookup(posts, postId, PostId);
      if found.None? {
        return NotFound;
      }
      if upload == Uploaded(None) {
        return BadRequest;
      }
      var post := Updated(found.value, description, if upload.NoFile? then None else upload.url);
      SavedKeepsKeysDistinct(posts, post, PostId);
      SavedLikes(posts, post);
      posts := Saved(posts, post, PostId);
      return Ok;
    }

    /** `deletePost`: an unknown id is a 404; otherwise that post goes. */
    method DeletePost(postId: string) returns (status: Status)
      requires Valid()
      modifies this`posts
      ensures Valid()
      ensures Lookup(old(posts), postId, PostId).None? ==> status == NotFound && posts == old(posts)
      ensures Lookup(old(posts), postId, PostId).Some? ==> status == Ok && posts == Deleted(old(posts), postId, PostId)
    {
      var found := Lookup(posts, postId, PostId);
      if found.None? {
        return NotFound;
      }
      DeletedKeepsKeysDistinct(posts, postId, PostId);
      posts := Deleted(posts, postId, PostId);
      return Ok;
    }

    /**
     * `likePost`: an unknown id is a 404, a second like by the same user a
     * 400 with the likes unchanged; otherwise one like is appended.
     */
    method LikePost(postId: string, userId: string, now: int) returns (status: Status)
      requires Valid()
      modifies this`posts
      ensures Valid()
      ensures Lookup(old(posts), postId, PostId).None? ==> status == NotFound && posts == old(posts)
      ensures var p := Lookup(old(posts), postId, PostId);
        p.Some? && HasLiked(p.value.likes, userId) ==> status == BadRequest && posts == old(posts)
      ensures var p := Lookup(old(posts), postId, PostId);
        p.Some? && !HasLiked(p.value.likes, userId) ==>
          status == Ok && posts == Saved(old(posts), p.value.(likes := Liked(p.value.likes, postId, userId, now)), PostId)
    {
      var found := Lookup(posts, postId, PostId);
      if found.None? {
        return NotFound;
      }
      var p := found.value;
      if HasLiked(p.likes, userId) {
        return BadRequest;
      }
      var post := p.(likes := Liked(p.likes, postId, userId, now));
      LikeKeepsOnePerUser(p.likes, postId, userId, now);
      SavedKeepsKeysDistinct(posts, post, PostId);
      SavedLikes(posts, post);
      posts := Saved(posts, post, PostId);
      return Ok;
    }

    /** `unlikePost`: an unknown id is a 404, a user with no like a 400; otherwise all the user's likes go. */
    method UnlikePost(postId: string, userId: string) returns (status: Status)
      requires Valid()
      modifies this`posts
      ensures Valid()
      ensures Lookup(old(posts), postId, PostId).None? ==> status == NotFound && posts == old(posts)
      ensures var p := Lookup(old(posts), postId, PostId);
        p.Some? && !HasLiked(p.value.likes, userId) ==> status == BadRequest && posts == old(posts)
      ensures var p := Lookup(old(posts), postId, PostId);
        p.Some? && HasLiked(p.value.likes, userId) ==>
          status == Ok && posts == Saved(old(posts), p.value.(likes := Unliked(p.value.likes, userId)), PostId)
    {
      var found := Lookup(posts, postId, PostId);
      if found.None? {
        return NotFound;
      }
      var p := found.value;
      if !HasLiked(p.likes, userId) {
        return BadRequest;
      }
      var post := p.(likes := Unliked(p.likes, userId));
      UnlikeKeepsOnePerUser(p.likes, userId);
      SavedKeepsKeysDistinct(posts, post, PostId);
      SavedLikes(posts, post);
      posts := Saved(posts, post, PostId);
      return Ok;
    }
  }

  // -------------------------------------------------------------- lemmas

  /** Saving a post whose likes are one per user keeps every post's likes one per user. */
  lemma SavedLikes(posts: seq<Post>, p: Post)
    requires forall i :: 0 <= i < |posts| ==> OneLikePerUser(posts[i].likes)
    requires OneLikePerUser(p.likes)
    ensures var r := Saved(posts, p, PostId);
      forall i :: 0 <= i < |r| ==> OneLikePerUser(r[i].likes)
  {
  }

  /** A like by a user who has none keeps the likes one per user. */
  lemma LikeKeepsOnePerUser(likes: seq<Like>, postId: string, userId: string, now: int)
    requires OneLikePerUser(likes) && !HasLiked(likes, userId)
    ensures OneLikePerUser(Liked(likes, postId, userId, now))
  {
    var r := Liked(likes, postId, userId, now);
    forall i, j | 0 <= i < j < |r| ensures r[i].userId != r[j].userId {
      if j == |likes| {
        assert r[i] == likes[i];
      }
    }
  }

  /** Removing a user's likes keeps the rest one per user. */
  lemma {:induction false} UnlikeKeepsOnePerUser(likes: seq<Like>, userId: string)
    requires OneLikePerUser(likes)
    ensures OneLikePerUser(Unliked(likes, userId))
  {
    if likes != [] {
      var rest := likes[1..];
      assert OneLikePerUser(rest) by {
        forall i, j | 0 <= i < j < |rest| ensures rest[i].userId != rest[j].userId {
          assert rest[i] == likes[i + 1] && rest[j] == likes[j + 1];
        }
      }
      UnlikeKeepsOnePerUser(rest, userId);
      forall l | l in Unliked(rest, userId) ensures l.userId != likes[0].userId {
        var m :| 0 <= m < |rest| && rest[m] == l;
        assert likes[m + 1] == l;
      }
    }
  }

  /** A like and then an unlike by a user with no like gives back the likes as they were. */
  lemma LikeThenUnlike(likes: seq<Like>, postId: string, userId: string, now: int)
    requires !HasLiked(likes, userId)
    ensures Unliked(Liked(likes, postId, userId, now), userId) == likes
  {
    FilterConcat(likes, [Like(postId, userId, now)], NotBy(userId));
    FilterAllPass(likes, NotBy(userId));
  }

  /** After a successful like the user has liked the post, and the count grew by exactly one. */
  lemma LikeCounts(likes: seq<Like>, postId: string, userId: string, now: int)
    ensures HasLiked(Liked(likes, postId, userId, now), userId)
    ensures |Liked(likes, postId, userId, now)| == |likes| + 1
  {
    assert Liked(likes, postId, userId, now)[|likes|].userId == userId;
  }

  /** With one like per user, an unlike removes exactly one like. */
  lemma {:induction false} UnlikeRemovesOne(likes: seq<Like>, userId: string)
    requires OneLikePerUser(likes) && HasLiked(likes, userId)
    ensures |Unliked(likes, userId)| == |likes| - 1
  {
    if likes[0].userId == userId {
      FilterAllPass(likes[1..], NotBy(userId));
    } else {
      var rest := likes[1..];
      var k :| 0 <= k < |likes| && likes[k].userId == userId;
      assert rest[k - 1].userId == userId;
      assert OneLikePerUser(rest) by {
        forall i, j | 0 <= i < j < |rest| ensures rest[i].userId != rest[j].userId {
          assert rest[i] == likes[i + 1] && rest[j] == likes[j + 1];
        }
      }
      UnlikeRemovesOne(rest, userId);
    }
  }
}
