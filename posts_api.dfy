/**
 * The response mapping and error messages of `services/api/posts.ts`. What
 * the server sends is a parameter; `iso` stands for
 * `new Date(date).toISOString()`.
 */
module PostsApi {
  import opened Wrappers
  import opened Text

  datatype MediaKind = Image | Video

  datatype MediaItem = MediaItem(id: string, kind: MediaKind, url: string)

  datatype Like = Like(id: string, postId: string, userId: string, createdAt: string)

  datatype PostComment = PostComment(id: string, text: string, userId: string, createdAt: string)

  /** The client-side `Post`. */
  datatype Post = Post(
    id: string,
    description: string,
    url: Option<string>,
    userId: string,
    date: string,
    comments: seq<PostComment>,
    likes: seq<Like>,
    media: seq<MediaItem>)

  /** A post as the server encodes it; `None` for `comments`/`likes` stands for anything that is not an array. */
  datatype ServerPost = ServerPost(
    id: string,
    description: string,
    url: Option<string>,
    userId: string,
    date: string,
    comments: Option<seq<PostComment>>,
    likes: Option<seq<Like>>)

  /** The lower-cased url matches `/\.(mp4|webm|ogg)$/`. */
  function IsVideoUrl(url: string): (video: bool)
    ensures video ==> 4 <= |url| && (url[|url| - 4] == '.' || (5 <= |url| && url[|url| - 5] == '.'))
    ensures EndsWith(url, ".mp4") || EndsWith(url, ".MP4") || EndsWith(url, ".webm") ==> video
  {
    var u := Lower(url);
    EndsWith(u, ".mp4") || EndsWith(u, ".webm") || EndsWith(u, ".ogg")
  }

  /** The `media` field: empty without a url, else one item named after the post. */
  function MediaOf(id: string, url: Option<string>): (m: seq<MediaItem>)
    ensures m == [] <==> !Truthy(url)
    ensures m != [] ==>
      (|m| == 1 && m[0].id == id && m[0].url == url.value && (m[0].kind == Video <==> IsVideoUrl(url.value)))
  {
    if Truthy(url) then [MediaItem(id, if IsVideoUrl(url.value) then Video else Image, url.value)] else []
  }

  /** The per-post mapping of `getAllPosts` and `getPost`. */
  function ToPost(p: ServerPost, iso: string -> string): (r: Post)
    ensures r.id == p.id && r.description == p.description && r.url == p.url && r.userId == p.userId
    ensures r.date == iso(p.date)
    ensures r.comments == (if p.comments.Some? then p.comments.value else [])
    ensures r.likes == (if p.likes.Some? then p.likes.value else [])
    ensures r.media == MediaOf(p.id, p.url)
  {
    Post(p.id, p.description, p.url, p.userId, iso(p.date),
      if p.comments.Some? then p.comments.value else [],
      if p.likes.Some? then p.likes.value else [],
      MediaOf(p.id, p.url))
  }

  /** The mapping of `createPost`: a fresh post has no comments and no likes, whatever the server says. */
  function CreatedPost(p: ServerPost, iso: string -> string): (r: Post)
    ensures r.comments == [] && r.likes == []
    ensures r == ToPost(p, iso).(comments := [], likes := [])
  {
    Post(p.id, p.description, p.url, p.userId, iso(p.date), [], [], MediaOf(p.id, p.url))
  }

  /** The body of `GET /posts`: missing, or an object whose `posts` may be missing. */
  datatype ListBody = NoBody | Body(posts: Option<seq<ServerPost>>)

  /** `getAllPosts` on an answered request. */
  function AllPosts(body: ListBody, iso: string -> string): (r: seq<Post>)
    ensures body.NoBody? || body.posts.None? ==> r == []
    ensures body.Body? && body.posts.Some? ==>
      |r| == |body.posts.value| && forall i :: 0 <= i < |r| ==> r[i] == ToPost(body.posts.value[i], iso)
  {
    if body.NoBody? || body.posts.None? then []
    else seq(|body.posts.value|, i requires 0 <= i < |body.posts.value| => ToPost(body.posts.value[i], iso))
  }

  /** What an axios error carries: a response (with an optional `data.message`), a request only, or neither. */
  datatype RequestError = WithResponse(dataMessage: Option<string>) | RequestOnly | Setup(message: Option<string>)

  const NoResponseMessage: string := "No response received from server. Please try again."

  /** The message `handleError` throws; it always throws, so every failed call rejects with it. */
  function ErrorMessage(e: RequestError, custom: string): (m: string)
    ensures e.WithResponse? ==> m == OrElse(e.dataMessage, custom)
    ensures e.RequestOnly? ==> m == NoResponseMessage
    ensures e.Setup? ==> m == OrElse(e.message, custom)
  {
    match e
    case WithResponse(msg) => OrElse(msg, custom)
    case RequestOnly => NoResponseMessage
    case Setup(msg) => OrElse(msg, custom)
  }

  /** The like and unlike calls always name the hard-coded user. */
  const CurrentUserId: string := "current-user-id"

  function LikePath(postId: string): (p: string)
    ensures EndsWith(p, "/like?userId=" + CurrentUserId)
  {
    "/posts/" + postId + "/like?userId=" + CurrentUserId
  }

  // -------------------------------------------------------------- lemmas

  /** Video detection ignores case: a url and its lower-cased form are classified alike. */
  lemma VideoDetectionIgnoresCase(url: string)
    ensures IsVideoUrl(url) <==> IsVideoUrl(Lower(url))
  {
    LowerIsLowerCase(url);
    LowerOfLowerCase(Lower(url));
  }

  /** Server order and every id survive the mapping. */
  lemma AllPostsKeepOrder(posts: seq<ServerPost>, iso: string -> string)
    ensures var r := AllPosts(Body(Some(posts)), iso);
      |r| == |posts| && forall i :: 0 <= i < |r| ==> r[i].id == posts[i].id && r[i].userId == posts[i].userId
  {
  }

  /** A post has media exactly when its url is non-empty, and then exactly one item. */
  lemma MediaAtMostOne(p: ServerPost, iso: string -> string)
    ensures |ToPost(p, iso).media| <= 1
    ensures |ToPost(p, iso).media| == 1 <==> Truthy(p.url)
  {
  }

  /** With a response, the server's non-empty message wins, else the caller's own message. */
  lemma ServerMessageWins(msg: string, custom: string)
    ensures msg != [] ==> ErrorMessage(WithResponse(Some(msg)), custom) == msg
    ensures ErrorMessage(WithResponse(Some("")), custom) == custom
    ensures ErrorMessage(WithResponse(None), custom) == custom
  {
  }
}
