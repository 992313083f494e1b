/**
 * The feed of `pages/HomePage.tsx`: posts merged with the mock plans and
 * progress updates, sorted newest first, filtered by type, and edited when a
 * post is deleted or updated. `ms` stands for `new Date(...).getTime()`.
 */
module HomeFeed {
  import opened Wrappers
  import opened Seqs
  import opened Sorting
  import opened PostsApi

  /** The `user` attached to a post in the feed. */
  datatype FeedUser = FeedUser(id: string, name: string, username: string, profilePicture: string)

  /** A feed entry: a post with its user, a learning plan or a progress update (only what the feed logic reads). */
  datatype FeedItem =
    | PostItem(post: Post, user: FeedUser)
    | PlanItem(planId: string, createdAt: string)
    | UpdateItem(updateId: string, createdAt: string)
  {
    function Id(): string {
      match this
      case PostItem(p, _) => p.id
      case PlanItem(i, _) => i
      case UpdateItem(i, _) => i
    }
  }

  /** The `type` field. */
  function TypeName(item: FeedItem): (t: string)
    ensures t == "post" || t == "plan" || t == "update"
  {
    match item
    case PostItem(_, _) => "post"
    case PlanItem(_, _) => "plan"
    case UpdateItem(_, _) => "update"
  }

  /** A post dressed for the feed: its user is derived from `userId`. */
  function ToFeedPost(p: Post): (item: FeedItem)
    ensures item.PostItem? && item.post == p && item.user.id == p.userId
    ensures item.user.name == "User " + p.userId && item.user.username == "user" + p.userId
  {
    PostItem(p, FeedUser(p.userId, "User " + p.userId, "user" + p.userId, "https://via.placeholder.com/100"))
  }

  function ToFeedPosts(ps: seq<Post>): (r: seq<FeedItem>)
    ensures |r| == |ps| && forall i :: 0 <= i < |ps| ==> r[i] == ToFeedPost(ps[i])
  {
    if ps == [] then [] else [ToFeedPost(ps[0])] + ToFeedPosts(ps[1..])
  }

  /** `getDate`: a post's `date`, anything else's `createdAt`. */
  function TimeOf(ms: string -> int): FeedItem -> int {
    (item: FeedItem) => if item.PostItem? then ms(item.post.date) else ms(item.createdAt)
  }

  /** `allContent`: posts, then plans, then updates, sorted newest first (the sort is stable). */
  function Feed(posts: seq<Post>, plans: seq<FeedItem>, updates: seq<FeedItem>, ms: string -> int): (r: seq<FeedItem>)
    ensures |r| == |posts| + |plans| + |updates|
  {
    SortNewestFirst(ToFeedPosts(posts) + plans + updates, TimeOf(ms))
  }

  /** The filter buttons' values. */
  datatype FeedFilter = AllItems | Posts | Plans | Progress

  function FilterName(f: FeedFilter): string {
    match f
    case AllItems => "all"
    case Posts => "posts"
    case Plans => "plans"
    case Progress => "progress"
  }

  /** The test of `filteredFeed` as written: the type against the filter name minus its last character. */
  function ShownAsWritten(f: FeedFilter): (shown: FeedItem -> bool)
    ensures forall item :: shown(item) <==>
      f == AllItems || (f == Posts && item.PostItem?) || (f == Plans && item.PlanItem?)
  {
    assert FilterName(Posts)[..4] == "post" && FilterName(Plans)[..4] == "plan";
    assert FilterName(Progress)[..7] == "progres";
    (item: FeedItem) => f == AllItems || TypeName(item) == FilterName(f)[..|FilterName(f)| - 1]
  }

  /** `filteredFeed` as written. */
  function FilteredFeedAsWritten(feed: seq<FeedItem>, f: FeedFilter): (r: seq<FeedItem>)
    ensures |r| <= |feed|
  {
    Filter(feed, ShownAsWritten(f))
  }

  /** The type each filter evidently stands for. */
  function IntendedType(f: FeedFilter): string
    requires f != AllItems
  {
    match f
    case Posts => "post"
    case Plans => "plan"
    case Progress => "update"
  }

  /** The test of `filteredFeed` as intended: each filter keeps exactly its own kind of item. */
  function Shown(f: FeedFilter): (shown: FeedItem -> bool)
    ensures forall item :: shown(item) <==>
      f == AllItems || (f == Posts && item.PostItem?) || (f == Plans && item.PlanItem?) || (f == Progress && item.UpdateItem?)
  {
    (item: FeedItem) => f == AllItems || TypeName(item) == IntendedType(f)
  }

  /** `filteredFeed` with 'progress' selecting the progress updates. */
  function FilteredFeed(feed: seq<FeedItem>, f: FeedFilter): (r: seq<FeedItem>)
    ensures |r| <= |feed|
  {
    Filter(feed, Shown(f))
  }

  /** The test of `handlePostDeleted`: an item goes only when it is a post with that id. */
  function KeptAfterDelete(postId: string): (kept: FeedItem -> bool)
    ensures forall item :: kept(item) <==> !(item.PostItem? && item.post.id == postId)
  {
    (item: FeedItem) => TypeName(item) != "post" || item.Id() != postId
  }

  /** `handlePostDeleted(postId)`. */
  function PostDeleted(feed: seq<FeedItem>, postId: string): (r: seq<FeedItem>)
    ensures forall i :: 0 <= i < |r| ==> !(r[i].PostItem? && r[i].post.id == postId)
    ensures forall i :: 0 <= i < |feed| && !(feed[i].PostItem? && feed[i].post.id == postId) ==> feed[i] in r
  {
    Filter(feed, KeptAfterDelete(postId))
  }

  /** `handlePostUpdated(updated)`. */
  function PostUpdated(feed: seq<FeedItem>, updated: Post): (r: seq<FeedItem>)
    ensures |r| == |feed|
    ensures forall i :: 0 <= i < |feed| ==>
      r[i] == (if feed[i].PostItem? && feed[i].post.id == updated.id then ToFeedPost(updated) else feed[i])
  {
    if feed == [] then []
    else [if feed[0].PostItem? && feed[0].post.id == updated.id then ToFeedPost(updated) else feed[0]] + PostUpdated(feed[1..], updated)
  }

  // -------------------------------------------------------------- lemmas

  /** The feed is ordered newest first and holds exactly the merged items. */
  lemma FeedSortedPermutation(posts: seq<Post>, plans: seq<FeedItem>, updates: seq<FeedItem>, ms: string -> int)
    ensures NewestFirst(Feed(posts, plans, updates, ms), TimeOf(ms))
    ensures multiset(Feed(posts, plans, updates, ms)) == multiset(ToFeedPosts(posts) + plans + updates)
  {
    SortedIsNewestFirst(ToFeedPosts(posts) + plans + updates, TimeOf(ms));
    SortedIsPermutation(ToFeedPosts(posts) + plans + updates, TimeOf(ms));
  }

  /** As written, 'all' keeps everything. */
  lemma AllKeepsEverything(feed: seq<FeedItem>)
    ensures FilteredFeedAsWritten(feed, AllItems) == feed
  {
    FilterAllPass(feed, ShownAsWritten(AllItems));
  }

  /** As written, 'posts' and 'plans' keep only their own type. */
  lemma PostsAndPlansKeepTheirType(feed: seq<FeedItem>)
    ensures forall i :: 0 <= i < |FilteredFeedAsWritten(feed, Posts)| ==> FilteredFeedAsWritten(feed, Posts)[i].PostItem?
    ensures forall i :: 0 <= i < |FilteredFeedAsWritten(feed, Plans)| ==> FilteredFeedAsWritten(feed, Plans)[i].PlanItem?
  {
    assert FilterName(Posts)[..|FilterName(Posts)| - 1] == "post";
    assert FilterName(Plans)[..|FilterName(Plans)| - 1] == "plan";
  }

  /** As written, 'progress' compares against "progres", which no type equals, so it keeps nothing. */
  lemma {:induction false} ProgressKeepsNothing(feed: seq<FeedItem>)
    ensures FilteredFeedAsWritten(feed, Progress) == []
  {
    assert FilterName(Progress)[..|FilterName(Progress)| - 1] == "progres";
    forall i | 0 <= i < |feed|
      ensures !ShownAsWritten(Progress)(feed[i])
    {
      var t := TypeName(feed[i]);
      assert t != "progres" by {
        if t == "post" || t == "plan" { assert t[4..] == [] && "progres"[4..] != []; }
        else { assert t[1] == 'p' && "progres"[1] == 'r'; }
      }
    }
    FilterNonePass(feed, ShownAsWritten(Progress));
  }

  /** The 'progress' button shows an empty feed even when updates exist. */
  lemma ProgressFilterHidesUpdates(id: string, createdAt: string)
    ensures FilteredFeedAsWritten([UpdateItem(id, createdAt)], Progress) == []
    ensures FilteredFeed([UpdateItem(id, createdAt)], Progress) == [UpdateItem(id, createdAt)]
  {
    ProgressKeepsNothing([UpdateItem(id, createdAt)]);
    assert [UpdateItem(id, createdAt)][1..] == [];
  }

  /** With the intended mapping, each filter keeps exactly the items of its type, in order. */
  lemma {:induction false} FilterKeepsExactlyType(feed: seq<FeedItem>, f: FeedFilter)
    requires f != AllItems
    ensures IsSubsequence(FilteredFeed(feed, f), feed)
    ensures forall i :: 0 <= i < |FilteredFeed(feed, f)| ==> TypeName(FilteredFeed(feed, f)[i]) == IntendedType(f)
    ensures forall i :: 0 <= i < |feed| && TypeName(feed[i]) == IntendedType(f) ==> feed[i] in FilteredFeed(feed, f)
  {
    FilterIsSubsequence(feed, Shown(f));
  }

  /** Posts and plans filter the same way either way. */
  lemma {:induction false} IntendedAgreesOnPostsAndPlans(feed: seq<FeedItem>, f: FeedFilter)
    requires f != Progress
    ensures FilteredFeed(feed, f) == FilteredFeedAsWritten(feed, f)
  {
    if feed != [] {
      IntendedAgreesOnPostsAndPlans(feed[1..], f);
      assert Shown(f)(feed[0]) == ShownAsWritten(f)(feed[0]);
    }
  }

  /** Deleting a post keeps every plan and update, even one that shares the post's id. */
  lemma {:induction false} DeleteKeepsOtherTypes(feed: seq<FeedItem>, postId: string)
    ensures Filter(PostDeleted(feed, postId), (item: FeedItem) => !item.PostItem?) == Filter(feed, (item: FeedItem) => !item.PostItem?)
    ensures IsSubsequence(PostDeleted(feed, postId), feed)
  {
    FilterIsSubsequence(feed, KeptAfterDelete(postId));
    DeleteKeepsOtherTypesAux(feed, postId);
  }

  lemma {:induction false} DeleteKeepsOtherTypesAux(feed: seq<FeedItem>, postId: string)
    ensures Filter(PostDeleted(feed, postId), (item: FeedItem) => !item.PostItem?) == Filter(feed, (item: FeedItem) => !item.PostItem?)
  {
    var notPost := (item: FeedItem) => !item.PostItem?;
    if feed != [] {
      DeleteKeepsOtherTypesAux(feed[1..], postId);
      var head := if KeptAfterDelete(postId)(feed[0]) then [feed[0]] else [];
      assert PostDeleted(feed, postId) == head + PostDeleted(feed[1..], postId);
      FilterConcat(head, PostDeleted(feed[1..], postId), notPost);
      assert Filter(feed, notPost) == (if notPost(feed[0]) then [feed[0]] else []) + Filter(feed[1..], notPost);
      if head != [] {
        assert head[1..] == [];
      }
    }
  }

  /** Updating a post with an id the feed does not carry changes nothing. */
  lemma UpdateUnknownUnchanged(feed: seq<FeedItem>, updated: Post)
    requires forall i :: 0 <= i < |feed| ==> !(feed[i].PostItem? && feed[i].post.id == updated.id)
    ensures PostUpdated(feed, updated) == feed
  {
  }

  /** Updating twice with the same post is updating once. */
  lemma UpdateIdempotent(feed: seq<FeedItem>, updated: Post)
    ensures PostUpdated(PostUpdated(feed, updated), updated) == PostUpdated(feed, updated)
  {
  }
}
