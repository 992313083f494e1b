/**
 * The learning-plan records of `services/api/learningPlans.ts` (`Resource`,
 * `Topic`, `LearningPlanUser`, `LearningPlan`, `CreateLearningPlanRequest`)
 * and the topic arithmetic shared by the mock table and the plan pages.
 */
module PlanTypes {
  import opened Wrappers
  import opened Seqs
  import opened Arith

  datatype ResourceKind = Link | Document | Video

  function KindName(k: ResourceKind): string {
    match k
    case Link => "link"
    case Document => "document"
    case Video => "video"
  }

  datatype Resource = Resource(id: string, title: string, url: string, kind: ResourceKind)

  datatype Topic = Topic(id: string, title: string, completed: bool)

  datatype PlanUser = PlanUser(id: string, name: string, username: string, profilePicture: Option<string>)

  /** A JavaScript number that is a whole number, or NaN. */
  datatype Number = Whole(n: int) | NaN

  datatype Plan = Plan(
    id: string,
    title: string,
    description: string,
    subject: string,
    topics: seq<Topic>,
    resources: seq<Resource>,
    completionPercentage: Number,
    estimatedDays: int,
    followers: int,
    createdAt: string,
    userId: string,
    following: bool,
    user: PlanUser)

  datatype CreateRequest = CreateRequest(
    title: string,
    description: string,
    subject: string,
    topics: seq<Topic>,
    resources: seq<Resource>,
    estimatedDays: int)

  /** A `Partial<LearningPlan>`: every field may be missing. */
  datatype PlanPatch = PlanPatch(
    id: Option<string>,
    title: Option<string>,
    description: Option<string>,
    subject: Option<string>,
    topics: Option<seq<Topic>>,
    resources: Option<seq<Resource>>,
    completionPercentage: Option<Number>,
    estimatedDays: Option<int>,
    followers: Option<int>,
    createdAt: Option<string>,
    userId: Option<string>,
    following: Option<bool>,
    user: Option<PlanUser>)

  /** `{ ...existing, ...patch }`: each field the patch carries replaces the existing one. */
  function Merge(p: Plan, patch: PlanPatch): (r: Plan)
    ensures r.id == patch.id.GetOr(p.id) && r.title == patch.title.GetOr(p.title)
    ensures r.description == patch.description.GetOr(p.description) && r.subject == patch.subject.GetOr(p.subject)
    ensures r.topics == patch.topics.GetOr(p.topics) && r.resources == patch.resources.GetOr(p.resources)
    ensures r.completionPercentage == patch.completionPercentage.GetOr(p.completionPercentage)
    ensures r.estimatedDays == patch.estimatedDays.GetOr(p.estimatedDays) && r.followers == patch.followers.GetOr(p.followers)
    ensures r.createdAt == patch.createdAt.GetOr(p.createdAt) && r.userId == patch.userId.GetOr(p.userId)
    ensures r.following == patch.following.GetOr(p.following) && r.user == patch.user.GetOr(p.user)
  {
    Plan(patch.id.GetOr(p.id), patch.title.GetOr(p.title), patch.description.GetOr(p.description),
         patch.subject.GetOr(p.subject), patch.topics.GetOr(p.topics), patch.resources.GetOr(p.resources),
         patch.completionPercentage.GetOr(p.completionPercentage), patch.estimatedDays.GetOr(p.estimatedDays),
         patch.followers.GetOr(p.followers), patch.createdAt.GetOr(p.createdAt), patch.userId.GetOr(p.userId),
         patch.following.GetOr(p.following), patch.user.GetOr(p.user))
  }

  function NoChanges(): PlanPatch {
    PlanPatch(None, None, None, None, None, None, None, None, None, None, None, None, None)
  }

  predicate IsDone(t: Topic) { t.completed }

  /** The number of completed topics. */
  function CompletedCount(topics: seq<Topic>): (n: nat)
    ensures n <= |topics|
  {
    |Filter(topics, IsDone)|
  }

  /** `topics.map(t => t.id === topicId ? { ...t, completed } : t)`. */
  function SetTopic(topics: seq<Topic>, topicId: string, completed: bool): (r: seq<Topic>)
    ensures |r| == |topics|
    ensures forall i :: 0 <= i < |r| ==>
      r[i] == if topics[i].id == topicId then topics[i].(completed := completed) else topics[i]
  {
    if topics == [] then []
    else
      var head := if topics[0].id == topicId then topics[0].(completed := completed) else topics[0];
      [head] + SetTopic(topics[1..], topicId, completed)
  }

  /**
   * `Math.round(completed / total * 100)` on exact rationals: the nearest
   * whole percentage, halves rounded up; `0 / 0` is NaN.
   */
  function RoundedPercent(completed: nat, total: nat): (r: Number)
    ensures total == 0 <==> r.NaN?
  {
    if total == 0 then NaN else Whole((200 * completed + total) / (2 * total))
  }

  // -------------------------------------------------------------- lemmas

  /** The rounded percentage is the nearest one: it is off by at most half a percent, halves going up. */
  lemma RoundedPercentIsNearest(completed: nat, total: nat)
    requires total > 0
    ensures var r := RoundedPercent(completed, total).n;
      -(total as int) <= 2 * (100 * completed - r * total) < total
  {
    var r := RoundedPercent(completed, total).n;
    var q := 200 * completed + total;
    assert q == (2 * total) * r + q % (2 * total);
  }

  /** With no more completed topics than topics, the rounded percentage lies in [0, 100]. */
  lemma RoundedPercentBounds(completed: nat, total: nat)
    requires 0 < total && completed <= total
    ensures 0 <= RoundedPercent(completed, total).n <= 100
  {
    var d := 2 * total;
    DivMonotone(200 * completed + total, d * 100 + total, d);
    QuotientOf(d, 100, total);
    DivMonotone(0, 200 * completed + total, d);
  }

  /** Marking a topic changes only completion flags: ids, titles and order stay. */
  lemma SetTopicKeepsOutline(topics: seq<Topic>, topicId: string, completed: bool)
    ensures var r := SetTopic(topics, topicId, completed);
      forall i :: 0 <= i < |r| ==> r[i].id == topics[i].id && r[i].title == topics[i].title
  {
  }

  /** After marking, every topic with that id has the new flag and every other topic its old one. */
  lemma SetTopicSets(topics: seq<Topic>, topicId: string, completed: bool)
    ensures var r := SetTopic(topics, topicId, completed);
      forall i :: 0 <= i < |r| ==> r[i].completed == (if topics[i].id == topicId then completed else topics[i].completed)
  {
  }

  /** Marking a topic the same way twice is marking it once. */
  lemma {:induction false} SetTopicIdempotent(topics: seq<Topic>, topicId: string, completed: bool)
    ensures SetTopic(SetTopic(topics, topicId, completed), topicId, completed) == SetTopic(topics, topicId, completed)
  {
    if topics != [] {
      SetTopicIdempotent(topics[1..], topicId, completed);
      var once := SetTopic(topics, topicId, completed);
      assert once[1..] == SetTopic(topics[1..], topicId, completed);
    }
  }

  /** Marking all of a plan's topics completed gives 100 percent. */
  lemma {:induction false} AllDoneIsHundred(topics: seq<Topic>)
    requires topics != []
    requires forall i :: 0 <= i < |topics| ==> topics[i].completed
    ensures RoundedPercent(CompletedCount(topics), |topics|) == Whole(100)
  {
    FilterAllPass(topics, IsDone);
    var n := |topics|;
    QuotientOf(2 * n, 100, n);
    assert 200 * n + n == (2 * n) * 100 + n;
  }
}
