/**
 * `pages/LearningPlanPage.tsx`: one plan in full. The page shows its own
 * sample plan whatever the route's id, keeps a follow flag and a follower
 * count of its own, and derives the progress tab's figures from the plan:
 * topics done, days left, the log of completed topics and the next topic.
 */
module PlanPage {
  import opened Wrappers
  import opened Seqs
  import opened PlanTypes
  import opened PlanCard

  const GrayBar: string := "bg-gray-200"

  const Alex: PlanUser := PlanUser("1", "Alex Johnson", "alexj", Some(AlexPicture))
  const AlexPicture: string := "https://images.pexels.com/photos/614810/pexels-photo-614810.jpeg?auto=compress&cs=tinysrgb&w=100"

  const PageTitle: string := "Mastering Basic Trigonometry"
  const PageDescription: string := "A step-by-step guide to understanding the fundamentals of trigonometry, from the unit circle to trig functions and identities. This plan is designed for high school students or anyone looking to strengthen their math foundations."

  /** The sample plan's six topics, the first two completed. */
  const PageTopics: seq<Topic> := [
    Topic("topic-1", "Understanding the Unit Circle", true),
    Topic("topic-2", "Sine, Cosine, and Tangent Functions", true),
    Topic("topic-3", "Trigonometric Identities", false),
    Topic("topic-4", "Solving Right Triangles", false),
    Topic("topic-5", "Law of Sines and Cosines", false),
    Topic("topic-6", "Real-world Applications", false)]

  const PageResources: seq<Resource> := [
    Resource("resource-1", "Interactive Unit Circle Tool", "https://example.com/unit-circle", Link),
    Resource("resource-2", "Trigonometry Cheat Sheet", "https://example.com/trig-cheatsheet.pdf", Document),
    Resource("resource-3", "Video: Trigonometric Functions Explained", "https://example.com/trig-video", Video),
    Resource("resource-4", "Practice Problems Set", "https://example.com/practice.pdf", Document)]

  /**
   * The page's sample plan, created at `createdAt` (ten days before the
   * clock). The card's plan type has no owner id; the page never reads one,
   * so it is left empty here.
   */
  function SamplePlan(createdAt: string): (p: Plan)
    ensures p.id == "plan-1" && p.completionPercentage == Whole(33) && p.estimatedDays == 14
    ensures p.followers == 87 && !p.following && p.topics == PageTopics
  {
    Plan("plan-1", PageTitle, PageDescription, "Maths", PageTopics, PageResources, Whole(33), 14, 87,
         createdAt, "", false, Alex)
  }

  /** `getProgressColor`: gray until the plan is there, then the card's thresholds. */
  function PageProgressColor(plan: Option<Plan>): (c: string)
    ensures plan.None? ==> c == GrayBar
    ensures plan.Some? ==> c == ProgressColor(plan.value.completionPercentage)
  {
    if plan.None? then GrayBar else ProgressColor(plan.value.completionPercentage)
  }

  /** The "Topics Done" figure: completed topics over all topics. */
  function TopicsDone(topics: seq<Topic>): (r: (nat, nat))
    ensures r.0 <= r.1 == |topics|
  {
    (CompletedCount(topics), |topics|)
  }

  /**
   * The "Days Left" figure, `Math.max(0, est - Math.floor(pct * est / 100))`.
   * Division by the positive 100 rounds down, as `Math.floor` does; a NaN
   * percentage stays NaN through `Math.max`.
   */
  function DaysLeft(pct: Number, estimatedDays: int): (r: Number)
    ensures pct.NaN? <==> r.NaN?
    ensures r.Whole? ==> r.n >= 0
  {
    if pct.NaN? then NaN
    else
      var left := estimatedDays - pct.n * estimatedDays / 100;
      Whole(if left > 0 then left else 0)
  }

  /** The progress log: the completed topics, in plan order. */
  function CompletedLog(topics: seq<Topic>): (log: seq<Topic>)
    ensures |log| <= |topics|
    ensures forall i :: 0 <= i < |log| ==> log[i].completed && log[i] in topics
    ensures forall i :: 0 <= i < |topics| && topics[i].completed ==> topics[i] in log
  {
    Filter(topics, IsDone)
  }

  predicate IsOpen(t: Topic) { !t.completed }

  /** "Up Next": `topics.filter(t => !t.completed).slice(0, 1)`. */
  function UpNext(topics: seq<Topic>): (next: seq<Topic>)
    ensures |next| <= 1
    ensures next != [] ==> !next[0].completed && next[0] in topics
  {
    var open := Filter(topics, IsOpen);
    if open == [] then [] else open[..1]
  }

  class PlanView {
    var plan: Option<Plan>
    var loading: bool
    var following: bool
    var followers: int

    /** Once the plan is there, the count differs from its count by the page's own follow, if any. */
    predicate Valid()
      reads this
    {
      plan.Some? ==> followers - Weight(following) == plan.value.followers - Weight(plan.value.following)
    }

    constructor ()
      ensures Valid()
      ensures plan.None? && loading && !following && followers == 0
    {
      plan := None;
      loading := true;
      following := false;
      followers := 0;
    }

    /** The effect's first step, when the route's id changes: the spinner shows again. */
    method Fetch()
      modifies this`loading
      ensures loading
    {
      loading := true;
    }

    /** The effect's timer firing: the sample plan is shown with its flag and count. */
    method Loaded(createdAt: string)
      modifies this
      ensures Valid()
      ensures plan == Some(SamplePlan(createdAt)) && following == SamplePlan(createdAt).following
      ensures followers == SamplePlan(createdAt).followers && !loading
    {
      var p := SamplePlan(createdAt);
      plan := Some(p);
      following := p.following;
      followers := p.followers;
      loading := false;
    }

    /** `handleFollow`: the count moves by one, with no floor at zero before the plan is there. */
    method HandleFollow()
      requires Valid()
      modifies this`following, this`followers
      ensures Valid()
      ensures (following, followers) == FollowStep(old(following), old(followers))
    {
      following, followers := FollowStep(following, followers).0, FollowStep(following, followers).1;
    }
  }

  // -------------------------------------------------------------- lemmas

  /** All topics are done exactly when the two figures are equal. */
  lemma {:induction false} TopicsDoneFull(topics: seq<Topic>)
    ensures TopicsDone(topics).0 == TopicsDone(topics).1 <==> forall i :: 0 <= i < |topics| ==> topics[i].completed
  {
    if topics != [] {
      TopicsDoneFull(topics[1..]);
      assert forall i :: 1 <= i < |topics| ==> topics[1..][i - 1] == topics[i];
    }
  }

  /** For a percentage in [0, 100] and a non-negative estimate, the days left lie in [0, estimate]: all of them at 0%, none at 100%. */
  lemma DaysLeftBounds(pct: int, estimatedDays: int)
    requires 0 <= pct <= 100 && estimatedDays >= 0
    ensures 0 <= DaysLeft(Whole(pct), estimatedDays).n <= estimatedDays
    ensures pct == 0 ==> DaysLeft(Whole(pct), estimatedDays) == Whole(estimatedDays)
    ensures pct == 100 ==> DaysLeft(Whole(pct), estimatedDays) == Whole(0)
  {
    assert pct * estimatedDays >= 0;
    if pct == 100 {
      assert pct * estimatedDays / 100 == estimatedDays;
    }
  }

  /** More progress never leaves more days. */
  lemma DaysLeftMonotone(a: int, b: int, estimatedDays: int)
    requires a <= b && estimatedDays >= 0
    ensures DaysLeft(Whole(b), estimatedDays).n <= DaysLeft(Whole(a), estimatedDays).n
  {
    assert a * estimatedDays <= b * estimatedDays;
  }

  /** The log holds every completed topic and nothing else, in plan order, as many as "Topics Done" counts. */
  lemma CompletedLogFaithful(topics: seq<Topic>)
    ensures IsSubsequence(CompletedLog(topics), topics)
    ensures |CompletedLog(topics)| == TopicsDone(topics).0
    ensures forall i :: 0 <= i < |topics| && topics[i].completed ==> topics[i] in CompletedLog(topics)
    ensures forall t :: t in CompletedLog(topics) ==> t in topics && t.completed
  {
    FilterIsSubsequence(topics, IsDone);
  }

  /** "Up Next" is empty exactly when all topics are done, and is otherwise the first open topic. */
  lemma UpNextIsFirstOpen(topics: seq<Topic>)
    ensures UpNext(topics) == [] <==> forall i :: 0 <= i < |topics| ==> topics[i].completed
    ensures UpNext(topics) != [] ==>
      var k := FindIndex(topics, IsOpen);
      0 <= k && UpNext(topics) == [topics[k]]
  {
    if FindIndex(topics, IsOpen) >= 0 {
      FirstOpenLeads(topics);
    } else {
      FilterNonePass(topics, IsOpen);
    }
  }

  /** The open topics start with the first open one. */
  lemma FirstOpenLeads(topics: seq<Topic>)
    requires FindIndex(topics, IsOpen) >= 0
    ensures var open := Filter(topics, IsOpen);
      open != [] && open[0] == topics[FindIndex(topics, IsOpen)]
  {
    var k := FindIndex(topics, IsOpen);
    assert topics == topics[..k] + topics[k..];
    FilterNonePass(topics[..k], IsOpen);
    FilterConcat(topics[..k], topics[k..], IsOpen);
    assert topics[k..][0] == topics[k];
  }
}
