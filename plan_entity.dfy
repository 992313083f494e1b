/**
 * `entity/LearningPlan.java` and `entity/Topic.java`: the stored learning
 * plan and its topics. A plan's completion percentage is derived from its
 * topics' statuses; it is not stored.
 */
module PlanEntity {
  import opened Wrappers
  import opened Arith

  /**
   * A topic's status. `entity/TopicStatus.java` is not part of this model:
   * the code names `COMPLETED` and `IN_PROGRESS`, and `Other` stands for any
   * further constant it may have.
   */
  datatype TopicStatus = Completed | InProgress | Other

  /** A topic; its status may be null. */
  datatype Topic = Topic(id: Option<string>, title: Option<string>, status: Option<TopicStatus>)

  /**
   * A stored plan. Every field a request can leave null is an `Option`;
   * `createdAt` is a clock reading. The plan's resources are not modelled
   * (`entity/Resource.java` is not part of this model).
   */
  datatype LearningPlan = LearningPlan(
    id: Option<string>,
    title: Option<string>,
    description: Option<string>,
    subject: Option<string>,
    createdAt: Option<int>,
    topics: Option<seq<Topic>>,
    estimatedDays: Option<int>,
    followers: Option<int>,
    userId: Option<string>,
    following: Option<bool>)

  /** `isCompleted()`. */
  predicate IsCompleted(t: Topic) {
    t.status == Some(Completed)
  }

  /** `setCompleted(completed)`: completed, or back to in progress. */
  function SetCompleted(t: Topic, completed: bool): (r: Topic)
    ensures r.id == t.id && r.title == t.title
    ensures r.status.Some? && r.status.value != Other
  {
    t.(status := Some(if completed then Completed else InProgress))
  }

  /** The number of completed topics. */
  function CompletedTopics(topics: seq<Topic>): (n: nat)
    ensures n <= |topics|
  {
    if topics == [] then 0 else (if IsCompleted(topics[0]) then 1 else 0) + CompletedTopics(topics[1..])
  }

  /**
   * `getCompletionPercentage()`: 0 without topics, otherwise the completed
   * share in whole percent, rounded down by Java's integer division.
   */
  function CompletionPercentage(p: LearningPlan): (pct: int)
    ensures 0 <= pct <= 100
    ensures p.topics.None? || p.topics.value == [] ==> pct == 0
  {
    if p.topics.None? || p.topics.value == [] then 0
    else
      var topics := p.topics.value;
      PercentBounds(CompletedTopics(topics), |topics|);
      CompletedTopics(topics) * 100 / |topics|
  }

  // -------------------------------------------------------------- lemmas

  /** A share of `total` in whole percent, rounded down, lies in [0, 100]. */
  lemma PercentBounds(completed: nat, total: nat)
    requires 0 < total && completed <= total
    ensures 0 <= completed * 100 / total <= 100
  {
    DivMonotone(completed * 100, total * 100, total);
    QuotientOf(total, 100, 0);
  }

  /** Reading back a status just set gives what was set. */
  lemma SetThenRead(t: Topic, completed: bool)
    ensures IsCompleted(SetCompleted(t, completed)) == completed
    ensures SetCompleted(SetCompleted(t, completed), completed) == SetCompleted(t, completed)
  {
  }

  /** The percentage is 100 exactly when every topic of a non-empty list is completed. */
  lemma {:induction false} HundredIffAllCompleted(p: LearningPlan)
    requires p.topics.Some? && p.topics.value != []
    ensures CompletionPercentage(p) == 100 <==> forall i :: 0 <= i < |p.topics.value| ==> IsCompleted(p.topics.value[i])
  {
    var topics := p.topics.value;
    var c, n := CompletedTopics(topics), |topics|;
    AllCompletedIffFull(topics);
    if c < n {
      DivMonotone(c * 100, n * 99 + (n - 1), n);
      QuotientOf(n, 99, n - 1);
    } else {
      QuotientOf(n, 100, 0);
    }
  }

  lemma {:induction false} AllCompletedIffFull(topics: seq<Topic>)
    ensures CompletedTopics(topics) == |topics| <==> forall i :: 0 <= i < |topics| ==> IsCompleted(topics[i])
  {
    if topics != [] {
      AllCompletedIffFull(topics[1..]);
      assert forall i :: 1 <= i < |topics| ==> topics[1..][i - 1] == topics[i];
    }
  }

  /** The percentage is 0 when no topic is completed. */
  lemma NoneCompletedIsZero(p: LearningPlan)
    requires p.topics.Some? && forall i :: 0 <= i < |p.topics.value| ==> !IsCompleted(p.topics.value[i])
    ensures CompletionPercentage(p) == 0
  {
    NoneCompletedCounts(p.topics.value);
  }

  lemma {:induction false} NoneCompletedCounts(topics: seq<Topic>)
    requires forall i :: 0 <= i < |topics| ==> !IsCompleted(topics[i])
    ensures CompletedTopics(topics) == 0
  {
    if topics != [] {
      assert forall i :: 1 <= i < |topics| ==> topics[1..][i - 1] == topics[i];
      NoneCompletedCounts(topics[1..]);
    }
  }

  /** Marking one topic completed never lowers the percentage. */
  lemma CompletingRaisesPercentage(p: LearningPlan, i: int)
    requires p.topics.Some? && 0 <= i < |p.topics.value|
    ensures var topics := p.topics.value;
      CompletionPercentage(p) <= CompletionPercentage(p.(topics := Some(topics[i := SetCompleted(topics[i], true)])))
  {
    var topics := p.topics.value;
    var after := topics[i := SetCompleted(topics[i], true)];
    CompletingCounts(topics, i);
    DivMonotone(CompletedTopics(topics) * 100, CompletedTopics(after) * 100, |topics|);
  }

  lemma {:induction false} CompletingCounts(topics: seq<Topic>, i: int)
    requires 0 <= i < |topics|
    ensures CompletedTopics(topics) <= CompletedTopics(topics[i := SetCompleted(topics[i], true)])
  {
    var after := topics[i := SetCompleted(topics[i], true)];
    if i > 0 {
      CompletingCounts(topics[1..], i - 1);
      assert after[1..] == topics[1..][i - 1 := SetCompleted(topics[1..][i - 1], true)];
    } else {
      assert after[1..] == topics[1..];
    }
  }
}
