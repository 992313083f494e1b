/**
 * `services/api/mockData.ts`: the in-memory table of learning plans the
 * client falls back on when the server cannot be reached, and the helpers
 * that read and change it. The table is the class `MockTable`; its plans are
 * values, so the aliasing of plan objects between callers is not modelled.
 */
module MockData {
  import opened Wrappers
  import opened Seqs
  import opened PlanTypes

  const CurrentUserId: string := "1"

  const Alex: PlanUser := PlanUser(CurrentUserId, "Alex Johnson", "alexj",
    Some("https://images.pexels.com/photos/614810/pexels-photo-614810.jpeg?auto=compress&cs=tinysrgb&w=100"))
  const Sarah: PlanUser := PlanUser("2", "Sarah Miller", "sarahm",
    Some("https://images.pexels.com/photos/1239291/pexels-photo-1239291.jpeg?auto=compress&cs=tinysrgb&w=100"))

  const MathResources: seq<Resource> := [
    Resource("resource-1", "Interactive Unit Circle Tool", "https://www.mathsisfun.com/algebra/unit-circle.html", Link),
    Resource("resource-2", "Trigonometry Cheat Sheet", "https://www.mathsisfun.com/algebra/trigonometry-cheat-sheet.html", Document),
    Resource("resource-3", "Khan Academy: Trigonometry", "https://www.khanacademy.org/math/trigonometry", Video)]

  const ProgrammingResources: seq<Resource> := [
    Resource("resource-4", "JavaScript Basics", "https://developer.mozilla.org/en-US/docs/Web/JavaScript/Guide", Link),
    Resource("resource-5", "React Documentation", "https://reactjs.org/docs/getting-started.html", Document),
    Resource("resource-6", "Full Stack Web Development", "https://www.freecodecamp.org/", Video)]

  const MathTopics: seq<Topic> := [
    Topic("topic-1", "Understanding the Unit Circle", true),
    Topic("topic-2", "Sine, Cosine, and Tangent Functions", true),
    Topic("topic-3", "Trigonometric Identities", false),
    Topic("topic-4", "Solving Right Triangles", false)]

  const ProgrammingTopics: seq<Topic> := [
    Topic("topic-5", "JavaScript Fundamentals", true),
    Topic("topic-6", "React Components and Props", true),
    Topic("topic-7", "State Management with Hooks", false),
    Topic("topic-8", "API Integration", false)]

  const TrigDescription: string :=
    "A step-by-step guide to understanding the fundamentals of trigonometry, from the unit circle to trig functions and identities. This plan is designed for high school students or anyone looking to strengthen their math foundations."
  const ReactDescription: string :=
    "Learn modern web development using React. This comprehensive plan covers everything from JavaScript basics to building complex applications with React hooks and state management."

  /** The first sample plan, the current user's, created `createdAt` (ten days before start-up). */
  function PlanOne(createdAt: string): (p: Plan)
    ensures p.id == "plan-1" && p.userId == CurrentUserId && p.topics == MathTopics
    ensures p.completionPercentage == Whole(50) && p.followers == 87 && !p.following
  {
    Plan("plan-1", "Mastering Basic Trigonometry", TrigDescription, "Maths", MathTopics, MathResources,
         Whole(50), 14, 87, createdAt, CurrentUserId, false, Alex)
  }

  /** The second sample plan, user 2's, created `createdAt` (five days before start-up). */
  function PlanTwo(createdAt: string): (p: Plan)
    ensures p.id == "plan-2" && p.userId == "2" && p.topics == ProgrammingTopics
    ensures p.completionPercentage == Whole(33) && p.followers == 42 && p.following
  {
    Plan("plan-2", "Web Development with React", ReactDescription, "Technology", ProgrammingTopics, ProgrammingResources,
         Whole(33), 21, 42, createdAt, "2", true, Sarah)
  }

  /** `mockLearningPlans` as the module is loaded. */
  function InitialPlans(tenDaysAgo: string, fiveDaysAgo: string): (ps: seq<Plan>)
    ensures |ps| == 2 && ps[0].id != ps[1].id
    ensures ps[0].userId == CurrentUserId != ps[1].userId
  {
    [PlanOne(tenDaysAgo), PlanTwo(fiveDaysAgo)]
  }

  function HasId(planId: string): Plan -> bool {
    (p: Plan) => p.id == planId
  }

  function OwnedBy(userId: string): Plan -> bool {
    (p: Plan) => p.userId == userId
  }

  /** `getByUserId`: the plans of one user, in table order. */
  function GetByUserId(plans: seq<Plan>, userId: string): (r: seq<Plan>)
    ensures forall i :: 0 <= i < |r| ==> r[i] in plans && r[i].userId == userId
    ensures forall i :: 0 <= i < |plans| && plans[i].userId == userId ==> plans[i] in r
  {
    Filter(plans, OwnedBy(userId))
  }

  /** `getById`: the first plan with the id, if any. */
  function GetById(plans: seq<Plan>, planId: string): (r: Option<Plan>)
    ensures r.None? <==> forall i :: 0 <= i < |plans| ==> plans[i].id != planId
    ensures r.Some? ==>
      exists k :: 0 <= k < |plans| && r.value == plans[k] && r.value.id == planId &&
        forall j :: 0 <= j < k ==> plans[j].id != planId
  {
    var k := FindIndex(plans, HasId(planId));
    if k < 0 then None else Some(plans[k])
  }

  /** A plan after `toggleFollow`: unfollowing never takes the count below zero. */
  function Toggled(p: Plan, following: bool): (r: Plan)
    ensures r == p.(following := following, followers := r.followers)
    ensures following ==> r.followers == p.followers + 1
    ensures !following ==> r.followers == if p.followers >= 1 then p.followers - 1 else 0
  {
    p.(following := following, followers := if following then p.followers + 1 else Max0(p.followers - 1))
  }

  /** `Math.max(0, n)`. */
  function Max0(n: int): (r: int)
    ensures r >= 0 && r >= n && (r == 0 || r == n)
  {
    if n > 0 then n else 0
  }

  /** A plan after `updateTopic`: the topic is marked and the percentage recomputed from all topics. */
  function WithTopic(p: Plan, topicId: string, completed: bool): (r: Plan)
    ensures r == p.(topics := SetTopic(p.topics, topicId, completed), completionPercentage := r.completionPercentage)
    ensures r.completionPercentage == RoundedPercent(CompletedCount(r.topics), |r.topics|)
  {
    var topics := SetTopic(p.topics, topicId, completed);
    p.(topics := topics, completionPercentage := RoundedPercent(CompletedCount(topics), |topics|))
  }

  /** The table after changing the first plan with the id by `f`; without one, the table is unchanged. */
  function ChangeFirst(plans: seq<Plan>, planId: string, f: Plan -> Plan): (r: seq<Plan>)
    ensures |r| == |plans|
  {
    var k := FindIndex(plans, HasId(planId));
    if k < 0 then plans else plans[k := f(plans[k])]
  }

  function Follow(following: bool): Plan -> Plan {
    (p: Plan) => Toggled(p, following)
  }

  function MarkTopic(topicId: string, completed: bool): Plan -> Plan {
    (p: Plan) => WithTopic(p, topicId, completed)
  }

  class MockTable {
    /** `mockLearningPlans`. */
    var plans: seq<Plan>

    constructor (tenDaysAgo: string, fiveDaysAgo: string)
      ensures plans == InitialPlans(tenDaysAgo, fiveDaysAgo)
    {
      plans := InitialPlans(tenDaysAgo, fiveDaysAgo);
    }

    /** `toggleFollow(planId, following)`: the changed plan, or nothing for an unknown id. */
    method ToggleFollow(planId: string, following: bool) returns (r: Option<Plan>)
      modifies this
      ensures plans == ChangeFirst(old(plans), planId, Follow(following))
      ensures r == GetById(plans, planId)
      ensures r.None? <==> GetById(old(plans), planId).None?
    {
      var k := FindIndex(plans, HasId(planId));
      if k < 0 {
        return None;
      }
      var plan := Toggled(plans[k], following);
      var before := plans;
      plans := plans[k := plan];
      SameIdsSameIndex(before, plans, planId);
      r := Some(plan);
    }

    /** `updateTopic(planId, topicId, completed)`: the changed plan, or nothing for an unknown id. */
    method UpdateTopic(planId: string, topicId: string, completed: bool) returns (r: Option<Plan>)
      modifies this
      ensures plans == ChangeFirst(old(plans), planId, MarkTopic(topicId, completed))
      ensures r == GetById(plans, planId)
      ensures r.None? <==> GetById(old(plans), planId).None?
    {
      var k := FindIndex(plans, HasId(planId));
      if k < 0 {
        return None;
      }
      var plan := WithTopic(plans[k], topicId, completed);
      var before := plans;
      plans := plans[k := plan];
      SameIdsSameIndex(before, plans, planId);
      r := Some(plan);
    }

    /** `mockLearningPlans.push(plan)`. */
    method Push(plan: Plan)
      modifies this
      ensures plans == old(plans) + [plan]
    {
      plans := plans + [plan];
    }

    /** `mockLearningPlans[index] = plan`. */
    method Put(index: nat, plan: Plan)
      requires index < |plans|
      modifies this
      ensures plans == old(plans)[index := plan]
    {
      plans := plans[index := plan];
    }

    /** `mockLearningPlans.splice(index, 1)`. */
    method Splice(index: nat)
      requires index < |plans|
      modifies this
      ensures plans == RemoveAt(old(plans), index)
    {
      plans := RemoveAt(plans, index);
    }
  }

  // -------------------------------------------------------------- lemmas

  /** Two tables with the same ids in the same order find the same first plan for every id. */
  lemma SameIdsSameIndex(ps: seq<Plan>, qs: seq<Plan>, planId: string)
    requires |ps| == |qs| && forall i :: 0 <= i < |ps| ==> ps[i].id == qs[i].id
    ensures FindIndex(ps, HasId(planId)) == FindIndex(qs, HasId(planId))
  {
    var a := FindIndex(ps, HasId(planId));
    var b := FindIndex(qs, HasId(planId));
    if a >= 0 {
      assert HasId(planId)(qs[a]);
    }
    if b >= 0 {
      assert HasId(planId)(ps[b]);
    }
  }

  /** Following then unfollowing a plan with a sane follower count restores the count. */
  lemma FollowThenUnfollow(p: Plan)
    requires p.followers >= 0
    ensures Toggled(Toggled(p, true), false) == p.(following := false)
  {
  }

  /** The follower count never goes negative once it is not. */
  lemma FollowersStayNonNegative(p: Plan, following: bool)
    requires p.followers >= 0
    ensures Toggled(p, following).followers >= 0
  {
  }

  /** Unfollowing a plan nobody follows leaves the count at zero. */
  lemma UnfollowAtZero(p: Plan)
    requires p.followers == 0
    ensures Toggled(p, false).followers == 0
  {
  }

  /** After `updateTopic`, a plan with topics has a percentage in [0, 100]; a plan without has NaN. */
  lemma UpdatedPercentage(p: Plan, topicId: string, completed: bool)
    ensures var r := WithTopic(p, topicId, completed);
      (p.topics == [] ==> r.completionPercentage == NaN) &&
      (p.topics != [] ==> r.completionPercentage.Whole? && 0 <= r.completionPercentage.n <= 100)
  {
    var r := WithTopic(p, topicId, completed);
    if p.topics != [] {
      RoundedPercentBounds(CompletedCount(r.topics), |r.topics|);
    }
  }

  /** A toggled plan is what a later `getById` finds; ids never change. */
  lemma {:induction false} ToggleThenGet(plans: seq<Plan>, planId: string, following: bool)
    requires GetById(plans, planId).Some?
    ensures GetById(ChangeFirst(plans, planId, Follow(following)), planId) == Some(Toggled(GetById(plans, planId).value, following))
  {
    var k := FindIndex(plans, HasId(planId));
    var after := plans[k := Toggled(plans[k], following)];
    SameIdsSameIndex(plans, after, planId);
  }

  /** The sample table holds exactly one plan of the current user, plan-1. */
  lemma CurrentUserOwnsPlanOne(tenDaysAgo: string, fiveDaysAgo: string)
    ensures var ps := InitialPlans(tenDaysAgo, fiveDaysAgo);
      GetByUserId(ps, CurrentUserId) == [ps[0]]
  {
    var p1, p2 := PlanOne(tenDaysAgo), PlanTwo(fiveDaysAgo);
    assert p2.userId != CurrentUserId;
    assert InitialPlans(tenDaysAgo, fiveDaysAgo) == [p1] + [p2];
    FilterConcat([p1], [p2], OwnedBy(CurrentUserId));
  }
}
