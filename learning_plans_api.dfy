/**
 * The learning-plan calls of `services/api/learningPlans.ts`. Each call asks
 * the server first; when the request fails it falls back on the mock table,
 * which it may change. What the server answers is a parameter (`Remote`);
 * the clock (`Date.now()` and `toISOString()`) is a parameter too.
 */
module LearningPlansApi {
  import opened Wrappers
  import opened Storage
  import opened Seqs
  import opened Text
  import opened PlanTypes
  import opened MockData

  /** What an axios call gives: the response data, or a rejection of any kind. */
  datatype Remote<T> = Ok(data: T) | Down

  /** Why a call rejects after its fallback. */
  datatype Failure =
    | NotFound(planId: string)
    /** `mockLearningPlans[0].user` on an empty table: a `TypeError`. */
    | NoSamplePlan

  datatype Result<T> = Success(value: T) | Failed(why: Failure)

  function Message(f: Failure): string {
    match f
    case NotFound(planId) => "Learning plan with ID " + planId + " not found"
    case NoSamplePlan => "Cannot read properties of undefined (reading 'user')"
  }

  /**
   * `getCurrentUserId()`: the `id` of the JSON object under the `user` key;
   * "1" when the key is missing, empty or does not hold an object. An object
   * without an `id` answers `undefined` (`None`).
   */
  function GetCurrentUserId(s: Store): (r: Option<string>)
    ensures (s.planUser.Some? && s.planUser.value.Json?) ==> r == s.planUser.value.obj.id
    ensures !(s.planUser.Some? && s.planUser.value.Json?) ==> r == Some(CurrentUserId)
  {
    if Present(s.planUser) then
      match s.planUser.value
      case Json(obj) => obj.id
      case Garbled(_) => Some(CurrentUserId)
    else Some(CurrentUserId)
  }

  /** `getAllLearningPlans()`: the server's list, or the whole mock table. */
  method GetAllLearningPlans(table: MockTable, remote: Remote<seq<Plan>>) returns (r: seq<Plan>)
    ensures remote.Ok? ==> r == remote.data
    ensures remote.Down? ==> r == table.plans
  {
    if remote.Ok? {
      return remote.data;
    }
    r := table.plans;
  }

  /** `getLearningPlanById(planId)`: the server's plan, or the mock plan with that id. */
  method GetLearningPlanById(table: MockTable, remote: Remote<Plan>, planId: string) returns (r: Result<Plan>)
    ensures remote.Ok? ==> r == Success(remote.data)
    ensures remote.Down? && GetById(table.plans, planId).Some? ==> r == Success(GetById(table.plans, planId).value)
    ensures remote.Down? && GetById(table.plans, planId).None? ==> r == Failed(NotFound(planId))
  {
    if remote.Ok? {
      return Success(remote.data);
    }
    var plan := GetById(table.plans, planId);
    if plan.None? {
      return Failed(NotFound(planId));
    }
    r := Success(plan.value);
  }

  /** `getUserLearningPlans(userId)`: the server's list, or the user's mock plans. */
  method GetUserLearningPlans(table: MockTable, remote: Remote<seq<Plan>>, userId: string) returns (r: seq<Plan>)
    ensures remote.Ok? ==> r == remote.data
    ensures remote.Down? ==> r == GetByUserId(table.plans, userId)
  {
    if remote.Ok? {
      return remote.data;
    }
    r := GetByUserId(table.plans, userId);
  }

  /** The plan `createLearningPlan` builds offline: nothing done, no followers, owned by `userId`. */
  function NewPlan(userId: string, req: CreateRequest, now: nat, iso: string, user: PlanUser): (p: Plan)
    ensures p.id == "plan-" + NatToString(now) && p.userId == userId && p.user == user && p.createdAt == iso
    ensures p.title == req.title && p.description == req.description && p.subject == req.subject
    ensures p.topics == req.topics && p.resources == req.resources && p.estimatedDays == req.estimatedDays
    ensures p.completionPercentage == Whole(0) && p.followers == 0 && !p.following
  {
    Plan("plan-" + NatToString(now), req.title, req.description, req.subject, req.topics, req.resources,
         Whole(0), req.estimatedDays, 0, iso, userId, false, user)
  }

  /**
   * `createLearningPlan(userId, plan)`: offline, the new plan borrows the
   * first mock plan's user and is appended to the table.
   */
  method CreateLearningPlan(table: MockTable, remote: Remote<Plan>, userId: string, req: CreateRequest, now: nat, iso: string)
    returns (r: Result<Plan>)
    modifies table
    ensures remote.Ok? ==> r == Success(remote.data) && table.plans == old(table.plans)
    ensures remote.Down? && old(table.plans) == [] ==> r == Failed(NoSamplePlan) && table.plans == []
    ensures remote.Down? && old(table.plans) != [] ==>
      var p := NewPlan(userId, req, now, iso, old(table.plans)[0].user);
      r == Success(p) && table.plans == old(table.plans) + [p]
  {
    if remote.Ok? {
      return Success(remote.data);
    }
    if table.plans == [] {
      return Failed(NoSamplePlan);
    }
    var plan := NewPlan(userId, req, now, iso, table.plans[0].user);
    table.Push(plan);
    r := Success(plan);
  }

  /** `updateLearningPlan(userId, planId, plan)`: offline, the patch is spread over the mock plan, which is replaced. */
  method UpdateLearningPlan(table: MockTable, remote: Remote<Plan>, planId: string, patch: PlanPatch) returns (r: Result<Plan>)
    modifies table
    ensures remote.Ok? ==> r == Success(remote.data) && table.plans == old(table.plans)
    ensures remote.Down? && GetById(old(table.plans), planId).None? ==>
      r == Failed(NotFound(planId)) && table.plans == old(table.plans)
    ensures remote.Down? && GetById(old(table.plans), planId).Some? ==>
      var updated := Merge(GetById(old(table.plans), planId).value, patch);
      r == Success(updated) && table.plans == ChangeFirst(old(table.plans), planId, (p: Plan) => updated)
  {
    if remote.Ok? {
      return Success(remote.data);
    }
    var existing := GetById(table.plans, planId);
    if existing.None? {
      return Failed(NotFound(planId));
    }
    var updated := Merge(existing.value, patch);
    var index := FindIndex(table.plans, HasId(planId));
    if index != -1 {
      table.Put(index, updated);
    }
    r := Success(updated);
  }

  /** `deleteLearningPlan(userId, planId)`: offline, the first mock plan with the id is spliced out. */
  method DeleteLearningPlan(table: MockTable, remote: Remote<()>, planId: string)
    modifies table
    ensures remote.Ok? ==> table.plans == old(table.plans)
    ensures remote.Down? ==>
      table.plans == RemoveIndex(old(table.plans), FindIndex(old(table.plans), HasId(planId)))
  {
    if remote.Ok? {
      return;
    }
    var index := FindIndex(table.plans, HasId(planId));
    if index != -1 {
      table.Splice(index);
    }
  }

  /** `followLearningPlan` (`following`) and `unfollowLearningPlan` (not `following`). */
  method SetFollowing(table: MockTable, remote: Remote<Plan>, planId: string, following: bool) returns (r: Result<Plan>)
    modifies table
    ensures remote.Ok? ==> r == Success(remote.data) && table.plans == old(table.plans)
    ensures remote.Down? ==> table.plans == ChangeFirst(old(table.plans), planId, Follow(following))
    ensures remote.Down? && GetById(old(table.plans), planId).None? ==> r == Failed(NotFound(planId))
    ensures remote.Down? && GetById(old(table.plans), planId).Some? ==>
      r == Success(Toggled(GetById(old(table.plans), planId).value, following))
  {
    if remote.Ok? {
      return Success(remote.data);
    }
    ghost var before := table.plans;
    var plan := table.ToggleFollow(planId, following);
    if plan.None? {
      return Failed(NotFound(planId));
    }
    ToggleThenGet(before, planId, following);
    r := Success(plan.value);
  }

  /** The request `markTopicAsCompleted` sends: the plan's fields with the topic marked, but no percentage and no user. */
  function TopicPatch(p: Plan, topicId: string, completed: bool): (patch: PlanPatch)
    ensures patch.completionPercentage.None? && patch.user.None?
    ensures patch.topics == Some(SetTopic(p.topics, topicId, completed))
    ensures Merge(p, patch) == p.(topics := SetTopic(p.topics, topicId, completed))
  {
    PlanPatch(Some(p.id), Some(p.title), Some(p.description), Some(p.subject), Some(SetTopic(p.topics, topicId, completed)),
              Some(p.resources), None, Some(p.estimatedDays), Some(p.followers), Some(p.createdAt), Some(p.userId),
              Some(p.following), None)
  }

  /**
   * `markTopicAsCompleted(userId, planId, topicId, completed)`: `fetch` is
   * what the server answers to the plan's GET, `update` to the PUT. Only a
   * failed lookup reaches the `updateTopic` fallback: the update's promise is
   * returned without being awaited, so its rejection is not caught here.
   */
  method MarkTopicAsCompleted(table: MockTable, fetch: Remote<Plan>, update: Remote<Plan>, planId: string, topicId: string, completed: bool)
    returns (r: Result<Plan>)
    modifies table
    ensures fetch.Down? && GetById(old(table.plans), planId).None? ==>
      r == Failed(NotFound(planId)) && table.plans == old(table.plans)
    ensures fetch.Ok? && update.Ok? ==> r == Success(update.data) && table.plans == old(table.plans)
    ensures fetch.Ok? && update.Down? && GetById(old(table.plans), planId).None? ==>
      r == Failed(NotFound(planId)) && table.plans == old(table.plans)
    ensures (fetch.Down? || update.Down?) && GetById(old(table.plans), planId).Some? ==>
      var current := if fetch.Ok? then fetch.data else GetById(old(table.plans), planId).value;
      var sent := Merge(GetById(old(table.plans), planId).value, TopicPatch(current, topicId, completed));
      (update.Ok? ==> r == Success(update.data) && table.plans == old(table.plans)) &&
      (update.Down? ==> r == Success(sent) && table.plans == ChangeFirst(old(table.plans), planId, (p: Plan) => sent))
  {
    var current := GetLearningPlanById(table, fetch, planId);
    if current.Failed? {
      var plan := table.UpdateTopic(planId, topicId, completed);
      // `getLearningPlanById` fails only offline and only when the table
      // lacks the plan, so `updateTopic` finds nothing either.
      assert plan.None?;
      return Failed(NotFound(planId));
    }
    var request := TopicPatch(current.value, topicId, completed);
    r := UpdateLearningPlan(table, update, planId, request);
  }

  // -------------------------------------------------------------- lemmas

  /** An offline update with an empty patch stores the plan unchanged. */
  lemma EmptyPatchChangesNothing(p: Plan)
    ensures Merge(p, NoChanges()) == p
  {
  }

  /** Offline, a created plan is found by its id afterwards unless an older plan has the same id. */
  lemma {:induction false} CreatedPlanIsFound(plans: seq<Plan>, p: Plan)
    requires GetById(plans, p.id).None?
    ensures GetById(plans + [p], p.id) == Some(p)
  {
    var k := FindIndex(plans + [p], HasId(p.id));
    assert HasId(p.id)((plans + [p])[|plans|]);
    assert k == |plans|;
  }

  /** Offline, a created plan is listed among its owner's plans. */
  lemma CreatedPlanIsListed(plans: seq<Plan>, p: Plan)
    ensures p in GetByUserId(plans + [p], p.userId)
  {
    assert (plans + [p])[|plans|] == p;
  }

  /** Offline, deleting an unknown plan leaves the table alone; deleting a known one shortens it by one. */
  lemma DeleteSize(plans: seq<Plan>, planId: string)
    ensures var after := RemoveIndex(plans, FindIndex(plans, HasId(planId)));
      (GetById(plans, planId).None? ==> after == plans) &&
      (GetById(plans, planId).Some? ==> |after| == |plans| - 1)
  {
  }

  /**
   * Offline, marking a topic goes through the update fallback, whose patch
   * carries no percentage: the topics change and the stored percentage stays.
   */
  lemma OfflineMarkKeepsPercentage(plans: seq<Plan>, planId: string, topicId: string, completed: bool)
    requires GetById(plans, planId).Some?
    ensures var p := GetById(plans, planId).value;
      var sent := Merge(p, TopicPatch(p, topicId, completed));
      sent.topics == SetTopic(p.topics, topicId, completed) && sent.completionPercentage == p.completionPercentage
  {
  }

  /** Marking topic-3 of the trigonometry topics done. */
  lemma {:induction false} MarkedMathTopics()
    ensures SetTopic(MathTopics, "topic-3", true) ==
      [MathTopics[0], MathTopics[1], MathTopics[2].(completed := true), MathTopics[3]]
  {
    var ts := MathTopics;
    assert ts[3..][1..] == [];
    assert SetTopic(ts[3..], "topic-3", true) == [ts[3]];
    assert ts[2..][1..] == ts[3..];
    assert SetTopic(ts[2..], "topic-3", true) == [ts[2].(completed := true), ts[3]];
    assert ts[1..][1..] == ts[2..];
    assert SetTopic(ts[1..], "topic-3", true) == [ts[1], ts[2].(completed := true), ts[3]];
  }

  /** Three of the four marked topics are done. */
  lemma {:induction false} ThreeOfFourDone(t: seq<Topic>)
    requires |t| == 4 && t[0].completed && t[1].completed && t[2].completed && !t[3].completed
    ensures CompletedCount(t) == 3
  {
    assert t == [t[0]] + [t[1]] + [t[2]] + [t[3]];
    FilterConcat([t[0]] + [t[1]] + [t[2]], [t[3]], IsDone);
    FilterConcat([t[0]] + [t[1]], [t[2]], IsDone);
    FilterConcat([t[0]], [t[1]], IsDone);
  }

  /**
   * Marking a topic whose change leaves three of four topics done: the
   * offline fallback keeps the stored 50 percent, `updateTopic` gives 75.
   */
  lemma OfflineMarkVersusUpdate(p: Plan, topicId: string)
    requires CompletedCount(SetTopic(p.topics, topicId, true)) == 3 && |SetTopic(p.topics, topicId, true)| == 4
    requires p.completionPercentage == Whole(50)
    ensures var sent := Merge(p, TopicPatch(p, topicId, true));
      CompletedCount(sent.topics) == 3 && |sent.topics| == 4 && sent.completionPercentage == Whole(50) &&
      WithTopic(p, topicId, true).completionPercentage == Whole(75)
  {
    SentTopics(p, topicId, true);
    PercentOfMarked(p, topicId, true, 3, 4);
    assert RoundedPercent(3, 4) == Whole(75);
  }

  /** In a plan with the trigonometry topics, marking topic-3 done leaves three of four done. */
  lemma MarkedPlanCount(p: Plan)
    requires p.topics == MathTopics
    ensures var t := SetTopic(p.topics, "topic-3", true); |t| == 4 && CompletedCount(t) == 3
  {
    MarkedMathCount();
  }

  /** `updateTopic`'s percentage is the rounded share of the changed topics that are done. */
  lemma PercentOfMarked(p: Plan, topicId: string, completed: bool, c: nat, n: nat)
    requires CompletedCount(SetTopic(p.topics, topicId, completed)) == c && |SetTopic(p.topics, topicId, completed)| == n
    ensures WithTopic(p, topicId, completed).completionPercentage == RoundedPercent(c, n)
  {
  }

  /** Marking topic-3 of the trigonometry topics done leaves three of four done. */
  lemma MarkedMathCount()
    ensures var t := SetTopic(MathTopics, "topic-3", true); |t| == 4 && CompletedCount(t) == 3
  {
    MarkedMathTopics();
    ThreeOfFourDone(SetTopic(MathTopics, "topic-3", true));
  }

  /** The plan the offline fallback sends: the changed topics, every other field as it was. */
  lemma SentTopics(p: Plan, topicId: string, completed: bool)
    ensures var sent := Merge(p, TopicPatch(p, topicId, completed));
      sent.topics == SetTopic(p.topics, topicId, completed) && sent.completionPercentage == p.completionPercentage
  {
    var sent := Merge(p, TopicPatch(p, topicId, completed));
    assert sent == p.(topics := SetTopic(p.topics, topicId, completed));
  }

  /**
   * The sample plan-1 shows the effect: marking topic-3 done offline leaves
   * three of four topics done at 50 percent, where `updateTopic` gives 75.
   */
  lemma OfflineMarkOfPlanOne(createdAt: string)
    ensures var p := PlanOne(createdAt);
      var sent := Merge(p, TopicPatch(p, "topic-3", true));
      CompletedCount(sent.topics) == 3 && |sent.topics| == 4 && sent.completionPercentage == Whole(50) &&
      WithTopic(p, "topic-3", true).completionPercentage == Whole(75)
  {
    var p := PlanOne(createdAt);
    MarkedPlanCount(p);
    OfflineMarkVersusUpdate(p, "topic-3");
  }
}
