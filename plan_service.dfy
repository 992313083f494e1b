/**
 * `service/Impl/LearningPlanServiceImpl.java`: learning plans stored per
 * user. A plan is found for update or delete only by the pair (owner, id).
 * `BeanUtils.copyProperties` copies every property of the request onto the
 * plan, nulls and the request's `id` included.
 */
module PlanService {
  import opened Wrappers
  import opened Seqs
  import opened Documents
  import opened PlanEntity

  /** `LearningPlanRQ`: the same properties as a plan (its resources are not modelled). */
  datatype PlanRequest = PlanRequest(
    id: Option<string>,
    title: Option<string>,
    description: Option<string>,
    subject: Option<string>,
    createdAt: Option<int>,
    topics: Option<seq<Topic>>,
    estimatedDays: Option<int>,
    followers: Option<int>,
    userId: Option<string>,
    following: Option<bool>)

  /** What a service call ends in: a value, `ResourceNotFoundException`, or the exception Java throws on a null dereference. */
  datatype Outcome<T> = Done(value: T) | NotFound(message: string) | NullDeref

  function PlansNotFound(userId: string): string {
    "Not found learning plans for user with id: " + userId
  }

  function PlanNotFound(planId: string): string {
    "Not found learning plan with id: " + planId
  }

  /** The collection's key; stored plans always have an id. */
  function PlanKey(p: LearningPlan): string {
    p.id.GetOr("")
  }

  /** `BeanUtils.copyProperties(rq, plan)`: every property of the request, whatever the plan held. */
  function Copied(rq: PlanRequest): (p: LearningPlan)
    ensures p.id == rq.id && p.userId == rq.userId && p.topics == rq.topics && p.followers == rq.followers
  {
    LearningPlan(rq.id, rq.title, rq.description, rq.subject, rq.createdAt, rq.topics,
                 rq.estimatedDays, rq.followers, rq.userId, rq.following)
  }

  predicate HasId(p: LearningPlan) {
    p.id.Some?
  }

  function OwnedBy(userId: string): LearningPlan -> bool {
    (p: LearningPlan) => p.userId == Some(userId)
  }

  /** The test of `findByUserIdAndId`: a plan is found only under its owner's id and its own id. */
  function Matches(userId: string, planId: string): (m: LearningPlan -> bool)
    ensures forall p :: m(p) ==> OwnedBy(userId)(p) && HasId(p) && PlanKey(p) == planId
    ensures forall p :: OwnedBy(userId)(p) && p.id == Some(planId) ==> m(p)
  {
    (p: LearningPlan) => p.userId == Some(userId) && p.id == Some(planId)
  }

  /** `findByUserIdAndId(userId, planId)`. */
  function FindOwned(plans: seq<LearningPlan>, userId: string, planId: string): (r: Option<LearningPlan>)
    ensures r.None? <==> forall i :: 0 <= i < |plans| ==> !Matches(userId, planId)(plans[i])
    ensures r.Some? ==> r.value in plans && r.value.userId == Some(userId) && r.value.id == Some(planId)
  {
    var k := FindIndex(plans, Matches(userId, planId));
    if k < 0 then None else Some(plans[k])
  }

  /** `save(plan)`: a plan without an id gets `freshId`; one with an id replaces the stored plan with that id, or is added. */
  function SavedPlan(plans: seq<LearningPlan>, p: LearningPlan, freshId: string): (r: seq<LearningPlan>)
    ensures p.id.Some? ==> Lookup(r, p.id.value, PlanKey) == Some(p)
    ensures p.id.None? ==> Lookup(r, freshId, PlanKey) == Some(p.(id := Some(freshId)))
    ensures |r| == |plans| || |r| == |plans| + 1
  {
    Saved(plans, if p.id.None? then p.(id := Some(freshId)) else p, PlanKey)
  }

  /** The plan `updateById` saves, as written: the request over the plan, with the clock's time and the request's owner. */
  function UpdatedAsWritten(rq: PlanRequest, now: int): (p: LearningPlan)
    ensures p.id == rq.id && p.userId == rq.userId && p.createdAt == Some(now)
  {
    Copied(rq).(createdAt := Some(now), userId := rq.userId)
  }

  /** The plan `updateById` evidently means to save: the same, but under the plan's own id. */
  function UpdatedIntended(found: LearningPlan, rq: PlanRequest, now: int): (p: LearningPlan)
    ensures p.id == found.id && p.userId == rq.userId && p.createdAt == Some(now)
  {
    UpdatedAsWritten(rq, now).(id := found.id)
  }

  class PlanStore {
    /** The `learning_plans` collection. */
    var plans: seq<LearningPlan>

    predicate Valid()
      reads this
    {
      DistinctKeys(plans, PlanKey) && forall i :: 0 <= i < |plans| ==> HasId(plans[i])
    }

    constructor ()
      ensures Valid() && plans == []
    {
      plans := [];
    }

    /**
     * `create(rq, userId)`: the owner is the request's, not `userId`; a
     * request without a topic list fails on it and saves nothing.
     * `freshId` is the id the database gives a plan without one.
     */
    method Create(rq: PlanRequest, userId: string, now: int, freshId: string) returns (r: Outcome<LearningPlan>)
      requires Valid() && freshId != "" && Lookup(plans, freshId, PlanKey).None?
      modifies this
      ensures Valid()
      ensures rq.topics.None? ==> r == NullDeref && plans == old(plans)
      ensures rq.topics.Some? ==>
        var p := Copied(rq).(createdAt := Some(now));
        r == Done(if p.id.None? then p.(id := Some(freshId)) else p) &&
        r.value.userId == rq.userId && plans == SavedPlan(old(plans), p, freshId)
    {
      if rq.topics.None? {
        return NullDeref;
      }
      var p := Copied(rq).(createdAt := Some(now));
      p := p.(topics := Some(rq.topics.value));
      p := p.(userId := rq.userId);
      var stored := if p.id.None? then p.(id := Some(freshId)) else p;
      SavedKeepsKeysDistinct(plans, stored, PlanKey);
      SavedKeepsAll(plans, stored, PlanKey, HasId);
      plans := Saved(plans, stored, PlanKey);
      return Done(stored);
    }

    /** `getById(userId)`: the user's plans in storage order; none is `ResourceNotFoundException`. */
    method GetById(userId: string) returns (r: Outcome<seq<LearningPlan>>)
      ensures Filter(plans, OwnedBy(userId)) == [] ==> r == NotFound(PlansNotFound(userId))
      ensures Filter(plans, OwnedBy(userId)) != [] ==> r == Done(Filter(plans, OwnedBy(userId)))
    {
      var found := Filter(plans, OwnedBy(userId));
      if found == [] {
        return NotFound(PlansNotFound(userId));
      }
      return Done(found);
    }

    /** `updateById(userId, rq, planId)` as written: the request's id, not `planId`, decides where the plan is saved. */
    method UpdateById(userId: string, rq: PlanRequest, planId: string, now: int, freshId: string) returns (r: Outcome<LearningPlan>)
      requires Valid() && freshId != "" && Lookup(plans, freshId, PlanKey).None?
      modifies this
      ensures Valid()
      ensures FindOwned(old(plans), userId, planId).None? ==> r == NotFound(PlanNotFound(planId)) && plans == old(plans)
      ensures FindOwned(old(plans), userId, planId).Some? ==>
        plans == SavedPlan(old(plans), UpdatedAsWritten(rq, now), freshId) && r.Done?
    {
      var found := FindOwned(plans, userId, planId);
      if found.None? {
        return NotFound(PlanNotFound(planId));
      }
      var p := UpdatedAsWritten(rq, now);
      var stored := if p.id.None? then p.(id := Some(freshId)) else p;
      SavedKeepsKeysDistinct(plans, stored, PlanKey);
      SavedKeepsAll(plans, stored, PlanKey, HasId);
      plans := Saved(plans, stored, PlanKey);
      return Done(stored);
    }

    /** `delete(userId, planId)`: only the owner's plan with that id goes. */
    method Delete(userId: string, planId: string) returns (r: Outcome<()>)
      requires Valid()
      modifies this
      ensures Valid()
      ensures FindOwned(old(plans), userId, planId).None? ==> r == NotFound(PlanNotFound(planId)) && plans == old(plans)
      ensures FindOwned(old(plans), userId, planId).Some? ==> r == Done(()) && plans == Deleted(old(plans), planId, PlanKey)
    {
      var found := FindOwned(plans, userId, planId);
      if found.None? {
        return NotFound(PlanNotFound(planId));
      }
      DeletedKeepsKeysDistinct(plans, planId, PlanKey);
      plans := Deleted(plans, planId, PlanKey);
      return Done(());
    }
  }

  // -------------------------------------------------------------- lemmas

  /** Another user's plan is never found for update or delete, whatever its id. */
  lemma OthersPlansNotFound(plans: seq<LearningPlan>, userId: string, planId: string)
    requires forall i :: 0 <= i < |plans| ==> plans[i].userId != Some(userId)
    ensures FindOwned(plans, userId, planId).None?
  {
  }

  /** Deleting the owner's plan removes exactly that plan, and no other id's plan changes. */
  lemma DeleteRemovesOne(plans: seq<LearningPlan>, userId: string, planId: string, other: string)
    requires DistinctKeys(plans, PlanKey) && FindOwned(plans, userId, planId).Some? && other != planId
    ensures |Deleted(plans, planId, PlanKey)| == |plans| - 1
    ensures Lookup(Deleted(plans, planId, PlanKey), other, PlanKey) == Lookup(plans, other, PlanKey)
  {
    var k := FindIndex(plans, Matches(userId, planId));
    assert PlanKey(plans[k]) == planId;
    DeletedRemovesOne(plans, k, PlanKey);
    DeletedKeepsOthers(plans, planId, PlanKey, other);
  }

  /**
   * As written, an update whose request carries no id does not touch the
   * plan it found: that plan stays as it was and a new one is added.
   */
  lemma UpdateWithoutIdAddsPlan(plans: seq<LearningPlan>, userId: string, rq: PlanRequest, planId: string, now: int, freshId: string)
    requires FindOwned(plans, userId, planId).Some? && rq.id.None?
    requires freshId != planId && Lookup(plans, freshId, PlanKey).None?
    ensures var after := SavedPlan(plans, UpdatedAsWritten(rq, now), freshId);
      |after| == |plans| + 1 && Lookup(after, planId, PlanKey) == Lookup(plans, planId, PlanKey)
  {
    var stored := UpdatedAsWritten(rq, now).(id := Some(freshId));
    SavedKeepsOthers(plans, stored, PlanKey, planId);
  }

  /** The intended update replaces the found plan in place: same count, the new plan under its id, every other id as it was. */
  lemma IntendedUpdateInPlace(plans: seq<LearningPlan>, userId: string, rq: PlanRequest, planId: string, now: int, other: string)
    requires FindOwned(plans, userId, planId).Some? && other != planId
    ensures var p := UpdatedIntended(FindOwned(plans, userId, planId).value, rq, now);
      var after := Saved(plans, p, PlanKey);
      |after| == |plans| && Lookup(after, planId, PlanKey) == Some(p) &&
      Lookup(after, other, PlanKey) == Lookup(plans, other, PlanKey)
  {
    var found := FindOwned(plans, userId, planId).value;
    var p := UpdatedIntended(found, rq, now);
    assert PlanKey(p) == planId;
    var k := FindIndex(plans, Matches(userId, planId));
    assert HasKey(PlanKey, planId)(plans[k]);
    SavedKeepsOthers(plans, p, PlanKey, other);
  }
}
