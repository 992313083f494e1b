/**
 * `components/modals/CreateLearningPlanModal.tsx`: the modal form for a new
 * plan. Rows carry ids from the start and are edited and removed by id; the
 * last topic and the last resource cannot be removed. Sending builds the plan
 * and closes the modal without calling the server.
 */
module CreatePlanModal {
  import opened Wrappers
  import opened Seqs
  import opened Text
  import opened PlanTypes
  import opened PlanForm

  const LastTopic: string := "At least one topic is required"
  const LastResource: string := "At least one resource is required"

  /** The subjects the modal's select offers. */
  datatype Subject = English | Maths | Science

  /** The plan the modal builds on submit (it is only logged). */
  datatype DraftPlan = DraftPlan(
    title: string,
    description: string,
    subject: Subject,
    topics: seq<Topic>,
    resources: seq<Resource>,
    estimatedDays: int,
    completionPercentage: int,
    followers: int,
    createdAt: string,
    user: PlanUser)

  const PlaceholderUser: PlanUser := PlanUser("1", "Current User", "currentuser", None)

  /** `topics.map(t => t.id === id ? { ...t, title } : t)`. */
  function Retitled(topics: seq<Topic>, id: string, title: string): (r: seq<Topic>)
    ensures |r| == |topics|
    ensures forall i :: 0 <= i < |r| ==> r[i] == if topics[i].id == id then topics[i].(title := title) else topics[i]
  {
    if topics == [] then []
    else
      var head := if topics[0].id == id then topics[0].(title := title) else topics[0];
      [head] + Retitled(topics[1..], id, title)
  }

  /** `resources.map(r => r.id === id ? { ...r, [field]: value } : r)`. */
  function Edited(resources: seq<Resource>, id: string, e: ResourceEdit): (r: seq<Resource>)
    ensures |r| == |resources|
    ensures forall i :: 0 <= i < |r| ==> r[i] == if resources[i].id == id then ApplyEdit(resources[i], e) else resources[i]
  {
    if resources == [] then []
    else
      var head := if resources[0].id == id then ApplyEdit(resources[0], e) else resources[0];
      [head] + Edited(resources[1..], id, e)
  }

  function TopicIdIsNot(id: string): Topic -> bool {
    (t: Topic) => t.id != id
  }

  function ResourceIdIsNot(id: string): Resource -> bool {
    (r: Resource) => r.id != id
  }

  class PlanModal {
    var title: string
    var description: string
    var subject: Subject
    var estimatedDays: int
    var topics: seq<Topic>
    var resources: seq<Resource>
    var error: Option<string>
    /** Whether `onClose` has been called. */
    var closed: bool

    /** The modal opens at `now` with one blank topic and one blank link resource. */
    constructor (now: nat)
      ensures title == "" && description == "" && subject == Maths && estimatedDays == 14
      ensures topics == [Topic(RowId("topic", now, 1), "", false)]
      ensures resources == [Resource(RowId("resource", now, 1), "", "", Link)]
      ensures error.None? && !closed
    {
      title := "";
      description := "";
      subject := Maths;
      estimatedDays := 14;
      topics := [Topic(RowId("topic", now, 1), "", false)];
      resources := [Resource(RowId("resource", now, 1), "", "", Link)];
      error := None;
      closed := false;
    }

    /** `addTopic`: the new row's id is `topic-<now>-<count of rows + 1>`. */
    method AddTopic(now: nat)
      modifies this`topics
      ensures topics == old(topics) + [Topic(RowId("topic", now, |old(topics)| + 1), "", false)]
    {
      topics := topics + [Topic(RowId("topic", now, |topics| + 1), "", false)];
    }

    /** `updateTopic(id, title)`. */
    method UpdateTopic(id: string, title': string)
      modifies this`topics
      ensures topics == Retitled(old(topics), id, title')
    {
      topics := Retitled(topics, id, title');
    }

    /** `removeTopic(id)`: refused, with a message, when only one topic is left. */
    method RemoveTopic(id: string)
      modifies this`topics, this`error
      ensures |old(topics)| > 1 ==> topics == Filter(old(topics), TopicIdIsNot(id)) && error == old(error)
      ensures |old(topics)| <= 1 ==> topics == old(topics) && error == Some(LastTopic)
    {
      if |topics| > 1 {
        topics := Filter(topics, TopicIdIsNot(id));
      } else {
        error := Some(LastTopic);
      }
    }

    /** `addResource`: the new row's id is `resource-<now>-<count of rows + 1>`. */
    method AddResource(now: nat)
      modifies this`resources
      ensures resources == old(resources) + [Resource(RowId("resource", now, |old(resources)| + 1), "", "", Link)]
    {
      resources := resources + [Resource(RowId("resource", now, |resources| + 1), "", "", Link)];
    }

    /** `updateResource(id, field, value)`. */
    method UpdateResource(id: string, e: ResourceEdit)
      modifies this`resources
      ensures resources == Edited(old(resources), id, e)
    {
      resources := Edited(resources, id, e);
    }

    /** `removeResource(id)`: refused, with a message, when only one resource is left. */
    method RemoveResource(id: string)
      modifies this`resources, this`error
      ensures |old(resources)| > 1 ==> resources == Filter(old(resources), ResourceIdIsNot(id)) && error == old(error)
      ensures |old(resources)| <= 1 ==> resources == old(resources) && error == Some(LastResource)
    {
      if |resources| > 1 {
        resources := Filter(resources, ResourceIdIsNot(id));
      } else {
        error := Some(LastResource);
      }
    }

    /** `handleSubmit` at the instant `iso`: the plan built, if the checks pass, and the modal closed. */
    method Submit(iso: string) returns (plan: Option<DraftPlan>)
      modifies this`error, this`closed
      ensures var problem := FormError(old(title), old(description), old(topics), old(resources));
        problem.Some? ==> plan.None? && error == problem && closed == old(closed)
      ensures FormError(old(title), old(description), old(topics), old(resources)).None? ==>
        plan == Some(DraftPlan(title, description, subject, topics, resources, estimatedDays, 0, 0, iso, PlaceholderUser)) &&
        closed && error == old(error)
    {
      var problem := FormError(title, description, topics, resources);
      if problem.Some? {
        error := problem;
        return None;
      }
      plan := Some(DraftPlan(title, description, subject, topics, resources, estimatedDays, 0, 0, iso, PlaceholderUser));
      closed := true;
    }
  }

  // -------------------------------------------------------------- lemmas

  /** Retitling a topic keeps every id, and an id no row has changes nothing. */
  lemma {:induction false} RetitleKeepsIds(topics: seq<Topic>, id: string, title: string)
    ensures forall i :: 0 <= i < |topics| ==> Retitled(topics, id, title)[i].id == topics[i].id
    ensures (forall i :: 0 <= i < |topics| ==> topics[i].id != id) ==> Retitled(topics, id, title) == topics
  {
    if topics != [] {
      RetitleKeepsIds(topics[1..], id, title);
    }
  }

  /** With distinct ids, removing a listed row removes exactly that row, so more than one row leaves at least one. */
  lemma {:induction false} RemoveByIdRemovesOne(topics: seq<Topic>, k: int)
    requires 0 <= k < |topics|
    requires forall i, j :: 0 <= i < j < |topics| ==> topics[i].id != topics[j].id
    ensures Filter(topics, TopicIdIsNot(topics[k].id)) == RemoveAt(topics, k)
  {
    var id := topics[k].id;
    if k == 0 {
      FilterAllPass(topics[1..], TopicIdIsNot(id));
    } else {
      assert TopicIdIsNot(id)(topics[0]);
      RemoveByIdRemovesOne(topics[1..], k - 1);
      assert RemoveAt(topics, k) == [topics[0]] + RemoveAt(topics[1..], k - 1);
    }
  }

  /** Removing an id no row has changes nothing. */
  lemma RemoveUnknownId(topics: seq<Topic>, id: string)
    requires forall i :: 0 <= i < |topics| ==> topics[i].id != id
    ensures Filter(topics, TopicIdIsNot(id)) == topics
  {
    FilterAllPass(topics, TopicIdIsNot(id));
  }
}
