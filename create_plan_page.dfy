/**
 * `pages/CreateLearningPlanPage.tsx`: the form for a new learning plan. Its
 * hooks' state is the class `PlanCreator`; the rows are edited by position,
 * and ids are given only when the form is sent.
 */
module CreatePlanPage {
  import opened Wrappers
  import opened Seqs
  import opened Text
  import opened PlanTypes
  import opened PlanForm

  const Subjects: seq<string> := ["Maths", "Science", "English", "History", "Technology", "Arts", "Other"]
  const LoginRequired: string := "You must be logged in to create a learning plan"
  const CreateFailed: string := "Failed to create learning plan. Please try again later."

  /** What `createLearningPlan` does with the request: the created plan's id, or a rejection with its server message. */
  datatype Created = CreatedPlan(id: string) | CreateRejected(message: Option<string>)

  /** The rows as sent: row `i` gets the id `<prefix>-<now>-<i>`, through `setId`. */
  function WithRowIds<T>(rows: seq<T>, setId: (T, string) -> T, prefix: string, now: nat): (r: seq<T>)
    ensures |r| == |rows|
    ensures forall i :: 0 <= i < |r| ==> r[i] == setId(rows[i], RowId(prefix, now, i))
  {
    if rows == [] then []
    else
      var k := |rows| - 1;
      WithRowIds(rows[..k], setId, prefix, now) + [setId(rows[k], RowId(prefix, now, k))]
  }

  function SetTopicId(t: Topic, id: string): Topic { t.(id := id) }

  function SetResourceId(r: Resource, id: string): Resource { r.(id := id) }

  /** The request `handleSubmit` sends: the typed fields, with ids given to the rows. */
  function Sent(title: string, description: string, subject: string, topics: seq<Topic>, resources: seq<Resource>,
                estimatedDays: int, now: nat): CreateRequest
  {
    CreateRequest(title, description, subject, WithRowIds(topics, SetTopicId, "topic", now),
                  WithRowIds(resources, SetResourceId, "resource", now), estimatedDays)
  }

  class PlanCreator {
    var title: string
    var description: string
    var subject: string
    var estimatedDays: int
    var topics: seq<Topic>
    var resources: seq<Resource>
    var loading: bool
    var error: Option<string>
    var submitSuccess: bool
    /** The path the one-second timer navigates to after a success. */
    var redirect: Option<string>

    /** The form always shows at least one topic row and one resource row. */
    predicate Valid()
      reads this`topics, this`resources
    {
      |topics| >= 1 && |resources| >= 1
    }

    constructor ()
      ensures Valid()
      ensures title == "" && description == "" && subject == Subjects[0] && estimatedDays == 7
      ensures topics == [BlankTopic] && resources == [BlankResource]
      ensures !loading && error.None? && !submitSuccess && redirect.None?
    {
      title := "";
      description := "";
      subject := Subjects[0];
      estimatedDays := 7;
      topics := [BlankTopic];
      resources := [BlankResource];
      loading := false;
      error := None;
      submitSuccess := false;
      redirect := None;
    }

    /** `handleAddTopic`. */
    method AddTopic()
      requires Valid()
      modifies this`topics
      ensures Valid() && topics == old(topics) + [BlankTopic]
    {
      topics := topics + [BlankTopic];
    }

    /** `handleRemoveTopic(index)`: its button is shown on each row only while there are two rows or more. */
    method RemoveTopic(index: nat)
      requires Valid() && |topics| > 1 && index < |topics|
      modifies this`topics
      ensures Valid() && topics == RemoveAt(old(topics), index)
    {
      topics := RemoveIndex(topics, index);
    }

    /** `handleTopicChange(index, value)`. */
    method ChangeTopic(index: nat, value: string)
      requires Valid() && index < |topics|
      modifies this`topics
      ensures Valid() && topics == old(topics)[index := old(topics)[index].(title := value)]
    {
      topics := topics[index := topics[index].(title := value)];
    }

    /** `handleAddResource`. */
    method AddResource()
      requires Valid()
      modifies this`resources
      ensures Valid() && resources == old(resources) + [BlankResource]
    {
      resources := resources + [BlankResource];
    }

    /** `handleRemoveResource(index)`, shown only while there are two rows or more. */
    method RemoveResource(index: nat)
      requires Valid() && |resources| > 1 && index < |resources|
      modifies this`resources
      ensures Valid() && resources == RemoveAt(old(resources), index)
    {
      resources := RemoveIndex(resources, index);
    }

    /** `handleResourceChange(index, field, value)`. */
    method ChangeResource(index: nat, e: ResourceEdit)
      requires Valid() && index < |resources|
      modifies this`resources
      ensures Valid() && resources == old(resources)[index := ApplyEdit(old(resources)[index], e)]
    {
      resources := resources[index := ApplyEdit(resources[index], e)];
    }

    /** What `handleSubmit` refuses the form for: no user, or the first failing check; `None` when it may be sent. */
    function Problem(userId: Option<string>): Option<string>
      reads this`title, this`description, this`topics, this`resources
    {
      if userId.None? then Some(LoginRequired) else FormError(title, description, topics, resources)
    }

    /**
     * What the form shows once the create call has answered: loading is
     * over, and either the success message with the redirect to the new
     * plan, or the server's message (or the default one) with the redirect
     * left at `before`.
     */
    predicate Shows(created: Created, before: Option<string>)
      reads this`loading, this`error, this`submitSuccess, this`redirect
    {
      !loading &&
      (created.CreatedPlan? ==> submitSuccess && error.None? && redirect == Some("/learning-plan/" + created.id)) &&
      (created.CreateRejected? ==> !submitSuccess && error == Some(OrElse(created.message, CreateFailed)) && redirect == before)
    }

    /**
     * `handleSubmit`: `userId` is the logged-in user's id (none when logged
     * out), `now` the clock, `created` what the create call does. The
     * request sent, if any, is returned with the user id it is sent for.
     */
    method Submit(userId: Option<string>, now: nat, created: Created) returns (request: Option<(string, CreateRequest)>)
      modifies this`loading, this`error, this`submitSuccess, this`redirect
      ensures old(Problem(userId)).Some? ==>
        request.None? && error == old(Problem(userId)) &&
        loading == old(loading) && submitSuccess == old(submitSuccess) && redirect == old(redirect)
      ensures old(Problem(userId)).None? ==>
        request == Some((userId.value, Sent(title, description, subject, topics, resources, estimatedDays, now))) &&
        Shows(created, old(redirect))
    {
      var problem := Problem(userId);
      if problem.Some? {
        error := problem;
        return None;
      }
      var sent := Send(created, now);
      request := Some((userId.value, sent));
    }

    /** The part of `handleSubmit` after the checks: the request is sent and its outcome shown. */
    method Send(created: Created, now: nat) returns (sent: CreateRequest)
      modifies this`loading, this`error, this`submitSuccess, this`redirect
      ensures sent == Sent(title, description, subject, topics, resources, estimatedDays, now)
      ensures Shows(created, old(redirect))
    {
      sent := Sent(title, description, subject, topics, resources, estimatedDays, now);
      loading := true;
      error := None;
      submitSuccess := false;
      match created {
        case CreatedPlan(id) =>
          submitSuccess := true;
          redirect := Some("/learning-plan/" + id);
        case CreateRejected(message) =>
          error := Some(OrElse(message, CreateFailed));
      }
      loading := false;
    }
  }

  // -------------------------------------------------------------- lemmas

  /** Every topic sent has an id of its own. */
  lemma TopicIdsDistinct(topics: seq<Topic>, now: nat)
    ensures var r := WithRowIds(topics, SetTopicId, "topic", now);
      forall i, j :: 0 <= i < j < |r| ==> r[i].id != r[j].id
  {
    var r := WithRowIds(topics, SetTopicId, "topic", now);
    forall i, j | 0 <= i < j < |r| ensures r[i].id != r[j].id {
      RowIdsDistinct("topic", now, i, j);
    }
  }

  /** Sending the rows changes only their ids: titles, completion, urls and kinds are the ones typed. */
  lemma IdsAreTheOnlyChange(topics: seq<Topic>, resources: seq<Resource>, now: nat)
    ensures forall i :: 0 <= i < |topics| ==>
      WithRowIds(topics, SetTopicId, "topic", now)[i].title == topics[i].title && WithRowIds(topics, SetTopicId, "topic", now)[i].completed == topics[i].completed
    ensures forall i :: 0 <= i < |resources| ==>
      var r := WithRowIds(resources, SetResourceId, "resource", now)[i];
      r.title == resources[i].title && r.url == resources[i].url && r.kind == resources[i].kind
  {
  }
}
