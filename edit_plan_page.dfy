/**
 * `pages/EditLearningPlanPage.tsx`: the form that edits an existing learning
 * plan. The plan is loaded once for the route's id; its owner-only fields are
 * carried over from the loaded plan when the form is sent.
 */
module EditPlanPage {
  import opened Wrappers
  import opened Seqs
  import opened Text
  import opened PlanTypes
  import opened PlanForm

  const DefaultSubject: string := "Maths"
  const LoadFailed: string := "Failed to load learning plan. Please try again later."
  const NotOwner: string := "You don't have permission to edit this learning plan"
  const MissingInformation: string := "Unable to update plan. Missing required information."
  const UpdateFailed: string := "Failed to update learning plan. Please try again later."

  /** What `updateLearningPlan` does with the request: resolve, or reject with an optional server message. */
  datatype Updated = UpdateResolved | UpdateRejected(message: Option<string>)

  /** `parseInt(value) || 7`: NaN and zero fall back to seven days. */
  function ParsedDays(parsed: Number): (days: int)
    ensures days != 0
    ensures parsed.Whole? && parsed.n != 0 ==> days == parsed.n
    ensures parsed.NaN? || parsed == Whole(0) ==> days == 7
  {
    if parsed.Whole? && parsed.n != 0 then parsed.n else 7
  }

  /** The update the form sends: the fields typed, plus the owner, followers, following flag and creation time of the loaded plan. */
  function EditPatch(id: string, title: string, description: string, subject: string, topics: seq<Topic>,
                     resources: seq<Resource>, estimatedDays: int, original: Plan): (patch: PlanPatch)
    ensures patch.completionPercentage.None? && patch.user.None?
    ensures patch.userId == Some(original.userId) && patch.followers == Some(original.followers)
    ensures patch.following == Some(original.following) && patch.createdAt == Some(original.createdAt)
  {
    PlanPatch(Some(id), Some(title), Some(description), Some(subject), Some(topics), Some(resources), None,
              Some(estimatedDays), Some(original.followers), Some(original.createdAt), Some(original.userId),
              Some(original.following), None)
  }

  class PlanEditor {
    /** The route's `:id` parameter. */
    const routeId: Option<string>
    var loading: bool
    var error: Option<string>
    var submitSuccess: bool
    var originalPlan: Option<Plan>
    var title: string
    var description: string
    var subject: string
    var estimatedDays: int
    var topics: seq<Topic>
    var resources: seq<Resource>
    /** Where `navigate` goes: at once for a foreign plan, after a second for a saved one. */
    var redirect: Option<string>

    constructor (id: Option<string>)
      ensures routeId == id && loading && error.None? && !submitSuccess && originalPlan.None?
      ensures title == "" && description == "" && subject == DefaultSubject && estimatedDays == 7
      ensures topics == [BlankTopic] && resources == [BlankResource] && redirect.None?
    {
      routeId := id;
      loading := true;
      error := None;
      submitSuccess := false;
      originalPlan := None;
      title := "";
      description := "";
      subject := DefaultSubject;
      estimatedDays := 7;
      topics := [BlankTopic];
      resources := [BlankResource];
      redirect := None;
    }

    /**
     * The mount effect `fetchPlan`: `userId` is the logged-in user's id,
     * `fetched` the plan `getLearningPlanById` gives (none when it rejects).
     * Without a route id nothing happens, and the spinner stays.
     */
    method Load(userId: Option<string>, fetched: Option<Plan>)
      modifies this`loading, this`error, this`originalPlan, this`title, this`description, this`subject,
        this`estimatedDays, this`topics, this`resources, this`redirect
      ensures !Truthy(routeId) ==>
        loading == old(loading) && error == old(error) && originalPlan == old(originalPlan) &&
        title == old(title) && description == old(description) && subject == old(subject) &&
        estimatedDays == old(estimatedDays) && topics == old(topics) && resources == old(resources) && redirect == old(redirect)
      ensures Truthy(routeId) && fetched.None? ==>
        !loading && error == Some(LoadFailed) && originalPlan == old(originalPlan) &&
        title == old(title) && description == old(description) && subject == old(subject) &&
        estimatedDays == old(estimatedDays) && topics == old(topics) && resources == old(resources) && redirect == old(redirect)
      ensures Truthy(routeId) && fetched.Some? ==>
        var p := fetched.value;
        !loading && originalPlan == fetched && title == p.title && description == p.description &&
        subject == Or(p.subject, DefaultSubject) && estimatedDays == p.estimatedDays &&
        topics == p.topics && resources == p.resources &&
        (userId.Some? && p.userId != userId.value ==> error == Some(NotOwner) && redirect == Some("/my-plans")) &&
        (!(userId.Some? && p.userId != userId.value) ==> error == old(error) && redirect == old(redirect))
      ensures submitSuccess == old(submitSuccess)
    {
      if !Truthy(routeId) {
        return;
      }
      loading := true;
      if fetched.None? {
        error := Some(LoadFailed);
        loading := false;
        return;
      }
      Fill(userId, fetched.value);
      loading := false;
    }

    /** `fetchPlan` once the plan has arrived: the form takes its fields, and a foreign plan is refused. */
    method Fill(userId: Option<string>, p: Plan)
      modifies this`error, this`originalPlan, this`title, this`description, this`subject,
        this`estimatedDays, this`topics, this`resources, this`redirect
      ensures originalPlan == Some(p) && title == p.title && description == p.description &&
        subject == Or(p.subject, DefaultSubject) && estimatedDays == p.estimatedDays &&
        topics == p.topics && resources == p.resources
      ensures userId.Some? && p.userId != userId.value ==> error == Some(NotOwner) && redirect == Some("/my-plans")
      ensures !(userId.Some? && p.userId != userId.value) ==> error == old(error) && redirect == old(redirect)
    {
      originalPlan := Some(p);
      title := p.title;
      description := p.description;
      subject := Or(p.subject, DefaultSubject);
      estimatedDays := p.estimatedDays;
      topics := p.topics;
      resources := p.resources;
      if userId.Some? && p.userId != userId.value {
        error := Some(NotOwner);
        redirect := Some("/my-plans");
      }
    }

    /** `handleAddTopic`: the new row's id is `topic-<now>-<count of rows>`. */
    method AddTopic(now: nat)
      modifies this`topics
      ensures topics == old(topics) + [Topic(RowId("topic", now, |old(topics)|), "", false)]
    {
      topics := topics + [Topic(RowId("topic", now, |topics|), "", false)];
    }

    /** `handleRemoveTopic(index)`: its button is shown on each row only while there are two rows or more. */
    method RemoveTopic(index: nat)
      requires |topics| > 1 && index < |topics|
      modifies this`topics
      ensures topics == RemoveAt(old(topics), index) && |topics| >= 1
    {
      topics := RemoveIndex(topics, index);
    }

    /** `handleTopicChange(index, value)`. */
    method ChangeTopic(index: nat, value: string)
      requires index < |topics|
      modifies this`topics
      ensures topics == old(topics)[index := old(topics)[index].(title := value)]
    {
      topics := topics[index := topics[index].(title := value)];
    }

    /** `handleAddResource`: the new row's id is `resource-<now>-<count of rows>`. */
    method AddResource(now: nat)
      modifies this`resources
      ensures resources == old(resources) + [Resource(RowId("resource", now, |old(resources)|), "", "", Link)]
    {
      resources := resources + [Resource(RowId("resource", now, |resources|), "", "", Link)];
    }

    /** `handleRemoveResource(index)`, shown only while there are two rows or more. */
    method RemoveResource(index: nat)
      requires |resources| > 1 && index < |resources|
      modifies this`resources
      ensures resources == RemoveAt(old(resources), index) && |resources| >= 1
    {
      resources := RemoveIndex(resources, index);
    }

    /** `handleResourceChange(index, field, value)`. */
    method ChangeResource(index: nat, e: ResourceEdit)
      requires index < |resources|
      modifies this`resources
      ensures resources == old(resources)[index := ApplyEdit(old(resources)[index], e)]
    {
      resources := resources[index := ApplyEdit(resources[index], e)];
    }

    /** The days field's `onChange`, given what `parseInt` makes of the text. */
    method SetEstimatedDays(parsed: Number)
      modifies this`estimatedDays
      ensures estimatedDays == ParsedDays(parsed)
    {
      estimatedDays := ParsedDays(parsed);
    }

    /**
     * What `handleSubmit` refuses the form for: no user, no route id or no
     * loaded plan, then the first failing check; `None` when it may be sent.
     */
    function Problem(userId: Option<string>): Option<string>
      reads this`originalPlan, this`title, this`description, this`topics, this`resources
    {
      if userId.None? || !Truthy(routeId) || originalPlan.None? then Some(MissingInformation)
      else FormError(title, description, topics, resources)
    }

    /**
     * What the form shows once the update call has answered: loading is
     * over, and either the success message with the redirect to plan `planId`,
     * or the server's message (or the default one) with the redirect left
     * at `before`.
     */
    predicate Shows(updated: Updated, planId: string, before: Option<string>)
      reads this`loading, this`error, this`submitSuccess, this`redirect
    {
      !loading &&
      (updated.UpdateResolved? ==> submitSuccess && error.None? && redirect == Some("/learning-plan/" + planId)) &&
      (updated.UpdateRejected? ==> !submitSuccess && error == Some(OrElse(updated.message, UpdateFailed)) && redirect == before)
    }

    /**
     * `handleSubmit`: the request, if one is sent, is returned with the user
     * id and plan id it is sent for.
     */
    method Submit(userId: Option<string>, updated: Updated) returns (request: Option<(string, string, PlanPatch)>)
      modifies this`loading, this`error, this`submitSuccess, this`redirect
      ensures Problem(userId).Some? ==>
        request.None? && error == Problem(userId) &&
        loading == old(loading) && submitSuccess == old(submitSuccess) && redirect == old(redirect)
      ensures Problem(userId).None? ==>
        request == Some((userId.value, routeId.value,
          EditPatch(routeId.value, title, description, subject, topics, resources, estimatedDays, originalPlan.value))) &&
        Shows(updated, routeId.value, old(redirect))
    {
      var problem := Problem(userId);
      if problem.Some? {
        error := problem;
        return None;
      }
      var patch := Send(updated);
      request := Some((userId.value, routeId.value, patch));
    }

    /** The part of `handleSubmit` after the checks: the update is sent and its outcome shown. */
    method Send(updated: Updated) returns (patch: PlanPatch)
      requires Truthy(routeId) && originalPlan.Some?
      modifies this`loading, this`error, this`submitSuccess, this`redirect
      ensures patch == EditPatch(routeId.value, title, description, subject, topics, resources, estimatedDays, originalPlan.value)
      ensures Shows(updated, routeId.value, old(redirect))
    {
      loading := true;
      error := None;
      submitSuccess := false;
      patch := EditPatch(routeId.value, title, description, subject, topics, resources, estimatedDays, originalPlan.value);
      match updated {
        case UpdateResolved =>
          submitSuccess := true;
          redirect := Some("/learning-plan/" + routeId.value);
        case UpdateRejected(message) =>
          error := Some(OrElse(message, UpdateFailed));
      }
      loading := false;
    }
  }

  // -------------------------------------------------------------- lemmas

  /**
   * Whatever the form says, the stored plan keeps its owner, followers,
   * following flag, creation time, percentage and user.
   */
  lemma UpdateKeepsOwnerFields(id: string, title: string, description: string, subject: string, topics: seq<Topic>,
                               resources: seq<Resource>, estimatedDays: int, original: Plan)
    ensures var stored := Merge(original, EditPatch(id, title, description, subject, topics, resources, estimatedDays, original));
      stored.userId == original.userId && stored.followers == original.followers &&
      stored.following == original.following && stored.createdAt == original.createdAt &&
      stored.completionPercentage == original.completionPercentage && stored.user == original.user
  {
  }

  /** Sending a loaded plan back untouched stores it as it was (when its subject is not empty). */
  lemma UntouchedFormRoundTrips(p: Plan)
    requires p.subject != []
    ensures Merge(p, EditPatch(p.id, p.title, p.description, Or(p.subject, DefaultSubject), p.topics, p.resources, p.estimatedDays, p)) == p
  {
  }
}
