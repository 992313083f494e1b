/**
 * What the three learning-plan forms share: the checks `handleSubmit` makes
 * before it sends anything (`pages/CreateLearningPlanPage.tsx`,
 * `pages/EditLearningPlanPage.tsx`, `components/modals/CreateLearningPlanModal.tsx`)
 * and the edits of one topic or resource row.
 */
module PlanForm {
  import opened Wrappers
  import opened Text
  import opened Seqs
  import opened PlanTypes

  const TitleRequired: string := "Title is required"
  const DescriptionRequired: string := "Description is required"
  const TopicTitleRequired: string := "All topics must have a title"
  const ResourceFieldsRequired: string := "All resources must have a title and URL"

  predicate Untitled(t: Topic) { IsBlank(t.title) }

  predicate Incomplete(r: Resource) { IsBlank(r.title) || IsBlank(r.url) }

  /** The first failing check, in the forms' order: title, description, topics, resources. */
  function FormError(title: string, description: string, topics: seq<Topic>, resources: seq<Resource>): (r: Option<string>)
    ensures IsBlank(title) ==> r == Some(TitleRequired)
    ensures !IsBlank(title) && IsBlank(description) ==> r == Some(DescriptionRequired)
    ensures r == Some(TopicTitleRequired) || r == Some(ResourceFieldsRequired) ==>
      !IsBlank(title) && !IsBlank(description)
    ensures r.None? || r == Some(TitleRequired) || r == Some(DescriptionRequired) ||
      r == Some(TopicTitleRequired) || r == Some(ResourceFieldsRequired)
  {
    if IsBlank(title) then Some(TitleRequired)
    else if IsBlank(description) then Some(DescriptionRequired)
    else if Count(topics, Untitled) > 0 then Some(TopicTitleRequired)
    else if Count(resources, Incomplete) > 0 then Some(ResourceFieldsRequired)
    else None
  }

  /** A blank topic row with no id yet. */
  const BlankTopic: Topic := Topic("", "", false)

  /** A blank resource row with no id yet, of kind link. */
  const BlankResource: Resource := Resource("", "", "", Link)

  /** The `[field]: value` edits of a resource row. */
  datatype ResourceEdit = SetTitle(title: string) | SetUrl(url: string) | SetKind(kind: ResourceKind)

  /** `{ ...resource, [field]: value }`. */
  function ApplyEdit(r: Resource, e: ResourceEdit): (r': Resource)
    ensures r'.id == r.id
    ensures e.SetTitle? ==> r' == r.(title := e.title)
    ensures e.SetUrl? ==> r' == r.(url := e.url)
    ensures e.SetKind? ==> r' == r.(kind := e.kind)
  {
    match e
    case SetTitle(t) => r.(title := t)
    case SetUrl(u) => r.(url := u)
    case SetKind(k) => r.(kind := k)
  }

  /** The id `<prefix>-<now>-<i>` the forms give a row: a clock reading and a number. */
  function RowId(prefix: string, now: nat, i: nat): (id: string)
    ensures prefix + "-" <= id
  {
    prefix + "-" + NatToString(now) + "-" + NatToString(i)
  }

  // -------------------------------------------------------------- lemmas

  /** The checks pass exactly when every required field holds more than whitespace. */
  lemma FormErrorNoneIff(title: string, description: string, topics: seq<Topic>, resources: seq<Resource>)
    ensures FormError(title, description, topics, resources).None? <==>
      !IsBlank(title) && !IsBlank(description) &&
      (forall i :: 0 <= i < |topics| ==> !Untitled(topics[i])) &&
      (forall i :: 0 <= i < |resources| ==> !Incomplete(resources[i]))
  {
    CountZeroIffNone(topics, Untitled);
    CountZeroIffNone(resources, Incomplete);
  }

  /** A topic or resource error names a row that is really at fault, and the topics are checked before the resources. */
  lemma {:induction false} RowErrorHasCause(title: string, description: string, topics: seq<Topic>, resources: seq<Resource>)
    ensures FormError(title, description, topics, resources) == Some(TopicTitleRequired) ==>
      exists i :: 0 <= i < |topics| && Untitled(topics[i])
    ensures FormError(title, description, topics, resources) == Some(ResourceFieldsRequired) ==>
      (forall i :: 0 <= i < |topics| ==> !Untitled(topics[i])) &&
      exists i :: 0 <= i < |resources| && Incomplete(resources[i])
  {
    CountZeroIffNone(topics, Untitled);
    CountZeroIffNone(resources, Incomplete);
  }

  /** The title is checked first: a blank title is reported whatever else is missing. */
  lemma BlankTitleFirst(title: string, description: string, topics: seq<Topic>, resources: seq<Resource>)
    ensures FormError(title, description, topics, resources) == Some(TitleRequired) <==> IsBlank(title)
  {
  }

  /** A topic without a title is reported only once title and description are filled in. */
  lemma {:induction false} UntitledTopicReported(title: string, description: string, topics: seq<Topic>, resources: seq<Resource>, i: int)
    requires !AllSpace(title) && !AllSpace(description)
    requires 0 <= i < |topics| && AllSpace(topics[i].title)
    ensures FormError(title, description, topics, resources) == Some(TopicTitleRequired)
  {
    BlankIffAllSpace(title);
    BlankIffAllSpace(description);
    BlankIffAllSpace(topics[i].title);
    CountZeroIffNone(topics, Untitled);
    assert Untitled(topics[i]);
  }

  /** Editing one field of a row leaves the other fields as they were. */
  lemma EditTouchesOneField(r: Resource, e: ResourceEdit)
    ensures var r' := ApplyEdit(r, e);
      (e.SetTitle? || r'.title == r.title) && (e.SetUrl? || r'.url == r.url) && (e.SetKind? || r'.kind == r.kind)
  {
  }

  /** Rows with different positions get different ids. */
  lemma {:induction false} RowIdsDistinct(prefix: string, now: nat, i: nat, j: nat)
    requires i != j
    ensures RowId(prefix, now, i) != RowId(prefix, now, j)
  {
    var p := prefix + "-" + NatToString(now) + "-";
    if RowId(prefix, now, i) == RowId(prefix, now, j) {
      assert p + NatToString(i) + "" == p + NatToString(j) + "";
      ConcatCancel(p, NatToString(i), NatToString(j), "");
      NatToStringInjective(i, j);
    }
  }
}
