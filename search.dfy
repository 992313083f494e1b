/**
 * The search logic of `pages/SearchPage.tsx`: case-insensitive substring
 * matching of the query over users, posts and plans, then the result-type
 * and subject filters, `hasResults`, and the submit guard.
 */
module Search {
  import opened Wrappers
  import opened Text
  import opened Seqs

  datatype SearchUser = SearchUser(id: string, name: string, username: string, bio: Option<string>)

  /** A searchable post: its content and its author's name. */
  datatype SearchPost = SearchPost(id: string, content: string, userName: string)

  datatype SearchPlan = SearchPlan(id: string, title: string, description: string, subject: string)

  /** `text.toLowerCase().includes(lowercaseQuery)`. */
  predicate Hit(text: string, query: string) {
    Includes(Lower(text), Lower(query))
  }

  /** A hit is an occurrence of the lower-cased query in the lower-cased text. */
  lemma HitIffOccurs(q: string)
    ensures forall text {:trigger Hit(text, q)} :: Hit(text, q) <==> Occurs(Lower(text), Lower(q))
  {
    forall text ensures Hit(text, q) <==> Occurs(Lower(text), Lower(q)) {
      IncludesIffOccurs(Lower(text), Lower(q));
    }
  }

  /** The users' test: the query, ignoring case, occurs in the name, the username or a non-empty bio. */
  function UserMatches(q: string): (m: SearchUser -> bool)
    ensures forall u :: m(u) <==>
      Occurs(Lower(u.name), Lower(q)) || Occurs(Lower(u.username), Lower(q)) ||
      (Truthy(u.bio) && Occurs(Lower(u.bio.value), Lower(q)))
  {
    HitIffOccurs(q);
    (u: SearchUser) => Hit(u.name, q) || Hit(u.username, q) || (Truthy(u.bio) && Hit(u.bio.value, q))
  }

  /** The posts' test: the query, ignoring case, occurs in the content or the author's name. */
  function PostMatches(q: string): (m: SearchPost -> bool)
    ensures forall p :: m(p) <==> Occurs(Lower(p.content), Lower(q)) || Occurs(Lower(p.userName), Lower(q))
  {
    HitIffOccurs(q);
    (p: SearchPost) => Hit(p.content, q) || Hit(p.userName, q)
  }

  /** The plans' test: the query, ignoring case, occurs in the title, the description or the subject. */
  function PlanMatches(q: string): (m: SearchPlan -> bool)
    ensures forall p :: m(p) <==>
      Occurs(Lower(p.title), Lower(q)) || Occurs(Lower(p.description), Lower(q)) || Occurs(Lower(p.subject), Lower(q))
  {
    HitIffOccurs(q);
    (p: SearchPlan) => Hit(p.title, q) || Hit(p.description, q) || Hit(p.subject, q)
  }

  datatype Results = Results(users: seq<SearchUser>, posts: seq<SearchPost>, plans: seq<SearchPlan>)

  /** The effect on `query`: nothing for an empty query, else the three filters. */
  function SearchResults(query: string, users: seq<SearchUser>, posts: seq<SearchPost>, plans: seq<SearchPlan>): (r: Results)
    ensures query == [] ==> r == Results([], [], [])
    ensures query != [] ==>
      r.users == Filter(users, UserMatches(query)) && r.posts == Filter(posts, PostMatches(query)) &&
      r.plans == Filter(plans, PlanMatches(query))
  {
    if query == [] then Results([], [], [])
    else Results(Filter(users, UserMatches(query)), Filter(posts, PostMatches(query)), Filter(plans, PlanMatches(query)))
  }

  datatype ResultType = AllResults | Users | Posts | Plans

  /** The subject filter: `None` is 'all'. */
  function SubjectIs(subject: Option<string>): SearchPlan -> bool {
    (p: SearchPlan) => subject.None? || p.subject == subject.value
  }

  /** The lists the page shows for the chosen result type and subject. */
  function Visible(r: Results, t: ResultType, subject: Option<string>): (v: Results)
    ensures v.users == (if t == AllResults || t == Users then r.users else [])
    ensures v.posts == (if t == AllResults || t == Posts then r.posts else [])
    ensures t == AllResults || t == Plans ==> v.plans == Filter(r.plans, SubjectIs(subject))
    ensures !(t == AllResults || t == Plans) ==> v.plans == []
  {
    Results(
      if t == AllResults || t == Users then r.users else [],
      if t == AllResults || t == Posts then r.posts else [],
      if t == AllResults || t == Plans then Filter(r.plans, SubjectIs(subject)) else [])
  }

  predicate HasResults(v: Results) {
    |v.users| > 0 || |v.posts| > 0 || |v.plans| > 0
  }

  /** `handleSearch`: the new `q` parameter (untrimmed), or `None` when the input is blank. */
  function SubmittedQuery(input: string): (q: Option<string>)
    ensures q.Some? <==> !IsBlank(input)
    ensures q.Some? ==> q.value == input
  {
    if IsBlank(input) then None else Some(input)
  }

  // -------------------------------------------------------------- lemmas

  /** An empty query shows nothing, whatever the filters. */
  lemma EmptyQueryShowsNothing(users: seq<SearchUser>, posts: seq<SearchPost>, plans: seq<SearchPlan>, t: ResultType, subject: Option<string>)
    ensures !HasResults(Visible(SearchResults([], users, posts, plans), t, subject))
  {
  }

  /** Every result list is its source list with some entries left out, in order. */
  lemma ResultsAreSubsequences(query: string, users: seq<SearchUser>, posts: seq<SearchPost>, plans: seq<SearchPlan>)
    ensures var r := SearchResults(query, users, posts, plans);
      IsSubsequence(r.users, users) && IsSubsequence(r.posts, posts) && IsSubsequence(r.plans, plans)
  {
    if query != [] {
      FilterIsSubsequence(users, UserMatches(query));
      FilterIsSubsequence(posts, PostMatches(query));
      FilterIsSubsequence(plans, PlanMatches(query));
    }
  }

  /** A user is found exactly when the query occurs in the name, the username or a non-empty bio, ignoring case. */
  lemma UserFoundIffMatch(query: string, users: seq<SearchUser>, i: int)
    requires query != [] && 0 <= i < |users|
    ensures users[i] in SearchResults(query, users, [], []).users <==> UserMatches(query)(users[i])
  {
  }

  /** Matching ignores the query's case: a query and its lower-cased form find the same entries. */
  lemma {:induction false} QueryCaseIgnored(text: string, query: string)
    ensures Hit(text, query) <==> Hit(text, Lower(query))
  {
    LowerIsLowerCase(query);
    LowerOfLowerCase(Lower(query));
  }

  /** Choosing one result type hides the other two lists. */
  lemma OneTypeHidesOthers(r: Results, subject: Option<string>)
    ensures var v := Visible(r, Users, subject); v.posts == [] && v.plans == []
    ensures var v := Visible(r, Posts, subject); v.users == [] && v.plans == []
    ensures var v := Visible(r, Plans, subject); v.users == [] && v.posts == []
  {
  }

  /** The 'all' subject keeps every plan; a named subject keeps exactly the plans of that subject. */
  lemma {:induction false} SubjectFilter(r: Results, subject: string)
    ensures Visible(r, AllResults, None).plans == r.plans
    ensures var ps := Visible(r, Plans, Some(subject)).plans;
      (forall i :: 0 <= i < |ps| ==> ps[i].subject == subject) &&
      (forall i :: 0 <= i < |r.plans| && r.plans[i].subject == subject ==> r.plans[i] in ps)
  {
    FilterAllPass(r.plans, SubjectIs(None));
  }
}
