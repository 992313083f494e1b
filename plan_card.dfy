/**
 * `components/learning/LearningPlanCard.tsx`: one plan in a list. The card
 * keeps its own follow flag and follower count, seeded from the plan, and an
 * expanded flag; the progress bar and the subject badge are coloured from the
 * plan.
 */
module PlanCard {
  import opened PlanTypes

  const RedBar: string := "bg-red-400"
  const YellowBar: string := "bg-yellow-400"
  const GreenBar: string := "bg-green-500"

  const EnglishBadge: string := "bg-blue-100 text-blue-800 dark:bg-blue-900 dark:text-blue-200"
  const MathsBadge: string := "bg-purple-100 text-purple-800 dark:bg-purple-900 dark:text-purple-200"
  const ScienceBadge: string := "bg-green-100 text-green-800 dark:bg-green-900 dark:text-green-200"
  const OtherBadge: string := "bg-gray-100 text-gray-800 dark:bg-gray-900 dark:text-gray-200"

  /**
   * `getProgressColor` on the plan's percentage. Both comparisons are false
   * for NaN, so a NaN percentage is painted green.
   */
  function ProgressColor(pct: Number): (c: string)
    ensures c == RedBar <==> pct.Whole? && pct.n < 33
    ensures c == YellowBar <==> pct.Whole? && 33 <= pct.n < 67
    ensures c == GreenBar <==> pct.NaN? || pct.n >= 67
  {
    if pct.Whole? && pct.n < 33 then RedBar
    else if pct.Whole? && pct.n < 67 then YellowBar
    else GreenBar
  }

  /** The bar's colours in the order the percentage passes through them. */
  function Stage(c: string): nat {
    if c == RedBar then 0 else if c == YellowBar then 1 else 2
  }

  /** `getSubjectColor`: three subjects have a badge colour of their own, every other one is gray. */
  function SubjectColor(subject: string): (c: string)
    ensures subject == "English" <==> c == EnglishBadge
    ensures subject == "Maths" <==> c == MathsBadge
    ensures subject == "Science" <==> c == ScienceBadge
    ensures subject !in {"English", "Maths", "Science"} <==> c == OtherBadge
  {
    if subject == "English" then EnglishBadge
    else if subject == "Maths" then MathsBadge
    else if subject == "Science" then ScienceBadge
    else OtherBadge
  }

  /** What a follower adds to the count: one while followed. */
  function Weight(following: bool): int {
    if following then 1 else 0
  }

  /** `handleFollow` on the pair (flag, count): unfollowing takes one off, following adds one. */
  function FollowStep(following: bool, count: int): (r: (bool, int))
    ensures r.0 != following
    ensures r.1 - Weight(r.0) == count - Weight(following)
  {
    if following then (false, count - 1) else (true, count + 1)
  }

  class PlanCardView {
    const plan: Plan
    var following: bool
    var followersCount: int
    var expanded: bool

    /** The count always differs from the plan's by this card's own follow, if any. */
    predicate Valid()
      reads this
    {
      followersCount - Weight(following) == plan.followers - Weight(plan.following)
    }

    /** The card's state as it mounts. */
    constructor (p: Plan)
      ensures Valid()
      ensures plan == p && following == p.following && followersCount == p.followers && !expanded
    {
      plan := p;
      following := p.following;
      followersCount := p.followers;
      expanded := false;
    }

    /** `handleFollow`. */
    method HandleFollow()
      requires Valid()
      modifies this`following, this`followersCount
      ensures Valid()
      ensures (following, followersCount) == FollowStep(old(following), old(followersCount))
    {
      following, followersCount := FollowStep(following, followersCount).0, FollowStep(following, followersCount).1;
    }

    /** `toggleExpand`. */
    method ToggleExpand()
      modifies this`expanded
      ensures expanded == !old(expanded)
    {
      expanded := !expanded;
    }
  }

  // -------------------------------------------------------------- lemmas

  /** A higher percentage never moves the bar back to an earlier colour. */
  lemma ProgressColorMonotone(a: int, b: int)
    requires a <= b
    ensures Stage(ProgressColor(Whole(a))) <= Stage(ProgressColor(Whole(b)))
  {
  }

  /** Following and then unfollowing (or the reverse) restores the flag and the count. */
  lemma FollowTwiceRestores(following: bool, count: int)
    ensures var once := FollowStep(following, count);
      FollowStep(once.0, once.1) == (following, count)
  {
  }

  /** The count shown is the plan's, or one more or one less than it. */
  lemma CountStaysNear(p: Plan, following: bool, count: int)
    requires count - Weight(following) == p.followers - Weight(p.following)
    ensures p.followers - 1 <= count <= p.followers + 1
    ensures following == p.following ==> count == p.followers
  {
  }
}
