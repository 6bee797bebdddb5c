/** The score badge of frontend/src/components/JobCard.jsx. */
module JobCard {
  import opened Common
  import opened AppState

  datatype Badge = Green | Yellow | Gray

  /** `Math.round(job.score ?? 0)`: scores are integers here, so rounding leaves them as they are. */
  function DisplayedScore(score: Option<int>): (r: int)
    ensures score.None? ==> r == 0
    ensures score.Some? ==> r == score.value
  {
    score.GetOr(0)
  }

  /** The badge colour: above 70 green, from 40 to 70 yellow, below 40 gray. */
  function BadgeFor(score: int): (b: Badge)
    ensures b == Green <==> score > 70
    ensures b == Yellow <==> 40 <= score <= 70
    ensures b == Gray <==> score < 40
  {
    if score > 70 then Green
    else if score >= 40 then Yellow
    else Gray
  }

  /** The badge of a card is chosen from the displayed (defaulted, rounded) score. */
  function CardBadge(j: Job): (b: Badge)
    ensures j.score.None? ==> b == Gray
    ensures b == BadgeFor(DisplayedScore(j.score))
  {
    BadgeFor(DisplayedScore(j.score))
  }

  /** The tiers in order: gray below yellow below green. */
  function Tier(b: Badge): nat {
    match b
    case Gray => 0
    case Yellow => 1
    case Green => 2
  }

  /** A higher score never gets a lower tier. */
  lemma BadgeMonotone(a: int, b: int)
    requires a <= b
    ensures Tier(BadgeFor(a)) <= Tier(BadgeFor(b))
  {
  }

  /** The job type line: `job.type || 'Full-time'`. */
  function TypeLabel(j: Job): (t: string)
    ensures j.jobType.Some? && j.jobType.value != "" ==> t == j.jobType.value
    ensures j.jobType.None? || j.jobType.value == "" ==> t == "Full-time"
  {
    if j.jobType.Some? && j.jobType.value != "" then j.jobType.value else "Full-time"
  }
}
