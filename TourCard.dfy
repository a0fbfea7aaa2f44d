/**
 * The tour card (`components/ui/tour-card.tsx`): the participant count it
 * shows, the status badge, and the shortened description.
 */
module TourCard {
  import opened Wrappers

  datatype Badge = Closed | Full | AlmostFull | Open

  /** The badge's position on the way from Open to Full. */
  function Rank(b: Badge): nat
  {
    match b
    case Open => 0
    case AlmostFull => 1
    case Full => 2
    case Closed => 3
  }

  /**
   * `currentParticipants || memberCount`: the stored count unless it is absent
   * or 0, in which case the number of membership rows.
   */
  function ParticipantCount(current: Option<int>, memberCount: int): (r: int)
    ensures current.None? || current.value == 0 ==> r == memberCount
    ensures current.Some? && current.value != 0 ==> r == current.value
  {
    if current.Some? && current.value != 0 then current.value else memberCount
  }

  /**
   * The status badge, first rule that applies: a closed tour is Closed whatever
   * its counts; then Full at or above the maximum; then Almost Full at or above
   * four fifths of it; every other case, whatever the status, is Open.
   */
  function StatusBadge(status: string, count: int, max: int): (r: Badge)
    ensures r == Closed <==> status == "closed"
    ensures r == Full <==> status != "closed" && count >= max
    ensures r == AlmostFull <==> status != "closed" && count < max && 5 * count >= 4 * max
    ensures r == Open <==> status != "closed" && count < max && 5 * count < 4 * max
  {
    if status == "closed" then Closed
    else if count >= max then Full
    else if 5 * count >= 4 * max then AlmostFull
    else Open
  }

  /** More participants never move an open tour's badge back towards Open. */
  lemma {:induction false} BadgeMonotone(status: string, c1: int, c2: int, max: int)
    requires c1 <= c2
    ensures Rank(StatusBadge(status, c1, max)) <= Rank(StatusBadge(status, c2, max))
  {
    if status != "closed" && c1 < max && 5 * c1 >= 4 * max {
      assert 5 * c2 >= 4 * max;
    }
  }

  /** The card's badge, computed from the card's participant count. */
  function CardBadge(status: string, current: Option<int>, memberCount: int, max: int): (r: Badge)
    ensures current.Some? && current.value != 0 ==> r == StatusBadge(status, current.value, max)
    ensures current.None? || current.value == 0 ==> r == StatusBadge(status, memberCount, max)
  {
    StatusBadge(status, ParticipantCount(current, memberCount), max)
  }

  const DescriptionLimit := 150

  /** A description longer than 150 characters shows its first 150 followed by "..."; others show whole. */
  function ShortDescription(d: string): (r: string)
    ensures |d| <= DescriptionLimit ==> r == d
    ensures |d| > DescriptionLimit ==> |r| == DescriptionLimit + 3 && r[..DescriptionLimit] == d[..DescriptionLimit]
    ensures |d| > DescriptionLimit ==> r[DescriptionLimit..] == "..."
  {
    if |d| > DescriptionLimit then d[..DescriptionLimit] + "..." else d
  }

  /** Shortening is idempotent: a shown description is shown again unchanged. */
  lemma ShortDescriptionIdempotent(d: string)
    ensures ShortDescription(ShortDescription(d)) == ShortDescription(d)
  {
    var r := ShortDescription(d);
    if |d| > DescriptionLimit {
      assert r[..DescriptionLimit] + "..." == r;
    }
  }
}
