/**
 * The "My Tours" page (`pages/my-tours.tsx`): two filters over the tour
 * listing, one for tours the viewer created and one meant for tours the
 * viewer joined.
 */
module MyTours {
  import opened Wrappers
  import Seqs
  import Store

  /** `tour.creator.id === user?.id`; with no user loaded no creator id matches. */
  predicate CreatedBy(t: Store.TourRow, userId: Option<string>)
  {
    userId.Some? && t.creator.id == userId.value
  }

  /** The "joined" test: someone else's tour with at least one membership row. */
  predicate OthersWithMembers(t: Store.TourRow, userId: Option<string>)
  {
    !CreatedBy(t, userId) && t.memberCount > 0
  }

  /** `myTours`: the loaded tours the viewer created, in listing order; [] before loading. */
  function Created(tours: Option<seq<Store.TourRow>>, userId: Option<string>): (r: seq<Store.TourRow>)
    ensures tours.None? || userId.None? ==> r == []
    ensures tours.Some? ==> forall t :: t in r <==> t in tours.value && CreatedBy(t, userId)
  {
    match tours
    case None => []
    case Some(ts) =>
      var r := Seqs.Filter(t => CreatedBy(t, userId), ts);
      if userId.None? then Seqs.FilterNone(t => CreatedBy(t, userId), ts); r else r
  }

  /** `joinedTours`: the loaded tours of other creators that have any members; [] before loading. */
  function Joined(tours: Option<seq<Store.TourRow>>, userId: Option<string>): (r: seq<Store.TourRow>)
    ensures tours.None? ==> r == []
    ensures tours.Some? ==> forall t :: t in r <==> t in tours.value && OthersWithMembers(t, userId)
  {
    match tours
    case None => []
    case Some(ts) => Seqs.Filter(t => OthersWithMembers(t, userId), ts)
  }

  /** No tour is listed in both sections, and both keep the listing's order. */
  lemma Partition(ts: seq<Store.TourRow>, userId: Option<string>)
    ensures forall t :: t in Created(Some(ts), userId) ==> t !in Joined(Some(ts), userId)
    ensures Seqs.IsSubsequence(Joined(Some(ts), userId), ts)
    ensures userId.Some? ==> Seqs.IsSubsequence(Created(Some(ts), userId), ts)
  {
    Seqs.FilterIsSubsequence(t => OthersWithMembers(t, userId), ts);
    if userId.Some? {
      Seqs.FilterIsSubsequence(t => CreatedBy(t, userId), ts);
    }
  }

  /**
   * "Tours I Joined" never looks at the viewer's memberships: when every listed
   * tour has a member (as a creator's own row guarantees until they leave), it
   * lists every tour someone else created, joined or not; and before the user
   * has loaded it lists every tour with members.
   */
  lemma JoinedIgnoresMembership(ts: seq<Store.TourRow>, userId: Option<string>)
    requires forall t :: t in ts ==> t.memberCount > 0
    ensures Joined(Some(ts), userId) == Seqs.Filter(t => !CreatedBy(t, userId), ts)
    ensures userId.None? ==> Joined(Some(ts), userId) == ts
  {
    FilterSame(ts, userId);
    if userId.None? {
      Seqs.FilterKeepsAll(t => !CreatedBy(t, userId), ts);
    }
  }

  lemma {:induction false} FilterSame(ts: seq<Store.TourRow>, userId: Option<string>)
    requires forall t :: t in ts ==> t.memberCount > 0
    ensures Seqs.Filter(t => OthersWithMembers(t, userId), ts) == Seqs.Filter(t => !CreatedBy(t, userId), ts)
  {
    if ts != [] {
      assert forall t :: t in ts[1..] ==> t in ts;
      FilterSame(ts[1..], userId);
    }
  }
}
