/**
 * The tour page (`pages/tour-details.tsx`): whether the viewer is a member,
 * the badge, the join control and whether the chat panel is shown.
 */
module TourDetails {
  import opened Wrappers
  import Store
  import TourCard

  /** A member as the single-tour query lists it: the user and the membership role. */
  datatype MemberEntry = MemberEntry(user: Store.User, role: string)

  /** The single-tour payload: the tour row and its members. */
  datatype TourPage = TourPage(tour: Store.Tour, members: seq<MemberEntry>)

  datatype JoinControl = JoinButton(disabled: bool, caption: string) | AlreadyJoined

  datatype View =
    | Spinner
    | NotFound
    | Details(badge: TourCard.Badge, control: JoinControl, chatShown: bool)

  /** `members.some(m => m.user.id === user?.id)`; with no user loaded nobody matches. */
  function IsUserMember(members: seq<MemberEntry>, userId: Option<string>): (r: bool)
    ensures r <==> userId.Some? && exists i :: 0 <= i < |members| && members[i].user.id == userId.value
  {
    if members == [] || userId.None? then false
    else if members[0].user.id == userId.value then true
    else
      var r := IsUserMember(members[1..], userId);
      assert forall i :: 1 <= i < |members| ==> members[i] == members[1..][i - 1];
      r
  }

  /** The page's badge: the card's rules applied to `currentParticipants` itself, with no fallback. */
  function PageBadge(t: Store.Tour): (r: TourCard.Badge)
    ensures r.Closed? <==> t.status == "closed"
    ensures r.Full? <==> t.status != "closed" && t.currentParticipants >= t.input.maxParticipants
    ensures r.AlmostFull? <==> t.status != "closed" && t.currentParticipants < t.input.maxParticipants
                               && 5 * t.currentParticipants >= 4 * t.input.maxParticipants
  {
    TourCard.StatusBadge(t.status, t.currentParticipants, t.input.maxParticipants)
  }

  /**
   * What the page renders: a spinner while loading, "Tour Not Found" when
   * the query found nothing, and otherwise the details, where non-members get
   * a join button (disabled while a join is pending or the tour is at or over
   * its maximum) and only members see the chat.
   */
  function Render(isLoading: bool, page: Option<TourPage>, userId: Option<string>, joinPending: bool): (r: View)
    ensures isLoading ==> r == Spinner
    ensures !isLoading && page.None? ==> r == NotFound
    ensures !isLoading && page.Some? ==> r.Details? && r.badge == PageBadge(page.value.tour)
    ensures r.Details? ==> (r.chatShown <==> IsUserMember(page.value.members, userId))
    ensures r.Details? ==> (r.control.AlreadyJoined? <==> IsUserMember(page.value.members, userId))
    ensures r.Details? && r.control.JoinButton? ==>
      (r.control.disabled <==>
        joinPending || page.value.tour.currentParticipants >= page.value.tour.input.maxParticipants)
    ensures r.Details? && r.control.JoinButton? ==>
      r.control.caption == (if joinPending then "Joining..." else "Join This Tour")
  {
    if isLoading then Spinner
    else if page.None? then NotFound
    else
      var t := page.value.tour;
      var member := IsUserMember(page.value.members, userId);
      var control :=
        if member then AlreadyJoined
        else JoinButton(joinPending || t.currentParticipants >= t.input.maxParticipants,
                        if joinPending then "Joining..." else "Join This Tour");
      Details(PageBadge(t), control, member)
  }

  /** The chat panel and the "Already Joined" badge always appear together. */
  lemma ChatOnlyForMembers(isLoading: bool, page: Option<TourPage>, userId: Option<string>, joinPending: bool)
    requires Render(isLoading, page, userId, joinPending).Details?
    ensures var v := Render(isLoading, page, userId, joinPending);
      v.chatShown <==> v.control.AlreadyJoined?
  {
  }

  /**
   * With a stored count of 0 the page judges the tour by 0 and the card by its
   * member count. So an open tour with a positive maximum whose members reach
   * four fifths of it shows Open on the page and Almost Full or Full on the card.
   */
  lemma CardAndPageDiffer(t: Store.Tour, memberCount: int)
    requires t.currentParticipants == 0
    ensures PageBadge(t) == TourCard.StatusBadge(t.status, 0, t.input.maxParticipants)
    ensures TourCard.CardBadge(t.status, Some(0), memberCount, t.input.maxParticipants)
         == TourCard.StatusBadge(t.status, memberCount, t.input.maxParticipants)
    ensures t.status != "closed" && t.input.maxParticipants > 0 && 5 * memberCount >= 4 * t.input.maxParticipants ==>
      PageBadge(t) == TourCard.Open &&
      TourCard.CardBadge(t.status, Some(0), memberCount, t.input.maxParticipants) != TourCard.Open
  {
  }

  /** Whenever the stored count is non-zero, the page and the card show the same badge. */
  lemma CardAgreesWithPage(t: Store.Tour, memberCount: int)
    requires t.currentParticipants != 0
    ensures TourCard.CardBadge(t.status, Some(t.currentParticipants), memberCount, t.input.maxParticipants)
         == PageBadge(t)
  {
  }
}
