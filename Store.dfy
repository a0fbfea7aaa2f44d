/**
 * The persistence layer behind the tour chat (`server/storage.ts`), modelled as
 * in-memory tables. The database's random ids for tours are supplied by the
 * caller; message ids and every timestamp are drawn from one counter, `clock`,
 * so "ordered by timestamp" and "ordered by insertion" coincide. Foreign keys
 * are enforced as the database enforces them: an insert naming a missing tour
 * or user is rejected (the TypeScript call throws; here it returns None).
 */
module Store {
  import opened Wrappers
  import Seqs

  datatype User = User(id: string, username: string, firstName: string, lastName: string)

  /**
   * The bike type as the insert schema receives it: left out (the column
   * default applies), an explicit null (the nullable column stores NULL), or a
   * value.
   */
  datatype BikeTypeField = Omitted | Null | Given(name: string)

  /** The fields a client supplies when it creates a tour (the tour insert schema). */
  datatype TourInput = TourInput(
    title: string,
    description: string,
    startLocation: string,
    endLocation: string,
    startDate: string,
    duration: string,
    distance: string,
    difficulty: string,
    bikeType: BikeTypeField,
    maxParticipants: int)

  /** A row of the `tours` table. */
  datatype Tour = Tour(
    id: string,
    input: TourInput,
    /** The `bike_type` column; None is NULL. */
    bikeType: Option<string>,
    currentParticipants: int,
    status: string,
    createdBy: string,
    createdAt: nat)

  /** A row of the `tour_memberships` table; `role` is "creator" or "member". */
  datatype Membership = Membership(tourId: string, userId: string, role: string)

  /** A row of the `chat_messages` table. */
  datatype ChatMessage = ChatMessage(id: nat, tourId: string, userId: string, message: string, timestamp: nat)

  /** A chat message joined with its author, as the chat queries return it. */
  datatype MessageRow = MessageRow(message: ChatMessage, user: User)

  /** A tour as the tour listing returns it: with its creator and its number of membership rows. */
  datatype TourRow = TourRow(tour: Tour, creator: User, memberCount: nat)

  const CreatorRole := "creator"
  const MemberRole := "member"
  const DefaultStatus := "open"
  const DefaultBikeType := "Any"

  /** What the `bike_type` column holds after the insert: the default "Any" only when the field was left out. */
  function StoredBikeType(b: BikeTypeField): (r: Option<string>)
    ensures r.None? <==> b.Null?
    ensures b.Omitted? ==> r == Some(DefaultBikeType)
    ensures b.Given? ==> r == Some(b.name)
  {
    match b
    case Omitted => Some(DefaultBikeType)
    case Null => None
    case Given(name) => Some(name)
  }

  predicate TourExists(ts: seq<Tour>, id: string) {
    exists i :: 0 <= i < |ts| && ts[i].id == id
  }

  predicate Matches(m: Membership, tourId: string, userId: string) {
    m.tourId == tourId && m.userId == userId
  }

  /**
   * The first membership row for (tourId, userId), as the `select ... where` of
   * `isTourMember` finds it.
   */
  function FindMembership(ms: seq<Membership>, tourId: string, userId: string): (r: Option<Membership>)
    ensures r.Some? <==> exists i :: 0 <= i < |ms| && Matches(ms[i], tourId, userId)
    ensures r.Some? ==> r.value in ms && Matches(r.value, tourId, userId)
  {
    if ms == [] then None
    else if Matches(ms[0], tourId, userId) then Some(ms[0])
    else
      var r := FindMembership(ms[1..], tourId, userId);
      assert forall i :: 1 <= i < |ms| ==> ms[i] == ms[1..][i - 1];
      r
  }

  /** The membership table after `delete ... where tourId and userId`: every matching row goes, the others stay in order. */
  function Without(ms: seq<Membership>, tourId: string, userId: string): (r: seq<Membership>)
    ensures forall m :: m in r <==> m in ms && !Matches(m, tourId, userId)
    ensures forall m :: !Matches(m, tourId, userId) ==> multiset(r)[m] == multiset(ms)[m]
    ensures |r| <= |ms|
  {
    if ms == [] then []
    else
      assert ms == [ms[0]] + ms[1..];
      if Matches(ms[0], tourId, userId) then Without(ms[1..], tourId, userId)
      else [ms[0]] + Without(ms[1..], tourId, userId)
  }

  /** The rows that survive the delete keep their relative order. */
  lemma {:induction false} WithoutKeepsOrder(ms: seq<Membership>, tourId: string, userId: string)
    ensures Seqs.IsSubsequence(Without(ms, tourId, userId), ms)
  {
    if ms != [] {
      WithoutKeepsOrder(ms[1..], tourId, userId);
      var rest := Without(ms[1..], tourId, userId);
      if Matches(ms[0], tourId, userId) && rest != [] {
        assert rest[0] in rest;
        assert rest[0] != ms[0];
      }
    }
  }

  /** Leaving one tour leaves every other tour's member count as it was. */
  lemma {:induction false} WithoutKeepsOtherCounts(ms: seq<Membership>, tourId: string, userId: string, other: string)
    requires other != tourId
    ensures CountMembers(Without(ms, tourId, userId), other) == CountMembers(ms, other)
  {
    if ms != [] {
      WithoutKeepsOtherCounts(ms[1..], tourId, userId, other);
      if !Matches(ms[0], tourId, userId) {
        assert ([ms[0]] + Without(ms[1..], tourId, userId))[1..] == Without(ms[1..], tourId, userId);
      }
    }
  }

  /** The tours table after `set currentParticipants = currentParticipants + delta where id = tourId`. */
  function Bump(ts: seq<Tour>, tourId: string, delta: int): (r: seq<Tour>)
    ensures |r| == |ts|
    ensures forall i :: 0 <= i < |ts| && ts[i].id != tourId ==> r[i] == ts[i]
    ensures forall i :: 0 <= i < |ts| && ts[i].id == tourId ==>
      r[i] == ts[i].(currentParticipants := ts[i].currentParticipants + delta)
  {
    if ts == [] then []
    else
      var head := if ts[0].id == tourId then ts[0].(currentParticipants := ts[0].currentParticipants + delta) else ts[0];
      [head] + Bump(ts[1..], tourId, delta)
  }

  /** The number of membership rows of a tour: `count(tour_memberships.id)` of the listing query. */
  function CountMembers(ms: seq<Membership>, tourId: string): (n: nat)
    ensures n <= |ms|
    ensures n == 0 <==> forall i :: 0 <= i < |ms| ==> ms[i].tourId != tourId
  {
    if ms == [] then 0
    else
      var rest := CountMembers(ms[1..], tourId);
      assert forall i :: 1 <= i < |ms| ==> ms[i] == ms[1..][i - 1];
      (if ms[0].tourId == tourId then 1 else 0) + rest
  }

  /** The messages of one tour, in table order (the `where tourId` of the history query). */
  function MessagesOf(ms: seq<ChatMessage>, tourId: string): (r: seq<ChatMessage>)
    ensures forall m :: m in r <==> m in ms && m.tourId == tourId
  {
    if ms == [] then []
    else if ms[0].tourId == tourId then [ms[0]] + MessagesOf(ms[1..], tourId)
    else MessagesOf(ms[1..], tourId)
  }

  predicate StrictlyIncreasingTimestamps(ms: seq<ChatMessage>) {
    forall i, j :: 0 <= i < j < |ms| ==> ms[i].timestamp < ms[j].timestamp
  }

  predicate StrictlyIncreasingCreatedAt(ts: seq<Tour>) {
    forall i, j :: 0 <= i < j < |ts| ==> ts[i].createdAt < ts[j].createdAt
  }

  predicate StrictlyDecreasingCreatedAt(rows: seq<TourRow>) {
    forall i, j :: 0 <= i < j < |rows| ==> rows[i].tour.createdAt > rows[j].tour.createdAt
  }

  /** Keeping only one tour's messages keeps them in ascending timestamp order. */
  lemma {:induction false} MessagesOfAscending(ms: seq<ChatMessage>, tourId: string)
    requires StrictlyIncreasingTimestamps(ms)
    ensures StrictlyIncreasingTimestamps(MessagesOf(ms, tourId))
    ensures forall m :: m in MessagesOf(ms, tourId) ==> m in ms
  {
    if ms != [] {
      MessagesOfAscending(ms[1..], tourId);
      var rest := MessagesOf(ms[1..], tourId);
      forall m | m in rest ensures ms[0].timestamp < m.timestamp {
        var k :| 1 <= k < |ms| && ms[k] == m;
      }
    }
  }

  /** Appending a membership row raises exactly its own tour's count, by one. */
  lemma {:induction false} CountMembersAppend(ms: seq<Membership>, m: Membership, tourId: string)
    ensures CountMembers(ms + [m], tourId) == CountMembers(ms, tourId) + (if m.tourId == tourId then 1 else 0)
  {
    if ms != [] {
      assert (ms + [m])[1..] == ms[1..] + [m];
      CountMembersAppend(ms[1..], m, tourId);
    }
  }

  /** The tour listing row of every tour, newest first (`order by createdAt desc`). */
  function ListTours(ts: seq<Tour>, ms: seq<Membership>, users: map<string, User>): (r: seq<TourRow>)
    requires forall t :: t in ts ==> t.createdBy in users
    ensures |r| == |ts|
    ensures forall i :: 0 <= i < |ts| ==>
      r[i] == TourRow(ts[|ts| - 1 - i], users[ts[|ts| - 1 - i].createdBy], CountMembers(ms, ts[|ts| - 1 - i].id))
  {
    if ts == [] then []
    else
      var last := ts[|ts| - 1];
      [TourRow(last, users[last.createdBy], CountMembers(ms, last.id))] + ListTours(ts[..|ts| - 1], ms, users)
  }

  /**
   * The listing holds every tour exactly where reversed insertion order puts it,
   * each with its creator; tours stored oldest first are listed newest first.
   */
  lemma ListToursFacts(ts: seq<Tour>, ms: seq<Membership>, users: map<string, User>)
    requires forall t :: t in ts ==> t.createdBy in users
    requires forall id :: id in users ==> users[id].id == id
    requires StrictlyIncreasingCreatedAt(ts)
    ensures StrictlyDecreasingCreatedAt(ListTours(ts, ms, users))
    ensures forall i :: 0 <= i < |ts| ==>
      ListTours(ts, ms, users)[i].tour in ts &&
      ListTours(ts, ms, users)[i].creator.id == ListTours(ts, ms, users)[i].tour.createdBy
    ensures forall t :: t in ts ==> exists i :: 0 <= i < |ts| && ListTours(ts, ms, users)[i].tour == t
  {
    var r := ListTours(ts, ms, users);
    forall i | 0 <= i < |ts| ensures r[i].tour in ts && r[i].creator.id == r[i].tour.createdBy {
      assert r[i].tour == ts[|ts| - 1 - i];
    }
    forall t | t in ts ensures exists i :: 0 <= i < |ts| && r[i].tour == t {
      var k :| 0 <= k < |ts| && ts[k] == t;
      assert r[|ts| - 1 - k].tour == t;
    }
  }

  /** Each message paired with its author (the users join of the history query). */
  function WithAuthors(ms: seq<ChatMessage>, users: map<string, User>): (r: seq<MessageRow>)
    requires forall m :: m in ms ==> m.userId in users
    ensures |r| == |ms| && forall i :: 0 <= i < |ms| ==> r[i] == MessageRow(ms[i], users[ms[i].userId])
  {
    if ms == [] then [] else [MessageRow(ms[0], users[ms[0].userId])] + WithAuthors(ms[1..], users)
  }

  /** The history of a tour holds exactly its messages, oldest first, each with its author. */
  lemma HistoryFacts(ms: seq<ChatMessage>, users: map<string, User>, tourId: string)
    requires forall m :: m in ms ==> m.userId in users
    requires forall id :: id in users ==> users[id].id == id
    requires StrictlyIncreasingTimestamps(ms)
    ensures forall m :: m in MessagesOf(ms, tourId) ==> m.userId in users
    ensures var r := WithAuthors(MessagesOf(ms, tourId), users);
      (forall i :: 0 <= i < |r| ==> r[i].message.tourId == tourId && r[i].message in ms) &&
      (forall i :: 0 <= i < |r| ==> r[i].user.id == r[i].message.userId) &&
      (forall i, j :: 0 <= i < j < |r| ==> r[i].message.timestamp < r[j].message.timestamp) &&
      (forall m :: m in ms && m.tourId == tourId ==> exists i :: 0 <= i < |r| && r[i].message == m)
  {
    var sel := MessagesOf(ms, tourId);
    MessagesOfAscending(ms, tourId);
    var r := WithAuthors(sel, users);
    forall i | 0 <= i < |r| ensures r[i].message.tourId == tourId && r[i].message in ms {
      assert r[i].message == sel[i];
    }
    forall m | m in ms && m.tourId == tourId ensures exists i :: 0 <= i < |r| && r[i].message == m {
      var i :| 0 <= i < |sel| && sel[i] == m;
      assert r[i].message == m;
    }
  }

  /** The tables' integrity: primary keys, foreign keys and the monotone clock. */
  ghost predicate Consistent(users: map<string, User>, tours: seq<Tour>, memberships: seq<Membership>,
                             messages: seq<ChatMessage>, clock: nat)
  {
    (forall id :: id in users ==> users[id].id == id) &&
    (forall i, j :: 0 <= i < j < |tours| ==> tours[i].id != tours[j].id) &&
    StrictlyIncreasingCreatedAt(tours) &&
    (forall t :: t in tours ==> t.createdBy in users && t.createdAt < clock) &&
    (forall m :: m in memberships ==> TourExists(tours, m.tourId) && m.userId in users) &&
    StrictlyIncreasingTimestamps(messages) &&
    (forall m :: m in messages ==> TourExists(tours, m.tourId) && m.userId in users && m.timestamp < clock)
  }

  class Storage {
    var users: map<string, User>
    var tours: seq<Tour>
    var memberships: seq<Membership>
    var messages: seq<ChatMessage>
    /** Source of message ids and of every timestamp: each insert takes the current value and advances it. */
    var clock: nat

    /** The tables' integrity: keys, foreign keys and the monotone clock. */
    ghost predicate Valid()
      reads this
    {
      Consistent(users, tours, memberships, messages, clock)
    }

    /** Empty tables over a given set of registered users. */
    constructor (registered: map<string, User>)
      requires forall id :: id in registered ==> registered[id].id == id
      ensures Valid()
      ensures users == registered && tours == [] && memberships == [] && messages == [] && clock == 0
    {
      users := registered;
      tours := [];
      memberships := [];
      messages := [];
      clock := 0;
    }

    /** `isTourMember`: is there a membership row for this tour and user? */
    function IsTourMember(tourId: string, userId: string): (b: bool)
      reads this
      ensures b <==> exists i :: 0 <= i < |memberships| && Matches(memberships[i], tourId, userId)
    {
      FindMembership(memberships, tourId, userId).Some?
    }

    /** `getChatMessages`: the tour's messages with their authors, oldest first. */
    function GetChatMessages(tourId: string): (r: seq<MessageRow>)
      reads this
      requires Valid()
      ensures forall i :: 0 <= i < |r| ==> r[i].message.tourId == tourId && r[i].message in messages
      ensures forall i :: 0 <= i < |r| ==> r[i].user.id == r[i].message.userId
      ensures forall i, j :: 0 <= i < j < |r| ==> r[i].message.timestamp < r[j].message.timestamp
      ensures forall m :: m in messages && m.tourId == tourId ==> exists i :: 0 <= i < |r| && r[i].message == m
    {
      HistoryFacts(messages, users, tourId);
      WithAuthors(MessagesOf(messages, tourId), users)
    }

    /** `getTours`: every tour with its creator and its number of membership rows, newest first. */
    function GetTours(): (r: seq<TourRow>)
      reads this
      requires Valid()
      ensures |r| == |tours|
      ensures StrictlyDecreasingCreatedAt(r)
      ensures forall i :: 0 <= i < |r| ==> r[i].tour in tours && r[i].creator.id == r[i].tour.createdBy
      ensures forall i :: 0 <= i < |r| ==> r[i].memberCount == CountMembers(memberships, r[i].tour.id)
      ensures forall t :: t in tours ==> exists i :: 0 <= i < |r| && r[i].tour == t
    {
      ListToursFacts(tours, memberships, users);
      ListTours(tours, memberships, users)
    }

    /**
     * `createTour`: stores the tour with one participant, status "open" and the
     * default bike type, then makes its creator a member with role "creator".
     */
    method CreateTour(newId: string, input: TourInput, creatorId: string) returns (r: Option<Tour>)
      requires Valid()
      requires !TourExists(tours, newId)
      modifies this
      ensures Valid()
      ensures users == old(users) && messages == old(messages)
      ensures creatorId !in users ==> r == None && unchanged(this)
      ensures creatorId in users ==>
        r == Some(Tour(newId, input, StoredBikeType(input.bikeType), 1, DefaultStatus, creatorId, old(clock))) &&
        tours == old(tours) + [r.value] &&
        memberships == old(memberships) + [Membership(newId, creatorId, CreatorRole)] &&
        clock == old(clock) + 1
    {
      if creatorId !in users {
        return None;
      }
      var t := Tour(newId, input, StoredBikeType(input.bikeType), 1, DefaultStatus, creatorId, clock);
      tours := tours + [t];
      clock := clock + 1;
      assert TourExists(tours, newId) by {
        assert tours[|tours| - 1].id == newId;
      }
      MembershipsStillValid(old(tours), tours);
      memberships := memberships + [Membership(newId, creatorId, CreatorRole)];
      r := Some(t);
    }

    /**
     * `joinTour`: inserts a plain membership row and raises the tour's
     * `currentParticipants` by one. It does not look for an existing row.
     */
    method JoinTour(tourId: string, userId: string) returns (r: Option<Membership>)
      requires Valid()
      modifies this
      ensures Valid()
      ensures users == old(users) && messages == old(messages) && clock == old(clock)
      ensures !(TourExists(old(tours), tourId) && userId in old(users)) ==> r == None && unchanged(this)
      ensures TourExists(old(tours), tourId) && userId in old(users) ==>
        r == Some(Membership(tourId, userId, MemberRole)) &&
        memberships == old(memberships) + [r.value] &&
        tours == Bump(old(tours), tourId, 1)
    {
      if !(TourExists(tours, tourId) && userId in users) {
        return None;
      }
      var m := Membership(tourId, userId, MemberRole);
      BumpConsistent(users, tours, memberships + [m], messages, clock, tourId, 1);
      memberships := memberships + [m];
      tours := Bump(tours, tourId, 1);
      r := Some(m);
    }

    /**
     * `leaveTour`: deletes every membership row of (tourId, userId) and lowers
     * the tour's `currentParticipants` by one whether or not a row was deleted.
     */
    method LeaveTour(tourId: string, userId: string)
      requires Valid()
      modifies this
      ensures Valid()
      ensures users == old(users) && messages == old(messages) && clock == old(clock)
      ensures memberships == Without(old(memberships), tourId, userId)
      ensures tours == Bump(old(tours), tourId, -1)
    {
      BumpConsistent(users, tours, Without(memberships, tourId, userId), messages, clock, tourId, -1);
      memberships := Without(memberships, tourId, userId);
      tours := Bump(tours, tourId, -1);
    }

    /**
     * `createChatMessage`: appends one message stamped with the clock and
     * returns it with the user whose id it carries; nothing else changes.
     */
    method CreateChatMessage(tourId: string, userId: string, text: string) returns (r: Option<MessageRow>)
      requires Valid()
      modifies this
      ensures Valid()
      ensures users == old(users) && tours == old(tours) && memberships == old(memberships)
      ensures !(TourExists(tours, tourId) && userId in users) ==> r == None && unchanged(this)
      ensures TourExists(tours, tourId) && userId in users ==>
        r == Some(MessageRow(ChatMessage(old(clock), tourId, userId, text, old(clock)), users[userId])) &&
        messages == old(messages) + [r.value.message] &&
        clock == old(clock) + 1
    {
      if !(TourExists(tours, tourId) && userId in users) {
        return None;
      }
      var m := ChatMessage(clock, tourId, userId, text, clock);
      messages := messages + [m];
      clock := clock + 1;
      r := Some(MessageRow(m, users[userId]));
    }
  }

  /** Appending tours keeps every existing tour reachable by id. */
  lemma MembershipsStillValid(before: seq<Tour>, after: seq<Tour>)
    requires before <= after
    ensures forall id :: TourExists(before, id) ==> TourExists(after, id)
  {
    forall id | TourExists(before, id) ensures TourExists(after, id) {
      var i :| 0 <= i < |before| && before[i].id == id;
      assert after[i] == before[i];
    }
  }

  /** A count update changes no id, creator or creation time, so keys and foreign keys survive it. */
  lemma BumpConsistent(users: map<string, User>, tours: seq<Tour>, memberships: seq<Membership>,
                       messages: seq<ChatMessage>, clock: nat, tourId: string, delta: int)
    requires Consistent(users, tours, memberships, messages, clock)
    ensures Consistent(users, Bump(tours, tourId, delta), memberships, messages, clock)
  {
    var r := Bump(tours, tourId, delta);
    assert forall i :: 0 <= i < |tours| ==> r[i].id == tours[i].id && r[i].createdBy == tours[i].createdBy && r[i].createdAt == tours[i].createdAt;
    forall id | TourExists(tours, id) ensures TourExists(r, id) {
      var i :| 0 <= i < |tours| && tours[i].id == id;
      assert r[i].id == id;
    }
    forall t | t in r ensures t.createdBy in users && t.createdAt < clock {
      var i :| 0 <= i < |r| && r[i] == t;
      assert tours[i] in tours;
    }
  }
}
