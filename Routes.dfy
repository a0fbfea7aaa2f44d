/**
 * The server side of the tour chat (`server/routes.ts`): the WebSocket message
 * handler over a registry of connections, and the HTTP join / leave / history
 * routes that sit on the same store. Each inbound frame is handled atomically;
 * what the handler sends is returned as an outbox of (connection, reply) pairs.
 */
module Routes {
  import opened Wrappers
  import opened Store

  type ConnId = nat

  /** An inbound frame after `JSON.parse`, told apart by its `type` field. */
  datatype Frame =
    | JoinTourChat(tourId: string, userId: string)
    | SendMessage(text: string)
    | Unknown     // parsed, but `type` is neither of the two handled values
    | Malformed   // `JSON.parse` threw

  /** An outbound frame. */
  datatype Reply =
    | Error(message: string)
    | JoinedChat(tourId: string)
    | NewMessage(row: MessageRow)

  /** The fields the server attaches to one socket, and whether its readyState is OPEN. */
  datatype Session = Session(tourId: Option<string>, userId: Option<string>, open: bool)

  const NotMemberError := "Not a member of this tour"
  const NotJoinedError := "Not joined to any tour chat"
  const InvalidFormatError := "Invalid message format"

  /** JavaScript truthiness of an optional string: present and not "". */
  predicate Truthy(o: Option<string>) {
    o.Some? && o.value != ""
  }

  /** A connection receives a broadcast for `tourId` when its own tourId is the same and it is OPEN. */
  predicate InRoom(s: Session, tourId: Option<string>) {
    s.tourId == tourId && s.open
  }

  predicate Distinct(conns: seq<ConnId>) {
    forall i, j :: 0 <= i < j < |conns| ==> conns[i] != conns[j]
  }

  /** The broadcast of `reply` to the room of `tourId`, visiting the registry in its iteration order. */
  function Fanout(conns: seq<ConnId>, sessions: map<ConnId, Session>, tourId: Option<string>, reply: Reply): (r: seq<(ConnId, Reply)>)
    requires forall c :: c in conns ==> c in sessions
    ensures forall p :: p in r <==> p.0 in conns && InRoom(sessions[p.0], tourId) && p.1 == reply
    ensures Distinct(conns) ==> forall i, j :: 0 <= i < j < |r| ==> r[i].0 != r[j].0
  {
    if conns == [] then []
    else
      var init := conns[..|conns| - 1];
      var last := conns[|conns| - 1];
      assert forall c :: c in conns <==> c in init || c == last;
      var rest := Fanout(init, sessions, tourId, reply);
      assert Distinct(conns) ==> Distinct(init) && last !in init;
      rest + (if InRoom(sessions[last], tourId) then [(last, reply)] else [])
  }

  class ChatServer {
    const store: Storage
    /** `wss.clients`, in iteration order. */
    var conns: seq<ConnId>
    var sessions: map<ConnId, Session>
    var nextConn: nat

    ghost predicate Valid()
      reads this, store
    {
      store.Valid() &&
      Distinct(conns) &&
      (forall c :: c in conns <==> c in sessions) &&
      (forall c :: c in sessions ==> c < nextConn)
    }

    constructor (store: Storage)
      requires store.Valid()
      ensures Valid() && this.store == store
      ensures conns == [] && sessions == map[]
    {
      this.store := store;
      conns := [];
      sessions := map[];
      nextConn := 0;
    }

    /** A client connects: the new socket is OPEN and carries no tourId or userId. */
    method Connect() returns (c: ConnId)
      requires Valid()
      modifies this
      ensures Valid()
      ensures c !in old(sessions)
      ensures conns == old(conns) + [c]
      ensures sessions == old(sessions)[c := Session(None, None, true)]
    {
      c := nextConn;
      assert c !in conns;
      nextConn := nextConn + 1;
      conns := conns + [c];
      sessions := sessions[c := Session(None, None, true)];
    }

    /** A socket closes: its readyState is no longer OPEN. The close handler itself only logs. */
    method Close(c: ConnId)
      requires Valid() && c in sessions
      modifies this
      ensures Valid()
      ensures conns == old(conns) && sessions == old(sessions)[c := old(sessions)[c].(open := false)]
    {
      sessions := sessions[c := sessions[c].(open := false)];
    }

    /**
     * The `message` handler of connection `c`. A join stores the requested
     * tourId and userId on the connection BEFORE the membership check, so they
     * stay set when the check fails. A send needs both fields truthy; it
     * persists the message and broadcasts it to every OPEN connection of the
     * same tour, the sender included. An unknown `type` is ignored; a parse
     * failure or a rejected insert is answered with one error frame.
     */
    method HandleFrame(c: ConnId, frame: Frame) returns (outbox: seq<(ConnId, Reply)>)
      requires Valid() && c in sessions
      modifies this, store
      ensures Valid()
      ensures conns == old(conns) && nextConn == old(nextConn)
      ensures frame.JoinTourChat? ==>
        sessions == old(sessions)[c := old(sessions)[c].(tourId := Some(frame.tourId), userId := Some(frame.userId))] &&
        unchanged(store) &&
        outbox == [(c, if old(store.IsTourMember(frame.tourId, frame.userId)) then JoinedChat(frame.tourId) else Error(NotMemberError))]
      ensures frame.SendMessage? && !(Truthy(old(sessions)[c].tourId) && Truthy(old(sessions)[c].userId)) ==>
        sessions == old(sessions) && unchanged(store) && outbox == [(c, Error(NotJoinedError))]
      ensures frame.SendMessage? && Truthy(old(sessions)[c].tourId) && Truthy(old(sessions)[c].userId) ==>
        var tourId, userId := old(sessions)[c].tourId.value, old(sessions)[c].userId.value;
        sessions == old(sessions) &&
        if TourExists(old(store.tours), tourId) && userId in old(store.users) then
          var m := ChatMessage(old(store.clock), tourId, userId, frame.text, old(store.clock));
          store.messages == old(store.messages) + [m] &&
          store.users == old(store.users) && store.clock == old(store.clock) + 1 &&
          store.tours == old(store.tours) && store.memberships == old(store.memberships) &&
          outbox == Fanout(conns, sessions, Some(tourId), NewMessage(MessageRow(m, store.users[userId])))
        else
          unchanged(store) && outbox == [(c, Error(InvalidFormatError))]
      ensures frame.Unknown? ==> sessions == old(sessions) && unchanged(store) && outbox == []
      ensures frame.Malformed? ==> sessions == old(sessions) && unchanged(store) && outbox == [(c, Error(InvalidFormatError))]
    {
      match frame
      case JoinTourChat(tourId, userId) =>
        sessions := sessions[c := sessions[c].(tourId := Some(tourId), userId := Some(userId))];
        var isMember := store.IsTourMember(tourId, userId);
        if !isMember {
          outbox := [(c, Error(NotMemberError))];
          return;
        }
        outbox := [(c, JoinedChat(tourId))];
      case SendMessage(text) =>
        var s := sessions[c];
        if !(Truthy(s.tourId) && Truthy(s.userId)) {
          outbox := [(c, Error(NotJoinedError))];
          return;
        }
        var created := store.CreateChatMessage(s.tourId.value, s.userId.value, text);
        if created.None? {
          outbox := [(c, Error(InvalidFormatError))];
          return;
        }
        outbox := Broadcast(s.tourId, NewMessage(created.value));
      case Unknown =>
        outbox := [];
      case Malformed =>
        outbox := [(c, Error(InvalidFormatError))];
    }

    /** The `wss.clients.forEach` loop: one `new_message` to each OPEN client of the tour. */
    method Broadcast(tourId: Option<string>, reply: Reply) returns (outbox: seq<(ConnId, Reply)>)
      requires forall c :: c in conns ==> c in sessions
      ensures outbox == Fanout(conns, sessions, tourId, reply)
    {
      outbox := [];
      var i := 0;
      while i < |conns|
        invariant 0 <= i <= |conns|
        invariant outbox == Fanout(conns[..i], sessions, tourId, reply)
      {
        var client := conns[i];
        assert conns[..i + 1][..i] == conns[..i];
        if sessions[client].tourId == tourId && sessions[client].open {
          outbox := outbox + [(client, reply)];
        }
        i := i + 1;
      }
      assert conns[..i] == conns;
    }
  }

  /** An HTTP reply body. */
  datatype HttpBody =
    | Notice(message: string)
    | Joined(membership: Membership)
    | History(rows: seq<MessageRow>)

  datatype HttpResponse = HttpResponse(status: int, body: HttpBody)

  const UserNotFound := HttpResponse(401, Notice("User not found"))

  /**
   * `POST /api/tours/:id/join` for the resolved user: 401 without a user, 400
   * for an existing member; otherwise `joinTour` is called once and its
   * membership returned, or 500 when the insert is rejected.
   */
  method JoinRoute(store: Storage, tourId: string, user: Option<User>) returns (res: HttpResponse)
    requires store.Valid()
    modifies store
    ensures store.Valid()
    ensures user.None? ==> res == UserNotFound && unchanged(store)
    ensures user.Some? && old(store.IsTourMember(tourId, user.value.id)) ==>
      res == HttpResponse(400, Notice("Already a member of this tour")) && unchanged(store)
    ensures user.Some? && !old(store.IsTourMember(tourId, user.value.id)) ==>
      if TourExists(old(store.tours), tourId) && user.value.id in old(store.users) then
        res == HttpResponse(200, Joined(Membership(tourId, user.value.id, MemberRole))) &&
        store.memberships == old(store.memberships) + [Membership(tourId, user.value.id, MemberRole)] &&
        store.tours == Bump(old(store.tours), tourId, 1) &&
        store.messages == old(store.messages) && store.users == old(store.users) &&
        store.clock == old(store.clock)
      else
        res == HttpResponse(500, Notice("Failed to join tour")) && unchanged(store)
  {
    if user.None? {
      return UserNotFound;
    }
    var isMember := store.IsTourMember(tourId, user.value.id);
    if isMember {
      return HttpResponse(400, Notice("Already a member of this tour"));
    }
    var membership := store.JoinTour(tourId, user.value.id);
    if membership.None? {
      return HttpResponse(500, Notice("Failed to join tour"));
    }
    res := HttpResponse(200, Joined(membership.value));
  }

  /** `DELETE /api/tours/:id/leave`: 401 without a user, otherwise `leaveTour` runs and the reply is 200. */
  method LeaveRoute(store: Storage, tourId: string, user: Option<User>) returns (res: HttpResponse)
    requires store.Valid()
    modifies store
    ensures store.Valid()
    ensures user.None? ==> res == UserNotFound && unchanged(store)
    ensures user.Some? ==>
      res == HttpResponse(200, Notice("Left tour successfully")) &&
      store.memberships == Without(old(store.memberships), tourId, user.value.id) &&
      store.tours == Bump(old(store.tours), tourId, -1) &&
      store.messages == old(store.messages) && store.users == old(store.users) &&
      store.clock == old(store.clock)
  {
    if user.None? {
      return UserNotFound;
    }
    store.LeaveTour(tourId, user.value.id);
    res := HttpResponse(200, Notice("Left tour successfully"));
  }

  /** `GET /api/tours/:id/messages`: 401 without a user, 403 for a non-member, otherwise the tour's history. */
  function MessagesRoute(store: Storage, tourId: string, user: Option<User>): (res: HttpResponse)
    reads store
    requires store.Valid()
    ensures res.status == 200 <==> user.Some? && store.IsTourMember(tourId, user.value.id)
    ensures user.None? ==> res == UserNotFound
    ensures user.Some? && !store.IsTourMember(tourId, user.value.id) ==> res == HttpResponse(403, Notice(NotMemberError))
    ensures res.status == 200 ==> res.body == History(store.GetChatMessages(tourId))
  {
    if user.None? then UserNotFound
    else if !store.IsTourMember(tourId, user.value.id) then HttpResponse(403, Notice(NotMemberError))
    else HttpResponse(200, History(store.GetChatMessages(tourId)))
  }
}

/**
 * A run of the handler on one connection. Alice created tour "t1"; Carol is a
 * registered user but not a member. Carol's join is refused, yet it leaves her
 * connection carrying tourId "t1", so her next send_message is stored and
 * broadcast to the room like anyone else's.
 */
module ChatScenario {
  import opened Wrappers
  import opened Store
  import opened Routes

  /** Alice creates tour "t1"; Carol is registered but never joins it. */
  method Setup() returns (store: Storage)
    ensures fresh(store) && store.Valid()
    ensures store.users.Keys == {"alice", "carol"}
    ensures store.memberships == [Membership("t1", "alice", CreatorRole)]
    ensures TourExists(store.tours, "t1") && store.messages == [] && store.clock == 1
  {
    var alice := User("alice", "alice", "Alice", "A");
    var carol := User("carol", "carol", "Carol", "C");
    store := new Storage(map["alice" := alice, "carol" := carol]);
    var input := TourInput("Coast", "Along the coast", "A", "B", "2025-06-01", "1 Day", "50 miles", "Easy", Omitted, 10);
    var t := store.CreateTour("t1", input, "alice");
    assert store.tours[0].id == "t1";
  }

  /** The refused join, then a message that is nevertheless stored and delivered. */
  method RejectedJoinThenSend()
  {
    var store := Setup();
    var server := new ChatServer(store);
    var cc := server.Connect();

    var out := server.HandleFrame(cc, JoinTourChat("t1", "carol"));
    assert out == [(cc, Error(NotMemberError))];
    assert server.sessions[cc] == Session(Some("t1"), Some("carol"), true);

    out := server.HandleFrame(cc, SendMessage("hi"));
    assert store.messages == [ChatMessage(1, "t1", "carol", "hi", 1)];
    assert out == [(cc, NewMessage(MessageRow(store.messages[0], store.users["carol"])))];
  }
}
