/**
 * The client's reconnecting transport (`lib/websocket.ts`, class
 * `WebSocketManager`). Browser events are methods the environment calls:
 * `OnOpen` and `OnClose` are the socket's callbacks, `FireTimer` is a pending
 * `setTimeout` running `connect()`. Timers are recorded as the delays they were
 * armed with; the physical socket is represented by its readyState.
 */
module WebSocketClient {
  import opened Wrappers
  import Backoff

  datatype ReadyState = Connecting | Open | Closing | Closed

  /** A registered message handler, known by identity. */
  type HandlerId = nat

  /** An inbound frame: `JSON.parse` either produced a value or threw. */
  datatype Inbound<D> = Parsed(data: D) | Unparsable

  /** `splice(indexOf(h), 1)` when `h` is present: drops the first occurrence of `h`. */
  function RemoveFirst(hs: seq<HandlerId>, h: HandlerId): (r: seq<HandlerId>)
  {
    if hs == [] then []
    else if hs[0] == h then hs[1..]
    else [hs[0]] + RemoveFirst(hs[1..], h)
  }

  /**
   * Unsubscribing removes exactly one registration of a present handler and
   * leaves the list alone when the handler is absent; the rest keep their order.
   */
  lemma {:induction false} RemoveFirstSpec(hs: seq<HandlerId>, h: HandlerId)
    ensures h !in hs ==> RemoveFirst(hs, h) == hs
    ensures h in hs ==> |RemoveFirst(hs, h)| == |hs| - 1 &&
                        multiset(RemoveFirst(hs, h)) == multiset(hs) - multiset{h}
  {
    if hs != [] {
      RemoveFirstSpec(hs[1..], h);
      assert hs == [hs[0]] + hs[1..];
    }
  }

  /** With `i` the first index of `h`, removing the first occurrence is the splice at `i`. */
  lemma {:induction false} RemoveFirstAt(hs: seq<HandlerId>, h: HandlerId, i: nat)
    requires i < |hs| && hs[i] == h && forall k :: 0 <= k < i ==> hs[k] != h
    ensures RemoveFirst(hs, h) == hs[..i] + hs[i + 1..]
  {
    if i > 0 {
      RemoveFirstAt(hs[1..], h, i - 1);
      assert hs[1..][..i - 1] == hs[1..i];
      assert hs[..i] == [hs[0]] + hs[1..i];
      assert hs[1..][i..] == hs[i + 1..];
    }
  }

  class WebSocketManager {
    /** The readyState of the socket `this.socket` refers to, or None for null. */
    var socket: Option<ReadyState>
    var reconnectAttempts: nat
    var messageHandlers: seq<HandlerId>
    /** Reconnects armed with `setTimeout` that have not fired, by delay in ms. */
    var timers: seq<nat>

    ghost predicate Valid()
      reads this
    {
      reconnectAttempts <= Backoff.MaxReconnectAttempts
    }

    /** `isConnected()`: the socket exists and its readyState is OPEN. */
    predicate IsConnected()
      reads this
    {
      socket == Some(Open)
    }

    /** The constructor calls `connect()` at once: a new socket is connecting. */
    constructor ()
      ensures Valid()
      ensures socket == Some(Connecting) && reconnectAttempts == 0
      ensures messageHandlers == [] && timers == []
    {
      socket := Some(Connecting);
      reconnectAttempts := 0;
      messageHandlers := [];
      timers := [];
    }

    /** The pending reconnect `i` fires and runs `connect()`. */
    method FireTimer(i: nat)
      requires Valid() && i < |timers|
      modifies this
      ensures Valid()
      ensures socket == Some(Connecting)
      ensures timers == old(timers[..i] + timers[i + 1..])
      ensures reconnectAttempts == old(reconnectAttempts) && messageHandlers == old(messageHandlers)
    {
      timers := timers[..i] + timers[i + 1..];
      socket := Some(Connecting);
    }

    /** `onopen` of the connecting socket: the attempt counter goes back to 0. */
    method OnOpen()
      requires Valid() && socket == Some(Connecting)
      modifies this
      ensures Valid()
      ensures socket == Some(Open) && reconnectAttempts == 0
      ensures timers == old(timers) && messageHandlers == old(messageHandlers)
    {
      socket := Some(Open);
      reconnectAttempts := 0;
    }

    /**
     * `onclose`: the socket reference is cleared; below the ceiling the counter
     * goes up by one and a reconnect is armed after 2000 ms times the new count.
     */
    method OnClose()
      requires Valid()
      modifies this
      ensures Valid()
      ensures socket == None && messageHandlers == old(messageHandlers)
      ensures reconnectAttempts == Backoff.AfterClose(old(reconnectAttempts)).0
      ensures var delay := Backoff.AfterClose(old(reconnectAttempts)).1;
        timers == old(timers) + (if delay.Some? then [delay.value] else [])
    {
      socket := None;
      if reconnectAttempts < Backoff.MaxReconnectAttempts {
        reconnectAttempts := reconnectAttempts + 1;
        timers := timers + [Backoff.ReconnectInterval * reconnectAttempts];
      }
    }

    /** `send`: the payload goes out only on an OPEN socket; otherwise it is dropped, not queued. */
    method Send<D>(data: D) returns (wire: Option<D>)
      ensures wire.Some? <==> IsConnected()
      ensures wire.Some? ==> wire.value == data
    {
      if socket.Some? && socket.value == Open {
        wire := Some(data);
      } else {
        wire := None;
      }
    }

    /** `onMessage`: the handler joins the end of the list (the returned closure is `Unsubscribe(handler)`). */
    method OnMessage(handler: HandlerId)
      modifies this
      ensures messageHandlers == old(messageHandlers) + [handler]
      ensures socket == old(socket) && reconnectAttempts == old(reconnectAttempts) && timers == old(timers)
    {
      messageHandlers := messageHandlers + [handler];
    }

    /** The unsubscribe closure: `indexOf`, then `splice` when found. */
    method Unsubscribe(handler: HandlerId)
      modifies this
      ensures messageHandlers == RemoveFirst(old(messageHandlers), handler)
      ensures socket == old(socket) && reconnectAttempts == old(reconnectAttempts) && timers == old(timers)
    {
      var index := 0;
      while index < |messageHandlers| && messageHandlers[index] != handler
        invariant 0 <= index <= |messageHandlers|
        invariant forall k :: 0 <= k < index ==> messageHandlers[k] != handler
      {
        index := index + 1;
      }
      if index < |messageHandlers| {
        RemoveFirstAt(messageHandlers, handler, index);
        messageHandlers := messageHandlers[..index] + messageHandlers[index + 1..];
      } else {
        RemoveFirstSpec(messageHandlers, handler);
      }
    }

    /** `onmessage`: a parsed frame goes to every handler in registration order; an unparsable one to none. */
    method Dispatch<D>(msg: Inbound<D>) returns (calls: seq<(HandlerId, D)>)
      ensures msg.Unparsable? ==> calls == []
      ensures msg.Parsed? ==> |calls| == |messageHandlers|
      ensures msg.Parsed? ==>
        forall i :: 0 <= i < |calls| ==> calls[i] == (messageHandlers[i], msg.data)
    {
      calls := [];
      if msg.Unparsable? {
        return;
      }
      for i := 0 to |messageHandlers|
        invariant |calls| == i
        invariant forall k :: 0 <= k < i ==> calls[k] == (messageHandlers[k], msg.data)
      {
        calls := calls + [(messageHandlers[i], msg.data)];
      }
    }

    /**
     * `disconnect`: closes and forgets the socket. The counter and any armed
     * reconnect are left as they are, so the socket's own `onclose` can still
     * arm another reconnect afterwards.
     */
    method Disconnect()
      modifies this
      ensures socket == None
      ensures reconnectAttempts == old(reconnectAttempts) && timers == old(timers)
      ensures messageHandlers == old(messageHandlers)
    {
      if socket.Some? {
        socket := None;
      }
    }
  }

  /** A disconnect followed by the closed socket's `onclose` still arms a reconnect. */
  method DisconnectThenClose()
  {
    var m := new WebSocketManager();
    m.OnOpen();
    m.Disconnect();
    assert !m.IsConnected();
    m.OnClose();
    assert m.timers == [2000] && m.reconnectAttempts == 1;
  }
}
