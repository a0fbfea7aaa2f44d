/**
 * The `useWebSocket` hook (`hooks/use-websocket.tsx`): a second reconnecting
 * client with React state `socket` and `isConnected` and a ref counter.
 * Sockets are known by the order in which the hook created them; `OnOpen`,
 * `OnClose` and `FireTimer` are the events the browser delivers.
 */
module WebSocketHook {
  import opened Wrappers
  import Backoff

  /** The n-th WebSocket the hook constructed. */
  type SocketId = nat

  class ReconnectHook {
    /** React state `socket`. */
    var socket: Option<SocketId>
    /** React state `isConnected`. */
    var isConnected: bool
    /** The ref `reconnectAttempts.current`. */
    var reconnectAttempts: nat
    /** Reconnects armed with `setTimeout` that have not fired, by delay in ms. */
    var timers: seq<nat>
    /** How many sockets the hook has constructed so far. */
    var created: nat
    /** Whether the mount effect has run. */
    var mounted: bool
    /** The `socket` value the effect closure captured: the state at the first render. */
    const capturedSocket: Option<SocketId>

    ghost predicate Valid()
      reads this
    {
      && reconnectAttempts <= Backoff.MaxReconnectAttempts
      && (socket.Some? ==> socket.value < created)
      && capturedSocket == None
    }

    /** First render: no socket, not connected, counter 0; the effect has not run yet. */
    constructor ()
      ensures Valid()
      ensures socket == None && !isConnected && reconnectAttempts == 0
      ensures timers == [] && created == 0 && !mounted
    {
      socket := None;
      isConnected := false;
      reconnectAttempts := 0;
      timers := [];
      created := 0;
      mounted := false;
      capturedSocket := None;
    }

    /** `connectWebSocket`: a new socket becomes the state at once, before it opens. */
    method Connect()
      requires Valid()
      modifies this
      ensures Valid()
      ensures socket == Some(old(created)) && created == old(created) + 1
      ensures isConnected == old(isConnected) && reconnectAttempts == old(reconnectAttempts)
      ensures timers == old(timers) && mounted == old(mounted)
    {
      socket := Some(created);
      created := created + 1;
    }

    /** The mount effect (empty dependency list): runs once and connects. */
    method Mount()
      requires Valid() && !mounted
      modifies this
      ensures Valid() && mounted
      ensures socket == Some(old(created)) && created == old(created) + 1
      ensures isConnected == old(isConnected) && reconnectAttempts == old(reconnectAttempts)
      ensures timers == old(timers)
    {
      mounted := true;
      Connect();
    }

    /** `onopen`: connected, counter back to 0. */
    method OnOpen()
      requires Valid()
      modifies this
      ensures Valid()
      ensures isConnected && reconnectAttempts == 0
      ensures socket == old(socket) && timers == old(timers) && created == old(created)
      ensures mounted == old(mounted)
    {
      isConnected := true;
      reconnectAttempts := 0;
    }

    /** `onclose`: disconnected, no socket; below the ceiling a reconnect is armed after 2000 ms times the new count. */
    method OnClose()
      requires Valid()
      modifies this
      ensures Valid()
      ensures !isConnected && socket == None
      ensures reconnectAttempts == Backoff.AfterClose(old(reconnectAttempts)).0
      ensures var delay := Backoff.AfterClose(old(reconnectAttempts)).1;
        timers == old(timers) + (if delay.Some? then [delay.value] else [])
      ensures created == old(created) && mounted == old(mounted)
    {
      isConnected := false;
      socket := None;
      if reconnectAttempts < Backoff.MaxReconnectAttempts {
        reconnectAttempts := reconnectAttempts + 1;
        timers := timers + [2000 * reconnectAttempts];
      }
    }

    /** The pending reconnect `i` fires and calls `connectWebSocket` again. */
    method FireTimer(i: nat)
      requires Valid() && i < |timers|
      modifies this
      ensures Valid()
      ensures timers == old(timers[..i] + timers[i + 1..])
      ensures socket == Some(old(created)) && created == old(created) + 1
      ensures isConnected == old(isConnected) && reconnectAttempts == old(reconnectAttempts)
      ensures mounted == old(mounted)
    {
      timers := timers[..i] + timers[i + 1..];
      Connect();
    }

    /**
     * The effect's cleanup: it closes the captured `socket`, which is the
     * first render's null, so no socket is closed even when one is live,
     * and no armed reconnect is cancelled. Returns the socket it closes.
     */
    method Cleanup() returns (closed: Option<SocketId>)
      requires Valid()
      ensures closed == None
      ensures socket.Some? ==> closed != socket
    {
      if capturedSocket.Some? {
        closed := capturedSocket;
      } else {
        closed := None;
      }
    }
  }

  /** A socket is the state while still connecting, so `socket != null` does not mean connected. */
  method SocketBeforeOpen()
  {
    var h := new ReconnectHook();
    h.Mount();
    assert h.socket == Some(0) && !h.isConnected;
    h.OnOpen();
    h.OnClose();
    assert h.timers == [2000];
    var closed := h.Cleanup();
    assert closed == None && h.timers == [2000];
  }
}
