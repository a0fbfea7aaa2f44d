/**
 * The tour chat panel (`components/ui/chat.tsx`): the join frame sent when the
 * socket, the user and the tour id are all known, the cache update on an
 * inbound `new_message` frame, and the guarded send from the input box.
 */
module ChatPanel {
  import opened Wrappers
  import Text

  /** Frames the panel writes to the socket. */
  datatype ClientFrame = JoinTourChat(tourId: string, userId: string) | SendMessage(message: string)

  /** A frame the panel's listener receives, by its `type`. */
  datatype Inbound<M> = NewMessage(message: M) | OtherType

  /**
   * The join effect: with a socket, a loaded user and a non-empty tour id it
   * sends one join frame for that tour and that user; otherwise nothing.
   */
  function JoinEffect(hasSocket: bool, user: Option<string>, tourId: string): (r: Option<ClientFrame>)
    ensures r.Some? <==> hasSocket && user.Some? && tourId != ""
    ensures r.Some? ==> r.value == JoinTourChat(tourId, user.value)
  {
    if hasSocket && user.Some? && tourId != "" then Some(JoinTourChat(tourId, user.value)) else None
  }

  /**
   * The listener's cache update: a `new_message` frame appends its message to
   * the cached list (an absent list counting as empty); any other frame leaves
   * the cache as it was.
   */
  function ApplyInbound<M>(cached: Option<seq<M>>, frame: Inbound<M>): (r: Option<seq<M>>)
    ensures frame.OtherType? ==> r == cached
    ensures frame.NewMessage? ==> r.Some? && |r.value| == |cached.GetOr([])| + 1
    ensures frame.NewMessage? ==> r.value[..|r.value| - 1] == cached.GetOr([])
    ensures frame.NewMessage? ==> r.value[|r.value| - 1] == frame.message
  {
    match frame
    case NewMessage(m) => Some(cached.GetOr([]) + [m])
    case OtherType => cached
  }

  /** The messages carried by the `new_message` frames of a stream, in arrival order. */
  function Delivered<M>(frames: seq<Inbound<M>>): seq<M>
  {
    if frames == [] then []
    else
      var last := frames[|frames| - 1];
      Delivered(frames[..|frames| - 1]) + (if last.NewMessage? then [last.message] else [])
  }

  /** The cache after a stream of frames, one listener call per frame. */
  function ApplyAll<M>(cached: Option<seq<M>>, frames: seq<Inbound<M>>): Option<seq<M>>
  {
    if frames == [] then cached else ApplyInbound(ApplyAll(cached, frames[..|frames| - 1]), frames[|frames| - 1])
  }

  /**
   * Over any stream, the cache ends as the earlier list followed by every
   * delivered message in arrival order; a stream with no `new_message` frame
   * leaves the cache untouched.
   */
  lemma {:induction false} ApplyAllAppends<M>(cached: Option<seq<M>>, frames: seq<Inbound<M>>)
    ensures Delivered(frames) == [] ==> ApplyAll(cached, frames) == cached
    ensures Delivered(frames) != [] ==> ApplyAll(cached, frames) == Some(cached.GetOr([]) + Delivered(frames))
  {
    if frames != [] {
      var init, last := frames[..|frames| - 1], frames[|frames| - 1];
      ApplyAllAppends(cached, init);
      if last.NewMessage? {
        assert Delivered(frames) == Delivered(init) + [last.message];
        var before := ApplyAll(cached, init);
        assert ApplyAll(cached, frames) == Some(before.GetOr([]) + [last.message]);
        assert before.GetOr([]) == cached.GetOr([]) + Delivered(init);
        assert cached.GetOr([]) + Delivered(init) + [last.message]
            == cached.GetOr([]) + (Delivered(init) + [last.message]);
      } else {
        assert Delivered(frames) == Delivered(init) + [] == Delivered(init);
        assert ApplyAll(cached, frames) == ApplyAll(cached, init);
      }
    }
  }

  /** `sendMessage`'s guard: non-blank text, a socket, and the connected flag. */
  predicate CanSend(text: string, hasSocket: bool, isConnected: bool)
  {
    !Text.IsBlank(text) && hasSocket && isConnected
  }

  /** The send button's `disabled`: blank text or not connected. */
  predicate SendButtonDisabled(text: string, isConnected: bool)
  {
    Text.IsBlank(text) || !isConnected
  }

  /** The submit key: Enter without Shift. */
  predicate IsSubmitKey(key: string, shiftKey: bool)
  {
    key == "Enter" && !shiftKey
  }

  /**
   * The button does not check the socket: when a socket exists it is enabled
   * exactly when `sendMessage` would send, and the text it sends is non-empty
   * with no whitespace at either end.
   */
  lemma EnabledButtonSends(text: string, isConnected: bool)
    ensures !SendButtonDisabled(text, isConnected) <==> CanSend(text, true, isConnected)
    ensures CanSend(text, true, isConnected) ==>
      Text.Trim(text) != [] && !Text.IsWhitespace(Text.Trim(text)[0]) &&
      !Text.IsWhitespace(Text.Trim(text)[|Text.Trim(text)| - 1])
  {
    Text.TrimIsSlice(text);
  }

  /** The input box's state: the `message` being typed. */
  class ChatInput {
    var message: string

    constructor ()
      ensures message == ""
    {
      message := "";
    }

    /** Typing replaces the input text. */
    method SetMessage(text: string)
      modifies this
      ensures message == text
    {
      message := text;
    }

    /**
     * `sendMessage`: when the guard holds, exactly one `send_message` frame with
     * the trimmed text goes out and the input is cleared; otherwise nothing is
     * sent and the input keeps its text.
     */
    method SendMessage(hasSocket: bool, isConnected: bool) returns (sent: Option<ClientFrame>)
      modifies this
      ensures sent.Some? <==> CanSend(old(message), hasSocket, isConnected)
      ensures sent.Some? ==> sent.value == ClientFrame.SendMessage(Text.Trim(old(message))) && message == ""
      ensures sent.None? ==> message == old(message)
    {
      if Text.IsBlank(message) || !hasSocket || !isConnected {
        return None;
      }
      sent := Some(ClientFrame.SendMessage(Text.Trim(message)));
      message := "";
    }

    /**
     * `handleKeyPress`: Enter without Shift suppresses the default action and
     * runs `sendMessage`; any other key does neither.
     */
    method HandleKeyPress(key: string, shiftKey: bool, hasSocket: bool, isConnected: bool)
      returns (preventDefault: bool, sent: Option<ClientFrame>)
      modifies this
      ensures preventDefault <==> IsSubmitKey(key, shiftKey)
      ensures !IsSubmitKey(key, shiftKey) ==> sent.None? && message == old(message)
      ensures IsSubmitKey(key, shiftKey) ==>
        (sent.Some? <==> CanSend(old(message), hasSocket, isConnected))
      ensures sent.Some? ==> sent.value == ClientFrame.SendMessage(Text.Trim(old(message))) && message == ""
      ensures sent.None? ==> message == old(message)
    {
      if key == "Enter" && !shiftKey {
        preventDefault := true;
        sent := SendMessage(hasSocket, isConnected);
      } else {
        preventDefault := false;
        sent := None;
      }
    }
  }
}
