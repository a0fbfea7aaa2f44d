/**
 * The reconnect rule shared by the client's two WebSocket owners
 * (`lib/websocket.ts` and `hooks/use-websocket.tsx`): on every close, while
 * fewer than five attempts have been made, count one more attempt and arm a
 * reconnect after 2000 ms times the new count. A successful open resets the
 * count (in the callers).
 */
module Backoff {
  import opened Wrappers

  const MaxReconnectAttempts: nat := 5
  const ReconnectInterval: nat := 2000

  /** The counter after a close, and the delay of the reconnect it arms, if any. */
  function AfterClose(attempts: nat): (r: (nat, Option<nat>))
    ensures r.1.Some? <==> attempts < MaxReconnectAttempts
    ensures r.1.Some? ==> r.0 == attempts + 1 && r.1.value == ReconnectInterval * r.0
    ensures r.1.None? ==> r.0 == attempts
    ensures attempts <= MaxReconnectAttempts ==> r.0 <= MaxReconnectAttempts
  {
    if attempts < MaxReconnectAttempts then
      (attempts + 1, Some(ReconnectInterval * (attempts + 1)))
    else
      (attempts, None)
  }

  /** The counter after `k` closes in a row with no open between them. */
  function AttemptsAfter(attempts: nat, k: nat): nat
    decreases k
  {
    if k == 0 then attempts else AttemptsAfter(AfterClose(attempts).0, k - 1)
  }

  /** The reconnect delays armed by `k` closes in a row with no open between them, in order. */
  function DelaysAfter(attempts: nat, k: nat): seq<nat>
    decreases k
  {
    if k == 0 then []
    else
      var (next, delay) := AfterClose(attempts);
      (if delay.Some? then [delay.value] else []) + DelaysAfter(next, k - 1)
  }

  function Min(a: int, b: int): int {
    if a <= b then a else b
  }

  /**
   * From a counter at or below the ceiling, `k` closes arm
   * min(k, 5 - attempts) reconnects with delays 2000 × (attempts + 1),
   * 2000 × (attempts + 2), ..., and leave the counter at min(attempts + k, 5).
   */
  lemma {:induction false} Schedule(attempts: nat, k: nat)
    requires attempts <= MaxReconnectAttempts
    ensures AttemptsAfter(attempts, k) == Min(attempts + k, MaxReconnectAttempts)
    ensures |DelaysAfter(attempts, k)| == Min(k, MaxReconnectAttempts - attempts)
    ensures forall i :: 0 <= i < |DelaysAfter(attempts, k)| ==>
      DelaysAfter(attempts, k)[i] == ReconnectInterval * (attempts + i + 1)
    decreases k
  {
    if k > 0 {
      var (next, delay) := AfterClose(attempts);
      Schedule(next, k - 1);
      if delay.Some? {
        var rest := DelaysAfter(next, k - 1);
        assert DelaysAfter(attempts, k) == [delay.value] + rest;
        forall i | 1 <= i < |DelaysAfter(attempts, k)|
          ensures DelaysAfter(attempts, k)[i] == ReconnectInterval * (attempts + i + 1)
        {
          assert DelaysAfter(attempts, k)[i] == rest[i - 1];
        }
      }
    }
  }

  /**
   * From a fresh counter: the delays are 2000, 4000, 6000, 8000, 10000 ms, the
   * sixth and later closes arm nothing, and the counter stops at 5.
   */
  lemma FromFreshCounter(k: nat)
    ensures DelaysAfter(0, k) == seq(Min(k, 5), i requires 0 <= i < Min(k, 5) => 2000 * (i + 1))
    ensures AttemptsAfter(0, k) <= MaxReconnectAttempts
    ensures k >= 5 ==> DelaysAfter(0, k) == [2000, 4000, 6000, 8000, 10000]
  {
    Schedule(0, k);
  }
}
