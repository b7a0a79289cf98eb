/**
 * The WebSocket reconnect back-off shared by the control panel and the
 * overlay: the delay starts at one second, doubles after every reconnect
 * attempt and is capped at eight seconds.
 */
module Reconnect {
  const InitialDelay := 1000
  const MaxDelay := 8000

  /** The delay after one more attempt: doubled, but never above the cap. */
  function NextDelay(d: int): (r: int)
    ensures r <= MaxDelay
    ensures d <= MaxDelay / 2 ==> r == 2 * d
    ensures d >= MaxDelay / 2 ==> r == MaxDelay
  {
    if d * 2 < MaxDelay then d * 2 else MaxDelay
  }

  /** The delays the back-off can hold: 1, 2, 4 and 8 seconds. */
  predicate OnLadder(d: int)
  {
    d == 1000 || d == 2000 || d == 4000 || d == 8000
  }

  /** The delay after `k` attempts since the last successful connection. */
  function DelayAfter(k: nat): int
  {
    if k == 0 then InitialDelay else NextDelay(DelayAfter(k - 1))
  }

  function Pow2(k: nat): nat
  {
    if k == 0 then 1 else 2 * Pow2(k - 1)
  }

  /** One step keeps the delay on the ladder and never shortens it. */
  lemma NextDelayOnLadder(d: int)
    requires OnLadder(d)
    ensures OnLadder(NextDelay(d)) && NextDelay(d) >= d
    ensures NextDelay(d) == d <==> d == MaxDelay
  {
  }

  /**
   * After `k` attempts the delay is `1000 * 2^k` up to the cap: 1000, 2000,
   * 4000, then 8000 for good.
   */
  lemma {:induction false} DelayAfterClosedForm(k: nat)
    ensures DelayAfter(k) == if k >= 3 then MaxDelay else InitialDelay * Pow2(k)
    ensures OnLadder(DelayAfter(k))
  {
    if k > 0 {
      DelayAfterClosedForm(k - 1);
    }
  }
}
