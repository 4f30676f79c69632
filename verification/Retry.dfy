/** Delays between attempts (app/retry.py) and between connections (app/websocket_client.py), in real
    seconds. */
module Retry {
  datatype RetryPolicy = RetryPolicy(maxAttempts: int, baseDelay: real, maxDelay: real)

  function Pow2(n: nat): real {
    if n == 0 then 1.0 else 2.0 * Pow2(n - 1)
  }

  function Min(a: real, b: real): real {
    if a < b then a else b
  }

  function DelayForAttempt(p: RetryPolicy, attemptCount: int): real {
    if attemptCount <= 0 then p.baseDelay
    else Min(p.baseDelay * Pow2(attemptCount - 1), p.maxDelay)
  }

  lemma {:induction false} Pow2Grows(m: nat, n: nat)
    requires m <= n
    ensures 1.0 <= Pow2(m) <= Pow2(n)
    decreases n
  {
    if n > 0 {
      if m == n { Pow2Grows(m - 1, n - 1); } else { Pow2Grows(m, n - 1); }
    }
  }

  /** The first counted attempt waits the base delay, and every further one twice the delay before it, as
      long as the cap allows; delays never shrink. */
  lemma DelaysDoubleUpToCap(p: RetryPolicy, a: int)
    requires p.baseDelay >= 0.0 && a >= 1
    ensures DelayForAttempt(p, 1) == Min(p.baseDelay, p.maxDelay)
    ensures forall n :: n <= 0 ==> DelayForAttempt(p, n) == p.baseDelay
    ensures var d, next := DelayForAttempt(p, a), DelayForAttempt(p, a + 1);
            && d <= next <= p.maxDelay
            && (next < p.maxDelay ==> next == 2.0 * d)
            && (2.0 * d >= p.maxDelay ==> next == p.maxDelay)
  {
    Pow2Grows(a - 1, a);
    assert Pow2(0) == 1.0;
    assert Pow2(a) == 2.0 * Pow2(a - 1);
    assert p.baseDelay * Pow2(a) == 2.0 * (p.baseDelay * Pow2(a - 1));
    assert p.baseDelay * Pow2(a - 1) >= 0.0;
  }

  /** The cap holds for every count exactly when the base delay is within it: an uncounted attempt waits the
      base delay, capped or not. */
  lemma CapHoldsIffBaseWithinIt(p: RetryPolicy)
    ensures (forall a :: DelayForAttempt(p, a) <= p.maxDelay) <==> p.baseDelay <= p.maxDelay
  {
    assert DelayForAttempt(p, 0) == p.baseDelay;
  }

  /** The last session up to `i` that ended well, after which the delay starts over; 0 if there is none. */
  function LastReset(sessions: seq<bool>, i: nat): (r: nat)
    requires i < |sessions|
    ensures r <= i
  {
    if sessions[i] || i == 0 then i else LastReset(sessions, i - 1)
  }

  function Backoff(n: nat, maxDelay: real): real {
    if n == 0 then 1.0 else Min(Pow2(n), maxDelay)
  }

  lemma BackoffStep(n: nat, maxDelay: real)
    requires maxDelay >= 0.0
    ensures Backoff(n + 1, maxDelay) == Min(2.0 * Backoff(n, maxDelay), maxDelay)
  {
    Pow2Grows(n, n + 1);
  }

  function Wait(sessions: seq<bool>, i: nat, maxDelay: real): real
    requires i < |sessions|
  {
    Backoff(i - LastReset(sessions, i), maxDelay)
  }

  lemma NextWait(sessions: seq<bool>, i: nat, maxDelay: real)
    requires 0 < i < |sessions| && maxDelay >= 0.0
    ensures Wait(sessions, i, maxDelay)
            == if sessions[i] then 1.0 else Min(Wait(sessions, i - 1, maxDelay) * 2.0, maxDelay)
  {
    if !sessions[i] {
      BackoffStep(i - 1 - LastReset(sessions, i - 1), maxDelay);
    }
  }

  /** The waits of `_run_forever`, one after each session: 1 second after a good session or at the start,
      then powers of two up to the cap, counted from there. */
  method ReconnectDelays(sessions: seq<bool>, maxDelay: real) returns (delays: seq<real>)
    requires maxDelay >= 0.0
    ensures |delays| == |sessions|
    ensures forall i :: 0 <= i < |delays| ==> delays[i] == Wait(sessions, i, maxDelay)
    ensures forall i :: 0 <= i < |delays| ==>
              delays[i] == if i == 0 || sessions[i] then 1.0
                           else if 2.0 * delays[i - 1] < maxDelay then 2.0 * delays[i - 1] else maxDelay
  {
    delays := [];
    var delay := 1.0;
    for i := 0 to |sessions|
      invariant |delays| == i
      invariant delay == if i == 0 then 1.0 else Min(Wait(sessions, i - 1, maxDelay) * 2.0, maxDelay)
      invariant forall k :: 0 <= k < i ==> delays[k] == Wait(sessions, k, maxDelay)
      invariant forall k :: 0 <= k < i ==>
                  delays[k] == if k == 0 || sessions[k] then 1.0 else Min(2.0 * delays[k - 1], maxDelay)
    {
      if i > 0 {
        NextWait(sessions, i, maxDelay);
      }
      if sessions[i] {
        delay := 1.0;
      }
      delays := delays + [delay];
      delay := Min(delay * 2.0, maxDelay);
    }
  }
}
