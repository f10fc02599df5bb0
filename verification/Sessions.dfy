/** The fixed-window attempt limiter (sessions.py). */
module Sessions {
  import opened Common

  datatype Bucket = Bucket(started: int, count: nat)

  /** One attempt: a new window when the old one is over, then one more attempt in it. */
  function Attempt(before: Option<Bucket>, now: int, window: int): Bucket {
    var b := if before.Some? then before.value else Bucket(now, 0);
    if now - b.started >= window then Bucket(now, 1) else Bucket(b.started, b.count + 1)
  }

  class AttemptLimiter {
    var attempts: map<string, Bucket>

    constructor ()
      ensures attempts == map[]
    {
      attempts := map[];
    }

    /** consume_attempt. */
    method ConsumeAttempt(client: string, limit: int, window: int, now: int) returns (allowed: bool)
      modifies this
      ensures var before := if client in old(attempts) then Some(old(attempts)[client]) else None;
              && attempts == old(attempts)[client := Attempt(before, now, window)]
              && allowed == (attempts[client].count <= limit)
    {
      var started, count := now, 0;
      if client in attempts {
        started, count := attempts[client].started, attempts[client].count;
      }
      if now - started >= window {
        started, count := now, 0;
      }
      count := count + 1;
      attempts := attempts[client := Bucket(started, count)];
      allowed := count <= limit;
    }
  }

  // ----- one client's history -----

  /** The client's bucket after attempts at these times. */
  function After(times: seq<int>, window: int): Bucket
    requires times != []
  {
    var init := times[..|times| - 1];
    Attempt(if init == [] then None else Some(After(init, window)), times[|times| - 1], window)
  }

  predicate NonDecreasing(times: seq<int>) {
    forall i, j :: 0 <= i < j < |times| ==> times[i] <= times[j]
  }

  /** Did the last attempt succeed? */
  predicate Succeeds(times: seq<int>, limit: int, window: int)
    requires times != []
  {
    After(times, window).count <= limit
  }

  /** Successful attempts at times in the half-open interval [lo, hi). */
  function SuccessesIn(times: seq<int>, limit: int, window: int, lo: int, hi: int): nat {
    if times == [] then 0
    else
      SuccessesIn(times[..|times| - 1], limit, window, lo, hi)
      + (if Succeeds(times, limit, window) && lo <= times[|times| - 1] < hi then 1 else 0)
  }

  /** Successful attempts since the current window began. */
  function SuccessesInWindow(times: seq<int>, limit: int, window: int): nat
    requires times != []
  {
    var b := After(times, window);
    var init := times[..|times| - 1];
    var last := if Succeeds(times, limit, window) then 1 else 0;
    if b.count == 1 || init == [] then last else SuccessesInWindow(init, limit, window) + last
  }

  function AtLeastZero(n: int): nat {
    if n < 0 then 0 else n
  }

  function Min(a: int, b: int): int {
    if a < b then a else b
  }

  /** In every window exactly the first `limit` attempts succeed. */
  lemma {:induction false} WindowAllowsFirstAttempts(times: seq<int>, limit: int, window: int)
    requires times != []
    ensures SuccessesInWindow(times, limit, window) == Min(After(times, window).count, AtLeastZero(limit))
    decreases |times|
  {
    var init := times[..|times| - 1];
    if init != [] {
      WindowAllowsFirstAttempts(init, limit, window);
    }
  }

  /** Where the current window lies decides how much of the interval can be used up. */
  lemma {:induction false} IntervalBound(times: seq<int>, limit: int, window: int, lo: int)
    requires NonDecreasing(times) && times != [] && limit >= 1
    ensures var b := After(times, window);
            var n := SuccessesIn(times, limit, window, lo, lo + window);
            && b.started <= times[|times| - 1] && b.count >= 1
            && (times[|times| - 1] < lo ==> n == 0)
            && (b.started < lo ==> n <= Min(b.count, limit) - 1)
            && (lo <= b.started < lo + window ==> n <= limit - 1 + Min(b.count, limit))
            && n <= 2 * limit - 1
    decreases |times|
  {
    var init := times[..|times| - 1];
    if init != [] {
      IntervalBound(init, limit, window, lo);
      assert init[|init| - 1] == times[|times| - 2] <= times[|times| - 1];
    } else {
      assert SuccessesIn(init, limit, window, lo, lo + window) == 0;
    }
  }

  /** Any half-open interval of window length sees at most 2 * limit - 1 successes: two windows can
      share it, but then the first attempt of the earlier one is already outside. */
  lemma SuccessesPerInterval(times: seq<int>, limit: int, window: int, lo: int)
    requires NonDecreasing(times)
    ensures SuccessesIn(times, limit, window, lo, lo + window) <= AtLeastZero(2 * limit - 1)
  {
    if limit < 1 {
      NoSuccesses(times, limit, window, lo);
    } else if times != [] {
      IntervalBound(times, limit, window, lo);
    }
  }

  lemma {:induction false} NoSuccesses(times: seq<int>, limit: int, window: int, lo: int)
    requires limit < 1
    ensures SuccessesIn(times, limit, window, lo, lo + window) == 0
    decreases |times|
  {
    if times != [] {
      NoSuccesses(times[..|times| - 1], limit, window, lo);
    }
  }

  // ----- the bound is reached -----

  /** One attempt at 0, the rest of that window just before its end, then a full second window. */
  function Burst(limit: nat, window: int, k: nat): seq<int>
    requires 1 <= k
  {
    seq(k, i requires 0 <= i < k => if i == 0 then 0 else if i < limit then window - 1 else window)
  }

  lemma {:induction false} BurstBuckets(limit: nat, window: int, k: nat)
    requires limit >= 1 && window >= 2 && 1 <= k <= 2 * limit
    ensures After(Burst(limit, window, k), window) == if k <= limit then Bucket(0, k) else Bucket(window, k - limit)
    ensures SuccessesIn(Burst(limit, window, k), limit, window, 1, 1 + window) == k - 1
  {
    var times := Burst(limit, window, k);
    if k > 1 {
      BurstBuckets(limit, window, k - 1);
      assert times[..k - 1] == Burst(limit, window, k - 1);
    } else {
      assert times[..0] == [];
      assert SuccessesIn(times[..0], limit, window, 1, 1 + window) == 0;
    }
  }

  /** The bound 2 * limit - 1 is exact for every limit. */
  lemma BoundIsReached(limit: nat, window: int)
    requires limit >= 1 && window >= 2
    ensures exists times :: NonDecreasing(times) && SuccessesIn(times, limit, window, 1, 1 + window) == 2 * limit - 1
  {
    BurstBuckets(limit, window, 2 * limit);
    assert NonDecreasing(Burst(limit, window, 2 * limit));
  }
}
