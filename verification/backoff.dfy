/** The pauses the Java clients make between attempts, and how long they last under an
    idealised clock: one on which `Thread.sleep(w)` advances the time by exactly `w` and
    nothing else takes time. */
module Backoff {

  /** One pause between attempts. */
  datatype Pause =
    /** `waitUntilConditionMet(waitTime, maxWaitTime)`: sleep `waitTime` repeatedly until at
        least `maxWaitTime` has elapsed since the call. */
    | WaitLoop(waitTime: int, maxWaitTime: int)
    /** A single `Thread.sleep(millis)`. */
    | Sleep(millis: int)

  /** The pause ends on the idealised clock. A wait loop with a zero wait time and a positive
      bound only ends because a real clock moves on its own; a negative sleep throws. */
  predicate Ends(p: Pause)
  {
    match p
    case WaitLoop(w, m) => w > 0 || m <= 0
    case Sleep(millis) => millis >= 0
  }

  /** How many sleeps of `waitTime` the wait loop makes: the least count whose total reaches
      `maxWaitTime`, and none when the bound is not positive. */
  function SleepCount(waitTime: int, maxWaitTime: int): (n: nat)
    requires waitTime > 0 || maxWaitTime <= 0
    ensures maxWaitTime <= 0 ==> n == 0
    ensures maxWaitTime > 0 ==> n >= 1 && (n - 1) * waitTime < maxWaitTime <= n * waitTime
  {
    if maxWaitTime <= 0 then 0
    else
      var q := (maxWaitTime + waitTime - 1) / waitTime;
      assert q * waitTime + (maxWaitTime + waitTime - 1) % waitTime == maxWaitTime + waitTime - 1;
      q
  }

  /** Time spent in `waitUntilConditionMet(waitTime, maxWaitTime)` on the idealised clock: the
      least multiple of `waitTime` that is at least `maxWaitTime`, or nothing at all. */
  function IdealWait(waitTime: int, maxWaitTime: int): (elapsed: int)
    requires waitTime > 0 || maxWaitTime <= 0
    ensures elapsed == SleepCount(waitTime, maxWaitTime) * waitTime
    ensures maxWaitTime <= 0 ==> elapsed == 0
    ensures maxWaitTime > 0 ==> maxWaitTime <= elapsed < maxWaitTime + waitTime
  {
    SleepCount(waitTime, maxWaitTime) * waitTime
  }

  /** Multiplying by a positive factor preserves order. */
  lemma MulMonotone(a: int, b: int, w: int)
    requires w > 0 && a <= b
    ensures a * w <= b * w
  {
    assert b * w - a * w == (b - a) * w;
  }

  /** At most one count of sleeps is the least one that reaches the bound. */
  lemma LeastCountUnique(w: int, m: int, a: int, b: int)
    requires w > 0
    requires (a - 1) * w < m <= a * w
    requires (b - 1) * w < m <= b * w
    ensures a == b
  {
    if a < b {
      MulMonotone(a, b - 1, w);
    } else if b < a {
      MulMonotone(b, a - 1, w);
    }
  }

  /** `waitUntilConditionMet` on the idealised clock: `elapsed` is the time since the call and
      each pass of the loop sleeps `waitTime`. The loop never returns before `maxWaitTime`
      has elapsed, and stops as soon as it has. */
  method WaitUntilConditionMet(waitTime: int, maxWaitTime: int) returns (sleeps: nat, elapsed: int)
    requires waitTime > 0 || maxWaitTime <= 0
    ensures elapsed == sleeps * waitTime
    ensures sleeps == 0 <==> maxWaitTime <= 0
    ensures maxWaitTime > 0 ==> maxWaitTime <= elapsed < maxWaitTime + waitTime
    ensures sleeps == SleepCount(waitTime, maxWaitTime) && elapsed == IdealWait(waitTime, maxWaitTime)
  {
    sleeps, elapsed := 0, 0;
    while elapsed < maxWaitTime
      invariant elapsed == sleeps * waitTime
      invariant sleeps > 0 ==> maxWaitTime > 0 && (sleeps - 1) * waitTime < maxWaitTime
      decreases maxWaitTime - elapsed
    {
      elapsed, sleeps := elapsed + waitTime, sleeps + 1;
    }
    if maxWaitTime > 0 {
      LeastCountUnique(waitTime, maxWaitTime, sleeps, SleepCount(waitTime, maxWaitTime));
    }
  }

  /** How long a pause lasts on the idealised clock. */
  function Duration(p: Pause): int
    requires Ends(p)
  {
    match p
    case WaitLoop(w, m) => IdealWait(w, m)
    case Sleep(millis) => millis
  }

  ghost predicate AllEnd(ps: seq<Pause>)
  {
    forall j :: 0 <= j < |ps| ==> Ends(ps[j])
  }

  /** Total time of a sequence of pauses on the idealised clock. */
  function TotalDuration(ps: seq<Pause>): int
    requires AllEnd(ps)
  {
    if ps == [] then 0 else TotalDuration(ps[..|ps| - 1]) + Duration(ps[|ps| - 1])
  }
}
