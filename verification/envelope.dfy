/** The retry envelope copied into every Java operation of the client:

      numRetries := 0
      while numRetries < maxRetries:
        attempt; on success return; on a terminal error throw;
        otherwise numRetries++ and pause for backoffInterval * numRetries
      throw "Max retries exceeded ..."

    An operation supplies how it classifies the outcome of each attempt (a `Step`); the
    envelope is the same for all of them. Attempt number `k` (counting from 0) is made while
    `numRetries == k`, because every attempt that neither returns nor throws increments the
    counter. */
module Envelope {
  import opened Backoff

  /** What an operation returns or throws; the message is the thrown exception's. */
  datatype Result<T> = Success(value: T) | Failure(message: string)

  /** How an operation classifies one attempt: return a value, throw without consuming a
      retry, or count a retry and pause. */
  datatype Step<T> = Done(value: T) | Abort(message: string) | Retry

  /** The two pause shapes of the client: `waitUntilConditionMet(b * k, maxWaitTime)` or a
      single `Thread.sleep(b * k)`. */
  datatype Shape = UntilElapsed(maxWaitTime: int) | SingleSleep

  /** The retry settings of one client instance. A negative `backoffInterval` makes
      `Thread.sleep` throw and is not modelled. */
  datatype Policy = Policy(maxRetries: int, backoffInterval: nat, shape: Shape)

  /** One execution of an operation: its outcome, how many attempts it made, and the pauses
      it made, in order. */
  datatype Run<T> = Run(result: Result<T>, attempts: nat, pauses: seq<Pause>)

  /** The number of attempts `while (numRetries < maxRetries)` allows. */
  function Budget(maxRetries: int): nat
  {
    if maxRetries <= 0 then 0 else maxRetries
  }

  /** The pause after the `k`-th retried attempt (`numRetries == k` after the increment). */
  function PauseFor(p: Policy, k: nat): Pause
  {
    match p.shape
    case UntilElapsed(m) => WaitLoop(p.backoffInterval * k, m)
    case SingleSleep => Sleep(p.backoffInterval * k)
  }

  /** Every attempt numbered in [lo, hi) was retried. */
  ghost predicate AllRetry<T>(steps: nat -> Step<T>, lo: nat, hi: int)
  {
    forall i: nat :: lo <= i < hi ==> steps(i).Retry?
  }

  /** The operation ends with what a non-retried step says. */
  ghost predicate Settles<T>(s: Step<T>, r: Result<T>)
  {
    || (s.Done? && r == Success(s.value))
    || (s.Abort? && r == Failure(s.message))
  }

  /** The pauses are those after retries number k+1, k+2, ... */
  ghost predicate PausesFrom(p: Policy, k: nat, pauses: seq<Pause>)
  {
    forall j :: 0 <= j < |pauses| ==> pauses[j] == PauseFor(p, k + j + 1)
  }

  /** The declarative description of a run that starts with `numRetries == k`: either every
      attempt the budget allows was retried, each was followed by its pause, and the
      operation throws `exhausted`; or the attempts before the last were retried and paused
      after, and the last one settled the operation. */
  ghost predicate Trace<T>(p: Policy, steps: nat -> Step<T>, exhausted: string, k: nat, r: Run<T>)
  {
    && PausesFrom(p, k, r.pauses)
    && r.attempts <= Budget(p.maxRetries)
    && ( || (&& r.attempts == Budget(p.maxRetries)
             && k <= r.attempts
             && AllRetry(steps, k, r.attempts)
             && r.result == Failure(exhausted)
             && |r.pauses| == r.attempts - k)
         || (&& k < r.attempts
             && AllRetry(steps, k, r.attempts - 1)
             && Settles(steps(r.attempts - 1), r.result)
             && |r.pauses| == r.attempts - 1 - k))
  }

  /** The loop from the point where `numRetries == numRetries`. */
  function ExecuteFrom<T>(p: Policy, steps: nat -> Step<T>, exhausted: string, numRetries: nat): (r: Run<T>)
    requires numRetries <= Budget(p.maxRetries)
    ensures Trace(p, steps, exhausted, numRetries, r)
    decreases p.maxRetries - numRetries
  {
    if numRetries >= p.maxRetries then Run(Failure(exhausted), numRetries, [])
    else
      match steps(numRetries)
      case Done(v) => Run(Success(v), numRetries + 1, [])
      case Abort(m) => Run(Failure(m), numRetries + 1, [])
      case Retry =>
        var rest := ExecuteFrom(p, steps, exhausted, numRetries + 1);
        var r := Run(rest.result, rest.attempts, [PauseFor(p, numRetries + 1)] + rest.pauses);
        assert PausesFrom(p, numRetries, r.pauses) by {
          forall j | 0 <= j < |r.pauses|
            ensures r.pauses[j] == PauseFor(p, numRetries + j + 1)
          {
            if j > 0 {
              assert r.pauses[j] == rest.pauses[j - 1];
            }
          }
        }
        r
  }

  /** The whole envelope: `numRetries` starts at 0. */
  function Execute<T>(p: Policy, steps: nat -> Step<T>, exhausted: string): (r: Run<T>)
    ensures Trace(p, steps, exhausted, 0, r)
    ensures r.attempts <= Budget(p.maxRetries)
    ensures r.result.Success? ==> 0 < r.attempts && steps(r.attempts - 1) == Done(r.result.value)
    ensures 0 < r.attempts && !steps(r.attempts - 1).Retry? ==> Settles(steps(r.attempts - 1), r.result)
  {
    ExecuteFrom(p, steps, exhausted, 0)
  }

  /** The trace determines the run: it is a complete description of the envelope. */
  lemma TraceDeterminesRun<T>(p: Policy, steps: nat -> Step<T>, exhausted: string, k: nat, r1: Run<T>, r2: Run<T>)
    requires Trace(p, steps, exhausted, k, r1) && Trace(p, steps, exhausted, k, r2)
    ensures r1 == r2
  {
    SameAttempts(p, steps, exhausted, k, r1, r2);
    assert |r1.pauses| == |r2.pauses|;
    assert r1.pauses == r2.pauses;
  }

  lemma SameAttempts<T>(p: Policy, steps: nat -> Step<T>, exhausted: string, k: nat, r1: Run<T>, r2: Run<T>)
    requires Trace(p, steps, exhausted, k, r1) && Trace(p, steps, exhausted, k, r2)
    ensures r1.attempts == r2.attempts && r1.result == r2.result && |r1.pauses| == |r2.pauses|
  {
    var last1: nat := if r1.attempts > 0 then r1.attempts - 1 else 0;
    var last2: nat := if r2.attempts > 0 then r2.attempts - 1 else 0;
    assert 0 < r1.attempts < r2.attempts ==> steps(last1).Retry?;
    assert 0 < r2.attempts < r1.attempts ==> steps(last2).Retry?;
  }

  /** A first attempt that is not retried settles the operation at once: one attempt, no
      pause. */
  lemma FirstAttemptSettles<T>(p: Policy, steps: nat -> Step<T>, exhausted: string)
    requires p.maxRetries > 0 && !steps(0).Retry?
    ensures Execute(p, steps, exhausted).attempts == 1
    ensures Execute(p, steps, exhausted).pauses == []
    ensures Settles(steps(0), Execute(p, steps, exhausted).result)
  {
    var r := Execute(p, steps, exhausted);
  }

  /** An attempt that is not retried is the last one: no attempt after a success or a
      terminal error, and none after the budget is spent. */
  lemma NoAttemptAfterSettling<T>(p: Policy, steps: nat -> Step<T>, exhausted: string, i: nat)
    requires i < Budget(p.maxRetries) && !steps(i).Retry?
    ensures Execute(p, steps, exhausted).attempts <= i + 1
  {
    var r := Execute(p, steps, exhausted);
    assert r.attempts > i + 1 ==> steps(i).Retry?;
  }

  /** A retried first attempt is followed by the pause for `backoffInterval * 1`, and then
      by a second attempt when the budget allows one; otherwise the operation throws
      `exhausted` after that pause. */
  lemma FirstAttemptRetried<T>(p: Policy, steps: nat -> Step<T>, exhausted: string)
    requires p.maxRetries > 0 && steps(0).Retry?
    ensures |Execute(p, steps, exhausted).pauses| >= 1
    ensures Execute(p, steps, exhausted).pauses[0] == PauseFor(p, 1)
    ensures p.maxRetries > 1 ==> Execute(p, steps, exhausted).attempts >= 2
    ensures p.maxRetries == 1 ==> Execute(p, steps, exhausted) == Run(Failure(exhausted), 1, [PauseFor(p, 1)])
  {
    var r := Execute(p, steps, exhausted);
    assert r.attempts >= 1;
    assert r.attempts == 1 ==> r.result == Failure(exhausted) && r.attempts == Budget(p.maxRetries);
  }

  /** The pauses of an exhausted run with its first `n` pauses known. */
  function Pauses(p: Policy, n: nat): (ps: seq<Pause>)
    ensures |ps| == n && PausesFrom(p, 0, ps)
  {
    if n == 0 then [] else Pauses(p, n - 1) + [PauseFor(p, n)]
  }

  /** When every attempt is retried, the operation makes exactly `Budget(maxRetries)`
      attempts, pauses after each of them, the k-th pause being for `backoffInterval * k`,
      and throws `exhausted`. */
  lemma AllRetriedExhausts<T>(p: Policy, steps: nat -> Step<T>, exhausted: string)
    requires AllRetry(steps, 0, Budget(p.maxRetries))
    ensures Execute(p, steps, exhausted) == Run(Failure(exhausted), Budget(p.maxRetries), Pauses(p, Budget(p.maxRetries)))
  {
    var r := Execute(p, steps, exhausted);
    var b := Budget(p.maxRetries);
    assert 0 < r.attempts ==> steps(r.attempts - 1).Retry?;
    assert r.pauses == Pauses(p, b);
  }

  /** The retry counter only moves on retried attempts, so a run with `n` retries before its
      last attempt made `n + 1` attempts, or `n` when the budget ran out. */
  lemma PausesCountRetries<T>(p: Policy, steps: nat -> Step<T>, exhausted: string)
    ensures var r := Execute(p, steps, exhausted);
            |r.pauses| == (if r.result == Failure(exhausted) && AllRetry(steps, 0, r.attempts) then r.attempts else r.attempts - 1)
  {
    var r := Execute(p, steps, exhausted);
    assert 0 < r.attempts && AllRetry(steps, 0, r.attempts) ==> steps(r.attempts - 1).Retry?;
  }

  /** Every pause of a run ends on the idealised clock when the wait loop has a positive
      wait time or no bound. */
  lemma PausesEnd(p: Policy, n: nat)
    requires p.shape.UntilElapsed? ==> p.backoffInterval > 0 || p.shape.maxWaitTime <= 0
    ensures AllEnd(Pauses(p, n))
  {
    var ps := Pauses(p, n);
    forall j | 0 <= j < n
      ensures Ends(ps[j])
    {
      assert ps[j] == PauseFor(p, j + 1);
      if p.shape.UntilElapsed? && p.backoffInterval > 0 {
        assert p.backoffInterval * (j + 1) >= p.backoffInterval;
      }
    }
  }

  /** Single sleeps grow linearly, so `n` of them take `backoffInterval * n * (n + 1) / 2`. */
  lemma {:induction false} SleepTotal(p: Policy, n: nat)
    requires p.shape == SingleSleep
    ensures AllEnd(Pauses(p, n))
    ensures 2 * TotalDuration(Pauses(p, n)) == p.backoffInterval * n * (n + 1)
  {
    PausesEnd(p, n);
    if n > 0 {
      SleepTotal(p, n - 1);
      var ps := Pauses(p, n);
      assert ps[..n - 1] == Pauses(p, n - 1);
      assert ps[n - 1] == Sleep(p.backoffInterval * n);
      assert p.backoffInterval * (n - 1) * n + 2 * (p.backoffInterval * n) == p.backoffInterval * n * (n + 1);
    }
  }

  /** Each wait loop lasts at least its bound and less than one extra sleep beyond it, so
      `n` of them take at least `n * maxWaitTime` and at most that plus what `n` single
      sleeps would take. There is no cap on the total. */
  lemma {:induction false} WaitLoopTotal(p: Policy, n: nat)
    requires p.shape.UntilElapsed? && p.shape.maxWaitTime > 0 && p.backoffInterval > 0
    ensures AllEnd(Pauses(p, n))
    ensures n * p.shape.maxWaitTime <= TotalDuration(Pauses(p, n))
    ensures 2 * TotalDuration(Pauses(p, n)) <= 2 * n * p.shape.maxWaitTime + p.backoffInterval * n * (n + 1)
  {
    PausesEnd(p, n);
    if n > 0 {
      WaitLoopTotal(p, n - 1);
      var ps := Pauses(p, n);
      var m := p.shape.maxWaitTime;
      assert ps[..n - 1] == Pauses(p, n - 1);
      assert ps[n - 1] == WaitLoop(p.backoffInterval * n, m);
      WaitLoopStep(n, m, p.backoffInterval, TotalDuration(ps[..n - 1]), IdealWait(p.backoffInterval * n, m));
    }
  }

  /** With no positive bound every wait loop returns at once, so `n` of them take no time at
      all, whatever the wait time. */
  lemma {:induction false} WaitLoopUnboundedTotal(p: Policy, n: nat)
    requires p.shape.UntilElapsed? && p.shape.maxWaitTime <= 0
    ensures AllEnd(Pauses(p, n))
    ensures TotalDuration(Pauses(p, n)) == 0
  {
    PausesEnd(p, n);
    if n > 0 {
      WaitLoopUnboundedTotal(p, n - 1);
      var ps := Pauses(p, n);
      assert ps[..n - 1] == Pauses(p, n - 1);
      assert ps[n - 1] == WaitLoop(p.backoffInterval * n, p.shape.maxWaitTime);
    }
  }

  /** The arithmetic of one more wait loop in `WaitLoopTotal`. */
  lemma WaitLoopStep(n: nat, m: int, b: nat, before: int, d: int)
    requires n > 0
    requires (n - 1) * m <= before
    requires 2 * before <= 2 * (n - 1) * m + b * (n - 1) * n
    requires m <= d < m + b * n
    ensures n * m <= before + d
    ensures 2 * (before + d) <= 2 * n * m + b * n * (n + 1)
  {
    assert (n - 1) * m + m == n * m;
    assert 2 * (n - 1) * m + 2 * m == 2 * n * m;
    assert b * (n - 1) * n + 2 * (b * n) == b * n * (n + 1);
  }
}
