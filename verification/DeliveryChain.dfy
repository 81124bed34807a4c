/**
 One chain of `deliver_webhook_event` tasks: each task that is told to retry enqueues the next
 (webhook_ops/webhooks/tasks.py, delivery.py).
 */
module DeliveryChain {
  import opened Delivery

  function Remaining(db: Db): nat {
    if db.event.attemptCount < db.event.maxAttempts then db.event.maxAttempts - db.event.attemptCount else 0
  }

  /** The chain against a destination that answers every attempt with `error`: the rows it leaves
      and its countdowns, in order. */
  function FailingChain(db: Db, error: string, now: int): (Db, seq<nat>)
    decreases Remaining(db)
  {
    var (after, result) := DeliverOnce(db, false, error, now);
    if result.retryAfter == 0 then (after, [])
    else
      var (last, delays) := FailingChain(after, error, now + result.retryAfter);
      (last, [result.retryAfter] + delays)
  }

  function Sum(xs: seq<nat>): nat {
    if xs == [] then 0 else xs[0] + Sum(xs[1..])
  }

  /** The sum of the delays after attempts `lo + 1` to `hi`. */
  function DelaySum(lo: nat, hi: nat): nat
    requires lo <= hi
    decreases hi - lo
  {
    if lo == hi then 0 else RetryDelay(lo + 1) + DelaySum(lo + 1, hi)
  }

  /** One task of the chain: one more failed attempt, and a retry unless it was the last. */
  lemma OneFailure(db: Db, error: string, now: int)
    requires Begins(db)
    ensures
      var (after, result) := DeliverOnce(db, false, error, now);
      var n := db.event.attemptCount + 1;
      && after.attempts == db.attempts + [Attempt(n, AttemptFailed, error)]
      && after.event.attemptCount == n && after.event.maxAttempts == db.event.maxAttempts
      && after.event.lastError == error
      && after.replays == (if n < db.event.maxAttempts then db.replays else SettleReplays(db, false, error).replays)
      && if n < db.event.maxAttempts then Begins(after) && result.retryAfter == RetryDelay(n) > 0
         else after.event.status.DeadLettered? && result.retryAfter == 0
  {
    DelaysGrow(db.event.attemptCount + 1, db.event.attemptCount + 1);
  }

  /** A chain that starts after `n` attempts makes the remaining ones, with the delays of
      `retry_delay_seconds`. */
  lemma {:induction false} ChainRuns(db: Db, error: string, now: int)
    requires Begins(db) && db.event.attemptCount < db.event.maxAttempts
    ensures
      var (last, delays) := FailingChain(db, error, now);
      var n, m := db.event.attemptCount, db.event.maxAttempts;
      && last.event.status.DeadLettered? && last.event.attemptCount == m && last.event.lastError == error
      && |last.attempts| == |db.attempts| + m - n
      && (forall i :: |db.attempts| <= i < |last.attempts| ==>
            last.attempts[i] == Attempt(n + 1 + i - |db.attempts|, AttemptFailed, error))
      && |delays| == m - n - 1
      && (forall i :: 0 <= i < |delays| ==> delays[i] == RetryDelay(n + 1 + i))
      && Sum(delays) == DelaySum(n, m - 1)
      && last.attempts[..|db.attempts|] == db.attempts
      && last.replays == SettleReplays(db, false, error).replays
    decreases Remaining(db)
  {
    hide DeliverOnce, RetryDelay;
    var (after, result) := DeliverOnce(db, false, error, now);
    OneFailure(db, error, now);
    if db.event.attemptCount + 1 < db.event.maxAttempts {
      ChainRuns(after, error, now + result.retryAfter);
    }
  }

  lemma {:induction false} SumSplit(lo: nat, mid: nat, hi: nat)
    requires lo <= mid <= hi
    ensures DelaySum(lo, hi) == DelaySum(lo, mid) + DelaySum(mid, hi)
    decreases mid - lo
  {
    if lo < mid {
      SumSplit(lo + 1, mid, hi);
    }
  }

  /** Up to the tenth attempt the delays double. */
  lemma {:induction false} EarlyDelays(n: nat)
    requires n <= 10
    ensures DelaySum(0, n) == 5 * (Pow2(n) - 1)
  {
    if n > 0 {
      EarlyDelays(n - 1);
      SumSplit(0, n - 1, n);
      assert DelaySum(n - 1, n) == RetryDelay(n);
      Pow2Grows(n - 1, 9);
      assert Pow2(9) == 512 by { assert Pow2(5) == 32; }
    }
  }

  /** From the eleventh on they are one hour. */
  lemma {:induction false} LateDelays(n: nat)
    requires n >= 10
    ensures DelaySum(10, n) == MAX_DELAY * (n - 10)
  {
    if n > 10 {
      LateDelays(n - 1);
      SumSplit(10, n - 1, n);
      Pow2Grows(10, n - 1);
      assert Pow2(10) == 1024 by { assert Pow2(5) == 32; }
      assert RetryDelay(n) == MAX_DELAY;
    }
  }

  lemma TotalDelay(m: nat)
    requires m >= 1
    ensures DelaySum(0, m - 1) == if m <= 11 then 5 * (Pow2(m - 1) - 1) else 5115 + 3600 * (m - 11)
  {
    if m <= 11 {
      EarlyDelays(m - 1);
    } else {
      SumSplit(0, 10, m - 1);
      EarlyDelays(10);
      LateDelays(m - 1);
      assert Pow2(10) == 1024 by { assert Pow2(5) == 32; }
    }
  }

  /** A new event with an active destination that always fails: exactly `max_attempts` attempts,
      numbered in order, then dead-lettered; the countdowns never shrink, stay between five seconds
      and one hour, and add up to the closed form. */
  lemma AlwaysFailing(db: Db, error: string, now: int)
    requires Begins(db) && db.event.attemptCount == 0 && db.attempts == []
    requires db.event.maxAttempts >= 1
    ensures
      var (last, delays) := FailingChain(db, error, now);
      var m := db.event.maxAttempts;
      && last.event.status.DeadLettered? && last.event.lastError == error
      && |last.attempts| == m
      && (forall i :: 0 <= i < m ==> last.attempts[i] == Attempt(i + 1, AttemptFailed, error))
      && |delays| == m - 1
      && (forall i :: 0 <= i < |delays| ==> 5 <= delays[i] <= 3600)
      && (forall i, j :: 0 <= i <= j < |delays| ==> delays[i] <= delays[j])
      && Sum(delays) == (if m <= 11 then 5 * (Pow2(m - 1) - 1) else 5115 + 3600 * (m - 11))
  {
    hide FailingChain, RetryDelay;
    var (last, delays) := FailingChain(db, error, now);
    var m := db.event.maxAttempts;
    ChainRuns(db, error, now);
    forall i, j | 0 <= i <= j < |delays| ensures 5 <= delays[i] <= delays[j] <= 3600 {
      DelaysGrow(i + 1, j + 1);
    }
    TotalDelay(m);
  }

  /** A replay starts over: whatever was tried before stays as it was, the failing chain makes
      `max_attempts` new attempts, numbered from one again, and in the end no replay is left queued. */
  lemma ReplayStartsOver(db: Db, error: string, now: int)
    requires db.event.active && db.event.maxAttempts >= 1
    ensures
      var (last, delays) := FailingChain(ReplayEvent(db, now), error, now);
      var m, n := db.event.maxAttempts, |db.attempts|;
      && last.event.status.DeadLettered? && last.event.lastError == error
      && |last.attempts| == n + m && last.attempts[..n] == db.attempts
      && (forall i :: n <= i < n + m ==> last.attempts[i] == Attempt(i - n + 1, AttemptFailed, error))
      && |last.replays| == |db.replays| + 1
      && (forall k :: 0 <= k < |last.replays| ==> !last.replays[k].status.ReplayQueued?)
      && last.replays[|db.replays|] == Replay(ReplayFailed, error)
  {
    ChainRuns(ReplayEvent(db, now), error, now);
    hide FailingChain;
  }

  /** A delivery that is skipped for want of a destination costs nothing: the event is due again at the
      same time, and once there is a destination the chain makes all the attempts that were left. */
  lemma SkippingCostsNothing(db: Db, error: string, now: int, later: int)
    requires !db.event.active && !db.event.status.Delivered? && db.event.attemptCount < db.event.maxAttempts
    ensures
      var (skipped, result) := DeliverOnce(db, false, error, now);
      var (last, delays) := FailingChain(skipped.(event := skipped.event.(active := true)), error, later);
      && result.retryAfter == 0 && skipped.attempts == db.attempts
      && (Due(skipped.event, later) <==> db.event.nextAttemptAt <= later)
      && |last.attempts| == |db.attempts| + db.event.maxAttempts - db.event.attemptCount
      && last.attempts[..|db.attempts|] == db.attempts
  {
    var skipped := DeliverOnce(db, false, error, now).0;
    ChainRuns(skipped.(event := skipped.event.(active := true)), error, later);
    hide FailingChain;
  }
}
