/**
 The delivery code on the rows themselves: each method updates the rows in place as the Python
 function of that name does, and is proved against the functions of module `Delivery`
 (webhook_ops/webhooks/delivery.py, replay.py).
 */
module DeliveryRows {
  import opened Text
  import opened Delivery

  /** Every replay that was queued is `settled`, and no other has changed. */
  predicate AllSettled(before: seq<Replay>, after: seq<Replay>, settled: Replay) {
    && |after| == |before|
    && forall k :: 0 <= k < |after| ==> after[k] == if before[k].status.ReplayQueued? then settled else before[k]
  }

  class Rows {
    var event: Event
    var attempts: seq<Attempt>
    var replays: seq<Replay>
    var audit: seq<string>

    constructor (event: Event)
      ensures Value() == Db(event, [], [], [])
    {
      this.event, attempts, replays, audit := event, [], [], [];
    }

    function Value(): Db
      reads this
    {
      Db(event, attempts, replays, audit)
    }

    method MarkEventWithoutDestination()
      modifies this
      ensures Value() == WithoutDestination(old(Value()))
      ensures event == old(event).(status := Failed, lastError := "event has no active destination")
      ensures attempts == old(attempts) && replays == old(replays)
      ensures audit == old(audit) + ["webhook.delivery_skipped"]
    {
      event := event.(status := Failed);
      event := event.(lastError := NO_DESTINATION);
      audit := audit + ["webhook.delivery_skipped"];
    }

    method BeginDeliveryAttempt() returns (attempt: Option<nat>)
      modifies this
      ensures Value() == Begin(old(Value()))
      ensures attempt == if Begins(old(Value())) then Some(|old(attempts)|) else None
      ensures attempt.Some? <==> !old(event).status.Delivered? && old(event).active
      ensures attempt.Some? ==>
                && event == old(event).(attemptCount := old(event).attemptCount + 1, status := Delivering, lastError := "")
                && attempts == old(attempts) + [Attempt(old(event).attemptCount + 1, Pending, "")]
                && audit == old(audit)
      ensures attempt.None? ==> attempts == old(attempts) && event.attemptCount == old(event).attemptCount
      ensures attempt.None? ==> event == if old(event).status.Delivered? then old(event)
                                         else old(event).(status := Failed, lastError := "event has no active destination")
      ensures replays == old(replays)
    {
      if event.status.Delivered? {
        return None;
      }
      if !event.active {
        MarkEventWithoutDestination();
        return None;
      }
      event := event.(attemptCount := event.attemptCount + 1);
      event := event.(status := Delivering);
      event := event.(lastError := "");
      attempts := attempts + [Attempt(event.attemptCount, Pending, "")];
      return Some(|attempts| - 1);
    }

    /** The update of all rows that are still queued, one row at a time. */
    method FinalizePendingReplays(succeeded: bool, error: string)
      modifies this`replays
      ensures Value() == SettleReplays(old(Value()), succeeded, error)
      ensures |replays| == |old(replays)|
      ensures forall k :: 0 <= k < |replays| ==>
                replays[k] == if !old(replays)[k].status.ReplayQueued? then old(replays)[k]
                              else if succeeded then Replay(ReplayCompleted, "") else Replay(ReplayFailed, error)
    {
      var i := 0;
      while i < |replays|
        invariant 0 <= i <= |replays| == |old(replays)|
        invariant forall k :: 0 <= k < i ==> replays[k] == Settled(old(replays)[k], succeeded, error)
        invariant forall k :: i <= k < |replays| ==> replays[k] == old(replays)[k]
      {
        if replays[i].status.ReplayQueued? {
          replays := replays[i := if succeeded then Replay(ReplayCompleted, "") else Replay(ReplayFailed, error)];
        }
        i := i + 1;
      }
    }

    /** `snapshot` is the event as it was read with the attempt. */
    method FinalizeDeliveryAttempt(i: nat, snapshot: Event, ok: bool, error: string, now: int) returns (r: Result)
      requires i < |attempts|
      modifies this
      ensures Value() == Finalize(old(Value()), i, snapshot, ok, error, now)
      ensures r == ResultOf(snapshot, ok, error)
      ensures |attempts| == |old(attempts)| && attempts[i].number == old(attempts)[i].number && attempts[i].error == error
      ensures attempts[i].status == if ok then Succeeded else AttemptFailed
      ensures forall k :: 0 <= k < |attempts| && k != i ==> attempts[k] == old(attempts)[k]
      // success
      ensures ok ==> event == old(event).(status := Delivered, lastError := "") && r == Result(true, 0, "delivered")
      ensures ok ==> AllSettled(old(replays), replays, Replay(ReplayCompleted, "")) && audit == old(audit) + ["webhook.delivered"]
      // the last failure
      ensures var last := !ok && snapshot.attemptCount >= snapshot.maxAttempts;
              last ==>
                && event == old(event).(status := DeadLettered, nextAttemptAt := now, lastError := error)
                && AllSettled(old(replays), replays, Replay(ReplayFailed, error))
                && audit == old(audit) + ["webhook.dead_lettered"] && r == Result(false, 0, "dead_lettered")
      // any other failure: due again when the countdown is over, and not before
      ensures var retry := !ok && snapshot.attemptCount < snapshot.maxAttempts;
              retry ==>
                && r.retryAfter == RetryDelay(snapshot.attemptCount) && 5 <= r.retryAfter <= 3600 && !r.delivered && r.detail == error
                && event == old(event).(status := Failed, nextAttemptAt := now + r.retryAfter, lastError := error)
                && (forall t :: Due(event, t) <==> t >= now + r.retryAfter)
                && replays == old(replays) && audit == old(audit) + ["webhook.delivery_failed"]
    {
      DelaysGrow(snapshot.attemptCount, snapshot.attemptCount);
      attempts := attempts[i := attempts[i].(status := if ok then Succeeded else AttemptFailed, error := error)];
      if ok {
        event := event.(status := Delivered, lastError := "");
        FinalizePendingReplays(true, error);
        audit := audit + ["webhook.delivered"];
        return Result(true, 0, "delivered");
      }
      if snapshot.attemptCount >= snapshot.maxAttempts {
        event := event.(status := DeadLettered, nextAttemptAt := now, lastError := error);
        FinalizePendingReplays(false, error);
        audit := audit + ["webhook.dead_lettered"];
        return Result(false, 0, "dead_lettered");
      }
      var retryAfter := RetryDelay(snapshot.attemptCount);
      event := event.(status := Failed, nextAttemptAt := now + retryAfter, lastError := error);
      audit := audit + ["webhook.delivery_failed"];
      return Result(false, retryAfter, error);
    }

    /** `ok` and `error` are the destination's answer. */
    method DeliverEvent(ok: bool, error: string, now: int) returns (r: Result)
      modifies this
      ensures (Value(), r) == DeliverOnce(old(Value()), ok, error, now)
      ensures
        var before := old(event);
        var n := before.attemptCount + 1;
        if before.status.Delivered? || !before.active then
          r == Result(false, 0, "nothing to deliver") && attempts == old(attempts) && event.attemptCount == before.attemptCount
        else
          && attempts == old(attempts) + [Attempt(n, if ok then Succeeded else AttemptFailed, error)]
          && event.attemptCount == n && event.maxAttempts == before.maxAttempts
          && event.status == (if ok then Delivered else if n >= before.maxAttempts then DeadLettered else Failed)
          && (r.retryAfter > 0 <==> event.status.Failed?) && r.delivered == ok
    {
      var attempt := BeginDeliveryAttempt();
      if attempt.None? {
        return Result(false, 0, "nothing to deliver");
      }
      var snapshot := event;
      r := FinalizeDeliveryAttempt(attempt.value, snapshot, ok, error, now);
    }

    method RequestReplay(now: int)
      modifies this
      ensures Value() == ReplayEvent(old(Value()), now)
      ensures event == old(event).(status := Queued, attemptCount := 0, nextAttemptAt := now, lastError := "")
      ensures Due(event, now) && attempts == old(attempts)
      ensures replays == old(replays) + [Replay(ReplayQueued, "")] && audit == old(audit) + ["webhook.replay_queued"]
    {
      replays := replays + [Replay(ReplayQueued, "")];
      event := event.(status := Queued);
      event := event.(attemptCount := 0);
      event := event.(nextAttemptAt := now);
      event := event.(lastError := "");
      audit := audit + ["webhook.replay_queued"];
    }
  }
}
