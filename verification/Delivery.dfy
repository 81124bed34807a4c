/**
 Delivering one webhook event: the rows, and what each function of the delivery code does to them
 (webhook_ops/webhooks/delivery.py, replay.py, tasks.py).

 A `Db` is the event's row with its attempts, its replay requests and the actions of its audit log,
 each in order of creation.  A row-locked transaction is one function; `finalize_delivery_attempt`,
 which writes in several steps from a snapshot, is one function per write.
 */
module Delivery {
  import opened Text

  datatype EventStatus = Received | Queued | Delivering | Delivered | Failed | DeadLettered
  datatype AttemptStatus = Pending | Succeeded | AttemptFailed
  datatype ReplayStatus = ReplayQueued | ReplayCompleted | ReplayFailed

  /** `active`: the event has a destination and it is active. */
  datatype Event = Event(
    status: EventStatus, attemptCount: nat, maxAttempts: nat, active: bool,
    nextAttemptAt: int, lastError: string)

  datatype Attempt = Attempt(number: nat, status: AttemptStatus, error: string)
  datatype Replay = Replay(status: ReplayStatus, error: string)

  datatype Db = Db(event: Event, attempts: seq<Attempt>, replays: seq<Replay>, audit: seq<string>)

  /** `retryAfter` is zero for `None`: a delay never is (`DelaysGrow`). */
  datatype Result = Result(delivered: bool, retryAfter: nat, detail: string)

  const MAX_DELAY := 3600

  function Pow2(n: nat): (p: nat)
    ensures p >= 1
  {
    if n == 0 then 1 else 2 * Pow2(n - 1)
  }

  function RetryDelay(attemptCount: nat): nat {
    var delay := 5 * Pow2(if attemptCount == 0 then 0 else attemptCount - 1);
    if delay < MAX_DELAY then delay else MAX_DELAY
  }

  const NO_DESTINATION := "event has no active destination"

  function WithoutDestination(db: Db): Db {
    db.(event := db.event.(status := Failed, lastError := NO_DESTINATION),
        audit := db.audit + ["webhook.delivery_skipped"])
  }

  /** Whether `begin_delivery_attempt` makes an attempt. */
  predicate Begins(db: Db) {
    !db.event.status.Delivered? && db.event.active
  }

  function Begin(db: Db): Db {
    if db.event.status.Delivered? then db
    else if !db.event.active then WithoutDestination(db)
    else
      db.(event := db.event.(attemptCount := db.event.attemptCount + 1, status := Delivering, lastError := ""),
          attempts := db.attempts + [Attempt(db.event.attemptCount + 1, Pending, "")])
  }

  /** The first write of `finalize_delivery_attempt`. */
  function SaveAttempt(db: Db, i: nat, ok: bool, error: string): Db
    requires i < |db.attempts|
  {
    db.(attempts := db.attempts[i := db.attempts[i].(status := if ok then Succeeded else AttemptFailed, error := error)])
  }

  /** The three branches of `finalize_delivery_attempt`, taken on the snapshot. */
  datatype Outcome = Deliver | DeadLetter | Retry

  function Decide(snapshot: Event, ok: bool): Outcome {
    if ok then Deliver
    else if snapshot.attemptCount >= snapshot.maxAttempts then DeadLetter
    else Retry
  }

  /** The save of the event: `update_fields` names the status and, on failure, the next attempt and
      the error, so `attempt_count` keeps what the row holds by now. */
  function SaveEvent(db: Db, snapshot: Event, ok: bool, error: string, now: int): Db {
    var e := db.event;
    db.(event :=
      match Decide(snapshot, ok)
      case Deliver => e.(status := Delivered, lastError := "")
      case DeadLetter => e.(status := DeadLettered, nextAttemptAt := now, lastError := error)
      case Retry =>
        e.(status := Failed, nextAttemptAt := now + RetryDelay(snapshot.attemptCount), lastError := error))
  }

  function Settled(r: Replay, succeeded: bool, error: string): Replay {
    if r.status.ReplayQueued? then
      if succeeded then Replay(ReplayCompleted, "") else Replay(ReplayFailed, error)
    else r
  }

  /** `finalize_pending_replays` */
  function SettleReplays(db: Db, succeeded: bool, error: string): Db {
    db.(replays := seq(|db.replays|, i requires 0 <= i < |db.replays| => Settled(db.replays[i], succeeded, error)))
  }

  function AuditAction(o: Outcome): string {
    match o
    case Deliver => "webhook.delivered"
    case DeadLetter => "webhook.dead_lettered"
    case Retry => "webhook.delivery_failed"
  }

  function AddAudit(db: Db, action: string): Db {
    db.(audit := db.audit + [action])
  }

  function ResultOf(snapshot: Event, ok: bool, error: string): Result {
    match Decide(snapshot, ok)
    case Deliver => Result(true, 0, "delivered")
    case DeadLetter => Result(false, 0, "dead_lettered")
    case Retry => Result(false, RetryDelay(snapshot.attemptCount), error)
  }

  /** `replay_event` */
  function ReplayEvent(db: Db, now: int): Db {
    db.(event := db.event.(status := Queued, attemptCount := 0, nextAttemptAt := now, lastError := ""),
        replays := db.replays + [Replay(ReplayQueued, "")],
        audit := db.audit + ["webhook.replay_queued"])
  }

  /** `enqueue_due_webhook_events` picks the event up. */
  predicate Due(e: Event, now: int) {
    (e.status.Queued? || e.status.Failed?) && e.nextAttemptAt <= now
  }

  /** The whole of `finalize_delivery_attempt`, when nothing comes between its writes. */
  function Finalize(db: Db, i: nat, snapshot: Event, ok: bool, error: string, now: int): Db
    requires i < |db.attempts|
  {
    var o := Decide(snapshot, ok);
    var saved := SaveEvent(SaveAttempt(db, i, ok, error), snapshot, ok, error, now);
    var settled := if o.Retry? then saved else SettleReplays(saved, ok, error);
    AddAudit(settled, AuditAction(o))
  }

  /** The whole of `deliver_event`, when nothing comes between its steps. */
  function DeliverOnce(db: Db, ok: bool, error: string, now: int): (Db, Result) {
    var begun := Begin(db);
    if !Begins(db) then (begun, Result(false, 0, "nothing to deliver"))
    else
      var i := |db.attempts|;
      (Finalize(begun, i, begun.event, ok, error, now), ResultOf(begun.event, ok, error))
  }

  lemma {:induction false} Pow2Grows(m: nat, n: nat)
    requires m <= n
    ensures Pow2(m) <= Pow2(n)
    decreases n
  {
    if m < n {
      Pow2Grows(m, n - 1);
    }
  }

  /** The delays grow with the attempts and stay between five seconds and one hour: in particular a
      retry is never mistaken for "no retry" by the test `if result.retry_after_seconds`. */
  lemma DelaysGrow(m: nat, n: nat)
    requires m <= n
    ensures 5 <= RetryDelay(m) <= RetryDelay(n) <= 3600
  {
    Pow2Grows(if m == 0 then 0 else m - 1, if n == 0 then 0 else n - 1);
  }

  /** Events in delivery and settled ones are never picked up by a sweep; waiting ones are from their next
      attempt on. */
  lemma DueFromNextAttempt(e: Event)
    ensures (exists now :: Due(e, now)) <==> e.status.Queued? || e.status.Failed?
    ensures e.status.Queued? || e.status.Failed? ==> forall now :: Due(e, now) <==> now >= e.nextAttemptAt
  {
    if e.status.Queued? || e.status.Failed? {
      assert Due(e, e.nextAttemptAt);
    }
  }
}
