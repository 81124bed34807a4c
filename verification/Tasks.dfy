/**
 The two Celery tasks (webhook_ops/webhooks/tasks.py).
 */
module Tasks {
  import opened TextLaws
  import opened Delivery
  import opened DeliveryRows
  import opened DeliveryChain

  const SWEEP_LIMIT := 100

  /** A `deliver_webhook_event` task in the queue. */
  datatype Job = Job(event: nat, countdown: nat)

  /** The ids of the events that are due, in the order of the table. */
  function DueIds(events: seq<(nat, Event)>, now: int): seq<nat> {
    if events == [] then []
    else (if Due(events[0].1, now) then [events[0].0] else []) + DueIds(events[1..], now)
  }

  /** Exactly the due events are picked up, each as often as it is in the table. */
  lemma {:induction false} DueIdsAreDue(events: seq<(nat, Event)>, now: int, id: nat)
    ensures id in DueIds(events, now) <==> exists k :: 0 <= k < |events| && events[k].0 == id && Due(events[k].1, now)
    ensures |DueIds(events, now)| <= |events|
  {
    if events != [] {
      DueIdsAreDue(events[1..], now, id);
      if id in DueIds(events[1..], now) {
        var k :| 0 <= k < |events[1..]| && events[1..][k].0 == id && Due(events[1..][k].1, now);
        assert events[k + 1] == events[1..][k];
      }
      if exists k :: 1 <= k < |events| && events[k].0 == id && Due(events[k].1, now) {
        var k :| 1 <= k < |events| && events[k].0 == id && Due(events[k].1, now);
        assert events[k] == events[1..][k - 1];
      }
    }
  }

  /** In the order of the table, each as often as it is there. */
  lemma {:induction false} DueIdsInOrder(a: seq<(nat, Event)>, id: nat, e: Event, b: seq<(nat, Event)>, now: int)
    ensures DueIds(a + [(id, e)] + b, now)
            == DueIds(a, now) + (if (e.status.Queued? || e.status.Failed?) && e.nextAttemptAt <= now then [id] else []) + DueIds(b, now)
  {
    DueIdsOfTwo(a + [(id, e)], b, now);
    DueIdsOfTwo(a, [(id, e)], now);
    assert [(id, e)][1..] == [];
    assert DueIds([(id, e)], now) == if Due(e, now) then [id] else [];
    hide DueIds;
  }

  lemma {:induction false} DueIdsOfTwo(a: seq<(nat, Event)>, b: seq<(nat, Event)>, now: int)
    ensures DueIds(a + b, now) == DueIds(a, now) + DueIds(b, now)
  {
    if a == [] {
      assert a + b == b;
    } else {
      DueIdsOfTwo(a[1..], b, now);
      assert (a + b)[1..] == a[1..] + b;
      var head := if Due(a[0].1, now) then [a[0].0] else [];
      assert DueIds(a, now) == head + DueIds(a[1..], now) && DueIds(a + b, now) == head + DueIds(a[1..] + b, now);
      hide DueIds;
      Associate(head, DueIds(a[1..], now), DueIds(b, now));
    }
  }

  class Worker {
    var queue: seq<Job>

    constructor ()
      ensures queue == []
    {
      queue := [];
    }

    /** `deliver_webhook_event`: a retry is one more task, behind its countdown. */
    method DeliverWebhookEvent(id: nat, rows: Rows, ok: bool, error: string, now: int) returns (detail: string)
      modifies this, rows
      ensures
        var (after, result) := DeliverOnce(old(rows.Value()), ok, error, now);
        && rows.Value() == after && detail == result.detail
        && queue == old(queue) + (if result.retryAfter != 0 then [Job(id, result.retryAfter)] else [])
    {
      var result := rows.DeliverEvent(ok, error, now);
      if result.retryAfter != 0 {
        queue := queue + [Job(id, result.retryAfter)];
      }
      return result.detail;
    }

    /** `enqueue_due_webhook_events`: at most a hundred of the due events, in order. */
    method EnqueueDueWebhookEvents(events: seq<(nat, Event)>, now: int) returns (n: nat)
      modifies this
      ensures n == (if |DueIds(events, now)| < 100 then |DueIds(events, now)| else 100)
      ensures queue == old(queue) + seq(n, i requires 0 <= i < n <= |DueIds(events, now)| => Job(DueIds(events, now)[i], 0))
    {
      var ids := DueIds(events, now);
      if |ids| > SWEEP_LIMIT {
        ids := ids[..SWEEP_LIMIT];
      }
      for i := 0 to |ids|
        invariant queue == old(queue) + seq(i, k requires 0 <= k < i <= |ids| => Job(ids[k], 0))
      {
        queue := queue + [Job(ids[i], 0)];
      }
      return |ids|;
    }

    /** A worker with nothing else to do, against a destination that always fails: it runs the one task
        and then each retry as its countdown ends, until the queue is empty. */
    method RunFailingChain(id: nat, rows: Rows, error: string, start: int) returns (delays: seq<nat>)
      requires queue == []
      modifies this, rows
      ensures queue == []
      ensures (rows.Value(), delays) == FailingChain(old(rows.Value()), error, start)
    {
      hide FailingChain, DeliverOnce, ChainedTo;
      ghost var db := rows.Value();
      ghost var whole := FailingChain(db, error, start);
      var now := start;
      delays := [];
      ChainStarts(db, error, now);
      var _ := DeliverWebhookEvent(id, rows, false, error, now);
      while queue != []
        invariant |queue| <= 1 && (queue != [] ==> queue[0].event == id && queue[0].countdown > 0)
        invariant rows.Value() == DeliverOnce(db, false, error, now).0
        invariant DeliverOnce(db, false, error, now).1.retryAfter == if queue == [] then 0 else queue[0].countdown
        invariant ChainedTo(whole, db, error, now, delays)
        decreases Remaining(db)
      {
        var job := queue[0];
        ChainStep(whole, db, error, now, delays);
        queue := [];
        delays := delays + [job.countdown];
        db := rows.Value();
        now := now + job.countdown;
        var _ := DeliverWebhookEvent(id, rows, false, error, now);
      }
      ChainEnds(whole, db, error, now, delays);
    }
  }

  /** The chain `whole` is what is behind us, `delays`, and the chain from here. */
  ghost predicate ChainedTo(whole: (Db, seq<nat>), db: Db, error: string, now: int, delays: seq<nat>) {
    whole == (FailingChain(db, error, now).0, delays + FailingChain(db, error, now).1)
  }

  lemma ChainStarts(db: Db, error: string, now: int)
    ensures ChainedTo(FailingChain(db, error, now), db, error, now, [])
  {
    assert [] + FailingChain(db, error, now).1 == FailingChain(db, error, now).1;
  }

  lemma ChainStep(whole: (Db, seq<nat>), db: Db, error: string, now: int, delays: seq<nat>)
    requires ChainedTo(whole, db, error, now, delays) && DeliverOnce(db, false, error, now).1.retryAfter != 0
    ensures
      var (after, result) := DeliverOnce(db, false, error, now);
      && ChainedTo(whole, after, error, now + result.retryAfter, delays + [result.retryAfter])
      && Remaining(after) < Remaining(db)
  {
    var (after, result) := DeliverOnce(db, false, error, now);
    var rest := FailingChain(after, error, now + result.retryAfter).1;
    assert FailingChain(db, error, now).1 == [result.retryAfter] + rest;
    assert delays + ([result.retryAfter] + rest) == delays + [result.retryAfter] + rest;
  }

  lemma ChainEnds(whole: (Db, seq<nat>), db: Db, error: string, now: int, delays: seq<nat>)
    requires ChainedTo(whole, db, error, now, delays) && DeliverOnce(db, false, error, now).1.retryAfter == 0
    ensures whole == (DeliverOnce(db, false, error, now).0, delays)
  {
    assert delays + [] == delays;
  }
}
