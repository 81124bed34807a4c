/**
 Any number of `deliver_webhook_event` tasks on one event, with replays, sweeps and changes of the
 destination in between, in any interleaving
 (webhook_ops/webhooks/delivery.py, tasks.py, replay.py).

 A step is one transaction or one write.  A task that has begun an attempt reads the event again
 (`Fetch`), and everything it decides afterwards it decides on that snapshot.
 */
module DeliveryRuns {
  import opened Text
  import opened Delivery

  /** Where a task is; `i` is the index of its attempt. */
  datatype Task =
    | InQueue
    | Begun(i: nat)
    | Fetched(i: nat, snapshot: Event)
    | Recorded(i: nat, snapshot: Event, ok: bool, error: string)
    | Saved(i: nat, snapshot: Event, ok: bool, error: string)
    | Auditing(i: nat, outcome: Outcome)
    | Chaining(i: nat)
    | Finished

  /** History: `epoch` is the number of attempts begun before the last replay, `outcomes` what each
      finalisation decided, `begun` the tasks that have run `begin_delivery_attempt`, `chained` the
      attempts whose retry has been enqueued, `external` how many tasks came from elsewhere. */
  datatype State = State(
    db: Db, tasks: map<nat, Task>, nextTask: nat,
    epoch: nat, outcomes: map<nat, Outcome>, begun: set<nat>, chained: set<nat>, external: nat)

  datatype Step =
    | Enqueue
    | Sweep(now: int)
    | BeginStep(t: nat)
    | Fetch(t: nat)
    | Record(t: nat, ok: bool, error: string)
    | Save(t: nat, now: int)
    | Settle(t: nat)
    | Audit(t: nat)
    | Chain(t: nat)
    | RequestReplay(now: int)
    | SetActive(active: bool)

  function Init(event: Event): State {
    State(Db(event, [], [], []), map[], 0, 0, map[], {}, {}, 0)
  }

  /** A new event: no attempts yet. */
  predicate Fresh(event: Event) {
    event.attemptCount == 0 && (event.status.Queued? || event.status.Received?)
  }

  predicate Can(s: State, step: Step) {
    match step
    case Enqueue => true
    case Sweep(now) => Due(s.db.event, now)
    case BeginStep(t) => t in s.tasks && s.tasks[t].InQueue?
    case Fetch(t) => t in s.tasks && s.tasks[t].Begun?
    case Record(t, _, _) => t in s.tasks && s.tasks[t].Fetched? && s.tasks[t].i < |s.db.attempts|
    case Save(t, _) => t in s.tasks && s.tasks[t].Recorded?
    case Settle(t) => t in s.tasks && s.tasks[t].Saved?
    case Audit(t) => t in s.tasks && s.tasks[t].Auditing?
    case Chain(t) => t in s.tasks && s.tasks[t].Chaining?
    case RequestReplay(_) => true
    case SetActive(_) => true
  }

  function AddTask(s: State): State {
    s.(tasks := s.tasks[s.nextTask := InQueue], nextTask := s.nextTask + 1)
  }

  function Move(s: State, t: nat, task: Task): State {
    s.(tasks := s.tasks[t := task])
  }

  function Apply(s: State, step: Step): State
    requires Can(s, step)
  {
    match step
    case Enqueue => AddTask(s).(external := s.external + 1)
    case Sweep(_) => AddTask(s).(external := s.external + 1)
    case BeginStep(t) =>
      Move(s, t, if Begins(s.db) then Begun(|s.db.attempts|) else Finished)
      .(db := Begin(s.db), begun := s.begun + {t})
    case Fetch(t) => Move(s, t, Fetched(s.tasks[t].i, s.db.event))
    case Record(t, ok, error) =>
      var task := s.tasks[t];
      Move(s, t, Recorded(task.i, task.snapshot, ok, error)).(db := SaveAttempt(s.db, task.i, ok, error))
    case Save(t, now) =>
      var task := s.tasks[t];
      var o := Decide(task.snapshot, task.ok);
      Move(s, t, if o.Retry? then Auditing(task.i, o) else Saved(task.i, task.snapshot, task.ok, task.error))
      .(db := SaveEvent(s.db, task.snapshot, task.ok, task.error, now), outcomes := s.outcomes[task.i := o])
    case Settle(t) =>
      var task := s.tasks[t];
      Move(s, t, Auditing(task.i, Decide(task.snapshot, task.ok))).(db := SettleReplays(s.db, task.ok, task.error))
    case Audit(t) =>
      var task := s.tasks[t];
      Move(s, t, if task.outcome.Retry? then Chaining(task.i) else Finished)
      .(db := AddAudit(s.db, AuditAction(task.outcome)))
    case Chain(t) =>
      var i := s.tasks[t].i;
      AddTask(Move(s, t, Finished)).(chained := s.chained + {i})
    case RequestReplay(now) => s.(db := ReplayEvent(s.db, now), epoch := |s.db.attempts|)
    case SetActive(active) => s.(db := s.db.(event := s.db.event.(active := active)))
  }

  predicate Runs(s: State, steps: seq<Step>, s': State)
    decreases |steps|
  {
    if steps == [] then s == s'
    else Can(s, steps[0]) && Runs(Apply(s, steps[0]), steps[1..], s')
  }

  // ---- the invariant ----------------------------------------------------------------------------

  /** The attempts since the last replay are numbered 1, 2, ... up to the event's count. */
  predicate Numbered(s: State) {
    && s.epoch <= |s.db.attempts|
    && s.db.event.attemptCount == |s.db.attempts| - s.epoch
    && (forall i :: s.epoch <= i < |s.db.attempts| ==> s.db.attempts[i].number == i - s.epoch + 1)
  }

  predicate HasAttempt(task: Task) {
    !task.InQueue? && !task.Finished?
  }

  predicate HasSnapshot(task: Task) {
    task.Fetched? || task.Recorded? || task.Saved?
  }

  /** The task has still to decide. */
  predicate Open(task: Task) {
    task.Begun? || task.Fetched? || task.Recorded?
  }

  predicate TaskOwned(s: State, t: nat)
    requires t in s.tasks
  {
    var task := s.tasks[t];
    && t < s.nextTask
    && (HasAttempt(task) ==> task.i < |s.db.attempts| && task.i !in s.chained)
    && (Open(task) ==> task.i !in s.outcomes)
    && (task.Saved? ==> Decided(s, task.i, Decide(task.snapshot, task.ok)) && !Decide(task.snapshot, task.ok).Retry?)
    && (task.Auditing? ==> Decided(s, task.i, task.outcome))
    && (task.Chaining? ==> Decided(s, task.i, Retry))
  }

  predicate Decided(s: State, i: nat, o: Outcome) {
    i in s.outcomes && s.outcomes[i] == o
  }

  predicate Apart(s: State, t: nat, u: nat)
    requires t in s.tasks && u in s.tasks
  {
    t != u && HasAttempt(s.tasks[t]) && HasAttempt(s.tasks[u]) ==> s.tasks[t].i != s.tasks[u].i
  }

  /** Every attempt belongs to one task, is decided once and chained at most once. */
  predicate Owned(s: State) {
    && (forall t :: t in s.tasks ==> TaskOwned(s, t))
    && (forall t, u :: t in s.tasks && u in s.tasks ==> Apart(s, t, u))
    && (forall i :: i in s.outcomes ==> i < |s.db.attempts|)
    && (forall i :: i in s.chained ==> Decided(s, i, Retry))
  }

  /** Tasks and attempts add up. */
  predicate Counted(s: State) {
    && s.nextTask == s.external + |s.chained|
    && |s.db.attempts| <= |s.begun|
    && (forall t :: t in s.begun ==> t in s.tasks && !s.tasks[t].InQueue?)
  }

  /** Without a replay, a snapshot counts at least the attempt it belongs to. */
  predicate Unreplayed(s: State) {
    s.db.replays == [] ==>
      && s.epoch == 0
      && (forall t :: t in s.tasks && HasSnapshot(s.tasks[t]) ==>
            s.tasks[t].i < s.tasks[t].snapshot.attemptCount && s.tasks[t].snapshot.maxAttempts == s.db.event.maxAttempts)
      && (forall i :: i in s.outcomes && s.outcomes[i].Retry? ==> i + 1 < s.db.event.maxAttempts)
  }

  predicate Terminal(status: EventStatus) {
    status.Delivered? || status.DeadLettered?
  }

  predicate Stranded(db: Db) {
    Terminal(db.event.status) && exists k :: 0 <= k < |db.replays| && db.replays[k].status.ReplayQueued?
  }

  /** A queued replay on a terminal event is about to be settled. */
  ghost predicate Attended(s: State) {
    Stranded(s.db) ==> exists t :: t in s.tasks && s.tasks[t].Saved?
  }

  ghost predicate Inv(s: State) {
    Numbered(s) && Owned(s) && Counted(s) && Unreplayed(s) && Attended(s)
  }

  // ---- every step keeps it ----------------------------------------------------------------------

  lemma StepNumbered(s: State, step: Step)
    requires Numbered(s) && Owned(s) && Can(s, step)
    ensures Numbered(Apply(s, step))
  {
  }

  /** The task a step is about. */
  function Subject(s: State, step: Step): nat {
    match step
    case BeginStep(t) => t
    case Fetch(t) => t
    case Record(t, _, _) => t
    case Save(t, _) => t
    case Settle(t) => t
    case Audit(t) => t
    case Chain(t) => t
    case _ => s.nextTask
  }

  /** All other tasks are left alone. */
  lemma OthersStay(s: State, step: Step, u: nat)
    requires Owned(s) && Can(s, step) && u in s.tasks && u != Subject(s, step)
    ensures u in Apply(s, step).tasks && Apply(s, step).tasks[u] == s.tasks[u]
    ensures TaskOwned(Apply(s, step), u)
  {
    assert TaskOwned(s, u);
    if Subject(s, step) in s.tasks {
      assert Apart(s, u, Subject(s, step));
      assert TaskOwned(s, Subject(s, step));
    }
  }

  lemma SubjectOwned(s: State, step: Step, t: nat)
    requires Owned(s) && Can(s, step) && t in Apply(s, step).tasks && (t !in s.tasks || t == Subject(s, step))
    ensures TaskOwned(Apply(s, step), t)
  {
    if t in s.tasks {
      assert TaskOwned(s, t);
    }
  }

  lemma StillApart(s: State, step: Step, t: nat, u: nat)
    requires Owned(s) && Can(s, step) && t in Apply(s, step).tasks && u in Apply(s, step).tasks
    ensures Apart(Apply(s, step), t, u)
  {
    if t in s.tasks {
      assert TaskOwned(s, t);
    }
    if u in s.tasks {
      assert TaskOwned(s, u);
    }
    if t in s.tasks && u in s.tasks {
      assert Apart(s, t, u);
    }
  }

  lemma StepOwned(s: State, step: Step)
    requires Owned(s) && Can(s, step)
    ensures Owned(Apply(s, step))
  {
    hide TaskOwned, Apart;
    var s' := Apply(s, step);
    forall t | t in s'.tasks ensures TaskOwned(s', t) {
      if t in s.tasks && t != Subject(s, step) {
        OthersStay(s, step, t);
      } else {
        SubjectOwned(s, step, t);
      }
    }
    forall t, u | t in s'.tasks && u in s'.tasks ensures Apart(s', t, u) {
      StillApart(s, step, t, u);
    }
    OutcomesGrow(s, step);
  }

  lemma OutcomesGrow(s: State, step: Step)
    requires Owned(s) && Can(s, step)
    ensures forall i :: i in Apply(s, step).outcomes ==> i < |Apply(s, step).db.attempts|
    ensures forall i :: i in Apply(s, step).chained ==> Decided(Apply(s, step), i, Retry)
  {
    if Subject(s, step) in s.tasks {
      assert TaskOwned(s, Subject(s, step));
    }
  }

  lemma StepCounted(s: State, step: Step)
    requires Owned(s) && Counted(s) && Can(s, step)
    ensures Counted(Apply(s, step))
  {
  }

  lemma StepUnreplayed(s: State, step: Step)
    requires Numbered(s) && Owned(s) && Unreplayed(s) && Can(s, step)
    ensures Unreplayed(Apply(s, step))
  {
  }

  lemma StepAttended(s: State, step: Step)
    requires Owned(s) && Attended(s) && Can(s, step)
    ensures Attended(Apply(s, step))
  {
    var s' := Apply(s, step);
    if Stranded(s'.db) && !step.Settle? {
      if step.Save? {
        assert TaskOwned(s, step.t);
        if !Stranded(s.db) {
          assert s'.tasks[step.t].Saved?;
        } else {
          var t :| t in s.tasks && s.tasks[t].Saved?;
          assert s'.tasks[t].Saved?;
        }
      } else {
        assert Stranded(s.db);
        var t :| t in s.tasks && s.tasks[t].Saved?;
        assert TaskOwned(s, t);
        assert s'.tasks[t].Saved?;
      }
    }
  }

  lemma StepKeepsInv(s: State, step: Step)
    requires Inv(s) && Can(s, step)
    ensures Inv(Apply(s, step))
  {
    hide Numbered, Owned, Counted, Unreplayed, Attended, Apply;
    StepNumbered(s, step);
    StepOwned(s, step);
    StepCounted(s, step);
    StepUnreplayed(s, step);
    StepAttended(s, step);
  }

  lemma {:induction false} RunsKeepInv(s: State, steps: seq<Step>, s': State)
    requires Inv(s) && Runs(s, steps, s')
    ensures Inv(s')
    decreases |steps|
  {
    hide Inv;
    if steps != [] {
      StepKeepsInv(s, steps[0]);
      RunsKeepInv(Apply(s, steps[0]), steps[1..], s');
    }
  }

  lemma Reachable(event: Event, steps: seq<Step>, s: State)
    requires Fresh(event) && Runs(Init(event), steps, s)
    ensures Inv(s)
  {
    RunsKeepInv(Init(event), steps, s);
  }

  // ---- what follows -----------------------------------------------------------------------------

  /** In every interleaving the event counts exactly the attempts begun since its last replay, and
      they carry the numbers from 1 to that count, once each: saves from a stale snapshot never
      touch the count. */
  lemma AttemptNumbering(event: Event, steps: seq<Step>, s: State)
    requires Fresh(event) && Runs(Init(event), steps, s)
    ensures s.epoch <= |s.db.attempts| && s.db.event.attemptCount == |s.db.attempts[s.epoch..]|
    ensures forall i :: s.epoch <= i < |s.db.attempts| ==> s.db.attempts[i].number == i - s.epoch + 1
  {
    Reachable(event, steps, s);
  }

  /** An event that is delivered or dead-lettered while a replay of it is still queued is about to
      have that replay settled; when no task is running, there is no such event. */
  lemma NoStrandedReplay(event: Event, steps: seq<Step>, s: State)
    requires Fresh(event) && Runs(Init(event), steps, s)
    ensures Stranded(s.db) ==> exists t :: t in s.tasks && s.tasks[t].Saved?
    ensures (forall t :: t in s.tasks ==> s.tasks[t].InQueue? || s.tasks[t].Finished?) ==> !Stranded(s.db)
  {
    Reachable(event, steps, s);
  }

  lemma {:induction false} BelowBound(xs: set<nat>, n: nat)
    requires forall x :: x in xs ==> x < n
    ensures |xs| <= n
  {
    if n == 0 {
      assert xs == {};
    } else {
      BelowBound(xs - {n - 1}, n - 1);
    }
  }

  /** The finalisations that took the retry branch. */
  function Retried(s: State): set<nat> {
    set i | i in s.outcomes && s.outcomes[i].Retry?
  }

  /** How many retries `max_attempts` leaves. */
  function Allowance(maxAttempts: nat): nat {
    if maxAttempts == 0 then 0 else maxAttempts - 1
  }

  /** In a run without replays at most `max_attempts - 1` finalisations ask for a retry, whatever
      number of tasks there is; every other failing one dead-letters.  So the chain of retries
      ends: the tasks are at most those enqueued from outside plus `max_attempts - 1`. */
  lemma BoundedRetries(event: Event, steps: seq<Step>, s: State)
    requires Fresh(event) && Runs(Init(event), steps, s) && s.db.replays == []
    ensures |Retried(s)| <= Allowance(event.maxAttempts)
    ensures forall i :: i in Retried(s) ==> i < |s.db.attempts| && s.db.attempts[i].number < event.maxAttempts
    ensures |s.tasks| <= s.external + Allowance(event.maxAttempts)
  {
    Reachable(event, steps, s);
    MaxNeverChanges(Init(event), steps, s);
    BelowBound(Retried(s), Allowance(event.maxAttempts));
    assert s.chained <= Retried(s);
    SubsetSize(s.chained, Retried(s));
    forall t | t in s.tasks ensures t < s.nextTask {
      assert TaskOwned(s, t);
    }
    BelowBound(s.tasks.Keys, s.nextTask);
  }

  lemma {:induction false} SubsetSize(xs: set<nat>, ys: set<nat>)
    requires xs <= ys
    ensures |xs| <= |ys|
  {
    if xs != {} {
      var x :| x in xs;
      SubsetSize(xs - {x}, ys - {x});
    }
  }

  lemma {:induction false} MaxNeverChanges(s: State, steps: seq<Step>, s': State)
    requires Runs(s, steps, s')
    ensures s'.db.event.maxAttempts == s.db.event.maxAttempts
    decreases |steps|
  {
    if steps != [] {
      MaxNeverChanges(Apply(s, steps[0]), steps[1..], s');
    }
  }

  /** `attempt_count` can pass `max_attempts`, since a dead-lettered event is begun again by whoever
      still holds a task for it; but never by more than the extra tasks from outside. */
  lemma AttemptBound(event: Event, steps: seq<Step>, s: State)
    requires Fresh(event) && Runs(Init(event), steps, s) && s.db.replays == []
    ensures s.db.event.attemptCount <= s.external + Allowance(event.maxAttempts)
    ensures s.external <= 1 && event.maxAttempts >= 1 ==> s.db.event.attemptCount <= event.maxAttempts
  {
    Reachable(event, steps, s);
    BoundedRetries(event, steps, s);
    SubsetSize(s.begun, s.tasks.Keys);
  }

  lemma {:induction false} RunsAppend(s: State, steps: seq<Step>, s': State, step: Step)
    requires Runs(s, steps, s') && Can(s', step)
    ensures Runs(s, steps + [step], Apply(s', step))
    decreases |steps|
  {
    if steps == [] {
      assert [step][1..] == [];
      assert steps + [step] == [step];
    } else {
      RunsAppend(Apply(s, steps[0]), steps[1..], s', step);
      assert (steps + [step])[1..] == steps[1..] + [step];
    }
  }

  lemma Take(s0: State, steps: seq<Step>, s: State, step: Step) returns (steps': seq<Step>, s': State)
    requires Runs(s0, steps, s) && Can(s, step)
    ensures Runs(s0, steps', s') && s' == Apply(s, step)
  {
    RunsAppend(s0, steps, s, step);
    steps', s' := steps + [step], Apply(s, step);
  }

  /** A task from outside and the retries it chains, when every attempt fails: the state after `n` of
      them, with one task of its own still in the queue. */
  lemma {:induction false} ChainSoFar(event: Event, n: nat) returns (steps: seq<Step>, s: State)
    requires Fresh(event) && n < event.maxAttempts
    ensures Runs(Init(event), steps, s)
    ensures s.external == 1 && s.nextTask == n + 1 && n in s.tasks && s.tasks[n].InQueue?
    ensures s.db.event.attemptCount == n == |s.db.attempts| && s.db.replays == []
    ensures s.db.event.maxAttempts == event.maxAttempts && s.db.event.active && !s.db.event.status.Delivered?
  {
    var s0 := Init(event);
    if n == 0 {
      steps, s := Take(s0, [], s0, SetActive(true));
      steps, s := Take(s0, steps, s, Enqueue);
    } else {
      steps, s := ChainSoFar(event, n - 1);
      steps, s := FailAndChain(s0, steps, s, n - 1);
    }
  }

  /** One task that fails and enqueues the next. */
  lemma FailAndChain(s0: State, steps: seq<Step>, s: State, t: nat) returns (steps': seq<Step>, s': State)
    requires Runs(s0, steps, s) && t in s.tasks && s.tasks[t].InQueue? && s.nextTask == t + 1
    requires s.db.event.active && !s.db.event.status.Delivered? && s.db.replays == []
    requires s.db.event.attemptCount == t == |s.db.attempts| && t + 1 < s.db.event.maxAttempts
    ensures Runs(s0, steps', s') && s'.external == s.external && s'.nextTask == t + 2
    ensures t + 1 in s'.tasks && s'.tasks[t + 1].InQueue?
    ensures s'.db.event.attemptCount == t + 1 == |s'.db.attempts| && s'.db.replays == []
    ensures s'.db.event.maxAttempts == s.db.event.maxAttempts && s'.db.event.active && !s'.db.event.status.Delivered?
  {
    hide Runs;
    steps', s' := Take(s0, steps, s, BeginStep(t));
    steps', s' := Take(s0, steps', s', Fetch(t));
    steps', s' := Take(s0, steps', s', Record(t, false, "destination returned HTTP 500"));
    steps', s' := Take(s0, steps', s', Save(t, 0));
    steps', s' := Take(s0, steps', s', Audit(t));
    steps', s' := Take(s0, steps', s', Chain(t));
  }

  /** More tasks from outside, each of which begins an attempt. */
  lemma {:induction false} OthersBegin(s0: State, steps: seq<Step>, s: State, n: nat) returns (steps': seq<Step>, s': State)
    requires Runs(s0, steps, s) && s.db.event.active && !s.db.event.status.Delivered? && s.db.replays == []
    ensures Runs(s0, steps', s') && s'.external == s.external + n && s'.db.replays == []
    ensures s'.db.event.attemptCount == s.db.event.attemptCount + n && s'.nextTask == s.nextTask + n
    ensures s'.db.event.active && !s'.db.event.status.Delivered?
    decreases n
  {
    if n == 0 {
      steps', s' := steps, s;
    } else {
      steps', s' := OthersBegin(s0, steps, s, n - 1);
      var t := s'.nextTask;
      steps', s' := Take(s0, steps', s', Enqueue);
      steps', s' := Take(s0, steps', s', BeginStep(t));
    }
  }

  /** `n` tasks from outside can each begin an attempt, whatever `max_attempts` is. */
  lemma CountHasNoCeiling(event: Event, n: nat) returns (steps: seq<Step>, s: State)
    requires Fresh(event) && event.active
    ensures Runs(Init(event), steps, s)
    ensures s.db.event.attemptCount == n && s.external == n == s.nextTask && s.db.replays == []
    ensures s.db.event.active && !s.db.event.status.Delivered?
  {
    steps, s := OthersBegin(Init(event), [], Init(event), n);
  }

  /** The bound is reached: for every number of tasks from outside, and every new event, there is a run
      that makes all the attempts `AttemptBound` allows. */
  lemma AttemptBoundIsReached(event: Event, external: nat) returns (steps: seq<Step>, s: State)
    requires Fresh(event) && external >= 1
    ensures Runs(Init(event), steps, s) && s.db.replays == [] && s.external == external
    ensures s.db.event.attemptCount == external + Allowance(event.maxAttempts)
  {
    var s0, n := Init(event), Allowance(event.maxAttempts);
    if event.maxAttempts == 0 {
      steps, s := Take(s0, [], s0, SetActive(true));
      steps, s := OthersBegin(s0, steps, s, external);
    } else {
      steps, s := ChainSoFar(event, n);
      steps, s := Take(s0, steps, s, BeginStep(n));
      steps, s := OthersBegin(s0, steps, s, external - 1);
    }
  }

  /** Some run with that many tasks from outside, and without a replay, passes `max_attempts`. */
  ghost predicate CanExceed(event: Event, external: nat) {
    exists steps, s :: Runs(Init(event), steps, s) && s.db.replays == [] && s.external == external
                       && s.db.event.attemptCount > event.maxAttempts
  }

  /** Exactly when the tasks from outside are two or more, or one that should not have been. */
  lemma ExceedsWithTwo(event: Event, external: nat)
    requires Fresh(event)
    ensures CanExceed(event, external) <==> external >= 2 || (external == 1 && event.maxAttempts == 0)
  {
    if external >= 2 || (external == 1 && event.maxAttempts == 0) {
      var steps, s := AttemptBoundIsReached(event, external);
      assert Runs(Init(event), steps, s);
    } else if CanExceed(event, external) {
      var steps, s :| Runs(Init(event), steps, s) && s.db.replays == [] && s.external == external
                      && s.db.event.attemptCount > event.maxAttempts;
      AttemptBound(event, steps, s);
    }
  }

  /** A delivered event can be dead-lettered by a finaliser that began before the delivery. */
  lemma DeliveredCanBeOverwritten(event: Event, now: int) returns (steps: seq<Step>, s: State)
    requires Fresh(event) && event.active && event.maxAttempts == 1
    ensures Runs(Init(event), steps, s)
    ensures Decided(s, 0, Deliver) && s.db.event.status.DeadLettered? && s.db.replays == []
  {
    var s0 := Init(event);
    steps, s := BothBegin(event);
    steps, s := Take(s0, steps, s, Fetch(0));
    steps, s := Take(s0, steps, s, Fetch(1));
    steps, s := Take(s0, steps, s, Record(0, true, ""));
    steps, s := Take(s0, steps, s, Save(0, now));
    steps, s := Take(s0, steps, s, Record(1, false, "destination returned HTTP 500"));
    steps, s := Take(s0, steps, s, Save(1, now));
  }

  lemma BothBegin(event: Event) returns (steps: seq<Step>, s: State)
    requires Fresh(event) && event.active && event.maxAttempts == 1
    ensures Runs(Init(event), steps, s)
    ensures s.tasks == map[0 := Begun(0), 1 := Begun(1)] && |s.db.attempts| == 2 && s.db.replays == []
    ensures s.db.event.attemptCount == 2 && s.db.event.maxAttempts == 1 && s.outcomes == map[]
  {
    var s0 := Init(event);
    steps, s := Take(s0, [], s0, Enqueue);
    steps, s := Take(s0, steps, s, Enqueue);
    steps, s := Take(s0, steps, s, BeginStep(0));
    steps, s := Take(s0, steps, s, BeginStep(1));
  }

  /** The task can still save a failure. */
  predicate Spoils(task: Task) {
    task.Begun? || task.Fetched? || (task.Recorded? && !task.ok)
  }

  predicate NoReplays(steps: seq<Step>) {
    forall k :: 0 <= k < |steps| ==> !steps[k].RequestReplay?
  }

  /** Without such a task, and without a replay, delivered is final. */
  lemma {:induction false} DeliveredStays(s: State, steps: seq<Step>, s': State)
    requires Runs(s, steps, s') && NoReplays(steps)
    requires s.db.event.status.Delivered?
    requires forall t :: t in s.tasks ==> !Spoils(s.tasks[t])
    ensures s'.db.event.status.Delivered?
    decreases |steps|
  {
    if steps != [] {
      var next := Apply(s, steps[0]);
      assert !steps[0].RequestReplay?;
      assert forall t :: t in next.tasks ==> !Spoils(next.tasks[t]);
      DeliveredStays(next, steps[1..], s');
    }
  }

  /** A failure that was recorded is saved over the delivery. */
  lemma RecordedSpoils(s0: State, steps: seq<Step>, s: State, t: nat, now: int) returns (steps': seq<Step>, s': State)
    requires Runs(s0, steps, s) && NoReplays(steps) && t in s.tasks && s.tasks[t].Recorded? && !s.tasks[t].ok
    ensures Runs(s0, steps', s') && NoReplays(steps') && !s'.db.event.status.Delivered?
  {
    steps', s' := steps + [Save(t, now)], Apply(s, Save(t, now));
    RunsAppend(s0, steps, s, Save(t, now));
  }

  /** With one, three steps at most undo the delivery. */
  lemma DeliveryUndone(s: State, t: nat, error: string, now: int) returns (steps: seq<Step>, s': State)
    requires Owned(s) && t in s.tasks && Spoils(s.tasks[t])
    ensures Runs(s, steps, s') && NoReplays(steps) && !s'.db.event.status.Delivered?
  {
    assert TaskOwned(s, t);
    steps, s' := [], s;
    if s'.tasks[t].Begun? {
      RunsAppend(s, steps, s', Fetch(t));
      steps, s' := steps + [Fetch(t)], Apply(s', Fetch(t));
    }
    if s'.tasks[t].Fetched? {
      RunsAppend(s, steps, s', Record(t, false, error));
      steps, s' := steps + [Record(t, false, error)], Apply(s', Record(t, false, error));
    }
    steps, s' := RecordedSpoils(s, steps, s', t, now);
  }

  /** The event is delivered and stays so whatever happens but a replay. */
  ghost predicate DeliveredForGood(s: State) {
    forall steps, s' :: Runs(s, steps, s') && NoReplays(steps) ==> s'.db.event.status.Delivered?
  }

  /** Of all reachable states these are exactly the ones in which the event is delivered and no task can
      still save a failure. */
  lemma DeliveredIsFinal(event: Event, before: seq<Step>, s: State)
    requires Fresh(event) && Runs(Init(event), before, s)
    ensures DeliveredForGood(s)
            <==> s.db.event.status.Delivered? && forall t :: t in s.tasks ==> !Spoils(s.tasks[t])
  {
    Reachable(event, before, s);
    hide Apply, Can;
    if s.db.event.status.Delivered? && forall t :: t in s.tasks ==> !Spoils(s.tasks[t]) {
      forall steps, s' | Runs(s, steps, s') && NoReplays(steps) ensures s'.db.event.status.Delivered? {
        DeliveredStays(s, steps, s');
      }
    } else if !s.db.event.status.Delivered? {
      assert Runs(s, [], s);
    } else {
      var t :| t in s.tasks && Spoils(s.tasks[t]);
      var steps, s' := DeliveryUndone(s, t, "destination returned HTTP 500", 0);
      assert Runs(s, steps, s');
    }
  }

  // ---- the steps of one task ------------------------------------------------------------------------

  /** A retry that is saved puts the event off by five seconds to an hour: no sweep picks it up before. */
  lemma RetryBacksOff(s: State, t: nat, now: int)
    requires Can(s, Save(t, now)) && !s.tasks[t].ok && s.tasks[t].snapshot.attemptCount < s.tasks[t].snapshot.maxAttempts
    ensures
      var e := Apply(s, Save(t, now)).db.event;
      && e.status.Failed?
      && (forall time :: time < now + 5 ==> !Due(e, time))
      && (forall time :: time >= now + 3600 ==> Due(e, time))
  {
    var n := s.tasks[t].snapshot.attemptCount;
    DelaysGrow(n, n);
    hide RetryDelay;
  }

  /** From the record of the attempt on. */
  lemma AloneToTheEnd(s0: State, steps: seq<Step>, s: State, t: nat, now: int) returns (steps': seq<Step>, s': State)
    requires Runs(s0, steps, s) && t in s.tasks && s.tasks[t].Recorded?
    ensures Runs(s0, steps', s') && t in s'.tasks
    ensures
      var task := s.tasks[t];
      var o := Decide(task.snapshot, task.ok);
      var saved := SaveEvent(s.db, task.snapshot, task.ok, task.error, now);
      var settled := if o.Retry? then saved else SettleReplays(saved, task.ok, task.error);
      && s'.db == AddAudit(settled, AuditAction(o))
      && s'.nextTask == s.nextTask + (if o.Retry? then 1 else 0)
      && (t != s.nextTask ==> s'.tasks[t].Finished?)
      && (o.Retry? ==> s.nextTask in s'.tasks && s'.tasks[s.nextTask].InQueue?)
  {
    hide Runs, SaveEvent, SettleReplays, AddAudit, Decide, AuditAction;
    steps', s' := Take(s0, steps, s, Save(t, now));
    if s'.tasks[t].Saved? {
      steps', s' := Take(s0, steps', s', Settle(t));
    }
    steps', s' := Take(s0, steps', s', Audit(t));
    if s'.tasks[t].Chaining? {
      steps', s' := Take(s0, steps', s', Chain(t));
    }
  }

  /** A task that nothing comes between does what `deliver_event` does, and enqueues another one exactly
      when that says so. */
  lemma AloneIsDeliverOnce(s: State, t: nat, ok: bool, error: string, now: int) returns (steps: seq<Step>, s': State)
    requires t in s.tasks && s.tasks[t].InQueue?
    ensures Runs(s, steps, s')
    ensures
      var (db, result) := DeliverOnce(s.db, ok, error, now);
      && s'.db == db && t in s'.tasks && (t != s.nextTask ==> s'.tasks[t].Finished?)
      && s'.nextTask == s.nextTask + (if result.retryAfter != 0 then 1 else 0)
      && (result.retryAfter != 0 ==> s.nextTask in s'.tasks && s'.tasks[s.nextTask].InQueue?)
  {
    DelaysGrow(s.db.event.attemptCount + 1, s.db.event.attemptCount + 1);
    hide Runs, RetryDelay, SaveEvent, SettleReplays;
    NoStep(s);
    steps, s' := Take(s, [], s, BeginStep(t));
    if Begins(s.db) {
      steps, s' := Take(s, steps, s', Fetch(t));
      steps, s' := Take(s, steps, s', Record(t, ok, error));
      steps, s' := AloneToTheEnd(s, steps, s', t, now);
    }
  }

  lemma NoStep(s: State)
    ensures Runs(s, [], s)
  {
  }
}
