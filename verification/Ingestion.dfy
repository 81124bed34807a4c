/**
 Ingesting webhooks (webhook_ops/webhooks/ingestion.py): which key a delivery gets, and what any number
 of concurrent `ingest_event` calls leave in the database.
 */
module Ingestion {
  import opened Text

  datatype Provider = Generic | Stripe | GitHub | Shopify | Slack

  // ---- the idempotency key ------------------------------------------------------------------------

  /** `headers.get(name.lower(), "")`, and likewise the text of a payload field, empty when the field is
      missing or false. */
  function Get(fields: map<string, string>, name: string): string {
    if name in fields then fields[name] else ""
  }

  /** `normalize_headers`: lower-case names, of which a later one replaces an earlier one. */
  function NormalizeHeaders(headers: seq<(string, string)>): map<string, string> {
    if headers == [] then map[]
    else
      var last := headers[|headers| - 1];
      NormalizeHeaders(headers[..|headers| - 1])[Lower(last.0) := last.1]
  }

  function FirstOf(a: string, b: string): string {
    if a != "" then a else b
  }

  /** The provider's own event id and the event's type. */
  function ProviderMetadata(provider: Provider, headers: map<string, string>, payload: map<string, string>): (string, string) {
    match provider
    case Stripe => (Get(payload, "id"), Get(payload, "type"))
    case GitHub => (Get(headers, "x-github-delivery"), Get(headers, "x-github-event"))
    case Shopify => (Get(headers, "x-shopify-webhook-id"), Get(headers, "x-shopify-topic"))
    case Slack => (FirstOf(Get(payload, "event_id"), Get(payload, "trigger_id")), Get(payload, "type"))
    case Generic =>
      (FirstOf(FirstOf(Get(headers, "x-webhook-id"), Get(headers, "x-event-id")), Get(headers, "x-request-id")),
       Get(headers, "x-event-type"))
  }

  predicate IsHex(c: char) {
    '0' <= c <= '9' || 'a' <= c <= 'f'
  }

  predicate IsDigest(s: string) {
    |s| == 64 && forall i :: 0 <= i < |s| ==> IsHex(s[i])
  }

  /** What `hashlib.sha256(...).hexdigest()` returns. */
  type Digest = s: string | IsDigest(s) witness seq(64, i => '0')

  /** A delivery as `ingest_event` takes it apart; `bodyHash` is the digest of the body. */
  datatype Request = Request(
    source: nat, provider: Provider, headers: seq<(string, string)>, payload: map<string, string>,
    bodyHash: Digest, activeDestination: bool)

  function Metadata(r: Request): (string, string) {
    ProviderMetadata(r.provider, NormalizeHeaders(r.headers), r.payload)
  }

  function Key(r: Request): string {
    FirstOf(Metadata(r).0, r.bodyHash)
  }

  /** Every delivery has a key, so the unique constraint, which leaves out null keys, holds for all; and
      the key is the digest only when the provider gave no id. */
  lemma KeyIsNeverEmpty(r: Request)
    ensures Key(r) != ""
    ensures Key(r) != r.bodyHash ==> Key(r) == Metadata(r).0 != ""
  {
    assert IsDigest(r.bodyHash);
  }

  lemma {:induction false} HeadersAreCaseBlind(a: seq<(string, string)>, b: seq<(string, string)>)
    requires |a| == |b|
    requires forall i :: 0 <= i < |a| ==> Lower(a[i].0) == Lower(b[i].0) && a[i].1 == b[i].1
    ensures NormalizeHeaders(a) == NormalizeHeaders(b)
  {
    if a != [] {
      HeadersAreCaseBlind(a[..|a| - 1], b[..|b| - 1]);
    }
  }

  /** Two deliveries whose headers differ only in the case of their names have the same key. */
  lemma KeyIsCaseBlind(r: Request, headers: seq<(string, string)>)
    requires |headers| == |r.headers|
    requires forall i :: 0 <= i < |headers| ==>
               Lower(headers[i].0) == Lower(r.headers[i].0) && headers[i].1 == r.headers[i].1
    ensures Key(r.(headers := headers)) == Key(r)
  {
    HeadersAreCaseBlind(headers, r.headers);
  }

  // ---- rows and audit records ---------------------------------------------------------------------

  datatype Status = Received | Queued | Later(status: string)

  datatype Event = Event(source: nat, key: string, providerId: string, eventType: string, status: Status)

  /** An audit record names its event by the event's place in the table. */
  datatype Audit = ReceivedAudit(event: nat) | DuplicateAudit(event: nat)

  datatype Db = Db(events: seq<Event>, audits: seq<Audit>)

  predicate Same(e: Event, r: Request) {
    e.source == r.source && e.key == Key(r)
  }

  predicate Exists(db: Db, r: Request) {
    exists e :: 0 <= e < |db.events| && Same(db.events[e], r)
  }

  /** The first row with the request's source and key, or the number of rows. */
  function Find(events: seq<Event>, r: Request): (e: nat)
    ensures e <= |events|
    ensures e < |events| ==> Same(events[e], r)
    ensures forall i :: 0 <= i < e ==> !Same(events[i], r)
  {
    if events == [] || Same(events[0], r) then 0 else 1 + Find(events[1..], r)
  }

  function NewEvent(r: Request): Event {
    Event(r.source, Key(r), Metadata(r).0, Metadata(r).1, if r.activeDestination then Queued else Received)
  }

  /** The transaction of a call that creates the row: the row and its audit record. */
  function Create(db: Db, r: Request): Db {
    Db(db.events + [NewEvent(r)], db.audits + [ReceivedAudit(|db.events|)])
  }

  function AddDuplicate(db: Db, e: nat): Db {
    db.(audits := db.audits + [DuplicateAudit(e)])
  }

  /** The unique constraint on source and key. */
  predicate Unique(events: seq<Event>) {
    forall i, j :: 0 <= i < j < |events| ==> events[i].source != events[j].source || events[i].key != events[j].key
  }

  // ---- one call, undisturbed ----------------------------------------------------------------------

  class Store {
    var events: seq<Event>
    var audits: seq<Audit>

    function Now(): Db
      reads this
    {
      Db(events, audits)
    }

    constructor ()
      ensures Now() == Db([], [])
    {
      events, audits := [], [];
    }

    /** `ingest_event` with nobody else at work: the row it returns and whether it made it. */
    method IngestEvent(r: Request) returns (event: nat, created: bool)
      modifies this
      ensures created == !Exists(old(Now()), r)
      ensures event < |events| && Same(events[event], r)
      ensures Now() == if created then Create(old(Now()), r) else AddDuplicate(old(Now()), event)
      ensures created ==> event == |old(events)| && events == old(events) + [events[event]]
      ensures created ==> events[event].source == r.source && events[event].key == Key(r)
      ensures created ==> audits == old(audits) + [ReceivedAudit(event)]
      ensures !created ==> events == old(events) && audits == old(audits) + [DuplicateAudit(event)]
      ensures old(Unique(events)) ==> Unique(events)
      ensures Now() == Run(Sys(old(Now()), [r], [Start]), [Ingest(0), Ingest(0), Ingest(0)]).db
    {
      event := Find(events, r);
      AloneIsRun(Now(), r);
      if event == |events| {
        audits := audits + [ReceivedAudit(|events|)];
        events := events + [NewEvent(r)];
        return event, true;
      }
      audits := audits + [DuplicateAudit(event)];
      return event, false;
    }
  }

  // ---- any number of calls, interleaved -----------------------------------------------------------

  /** Where a call is.  `get_or_create` looks first and inserts when it finds nothing; an insert that
      hits the unique constraint rolls back and looks again. */
  datatype Phase =
    | Start
    | Missed
    | Conflicted
    | Found(event: nat)
    | Done(event: nat, created: bool)

  /** `requests[t]` is what call `t` was given. */
  datatype Sys = Sys(db: Db, requests: seq<Request>, calls: seq<Phase>)

  /** `Elsewhere`: other code changes the status of a row; nothing changes its source or key. */
  datatype Step = Ingest(t: nat) | Elsewhere(e: nat, status: Status)

  function Go(s: Sys, t: nat, phase: Phase, db: Db): Sys
    requires t < |s.calls|
  {
    s.(calls := s.calls[t := phase], db := db)
  }

  function Apply(s: Sys, step: Step): (s': Sys)
    ensures s'.requests == s.requests && |s'.calls| == |s.calls|
  {
    match step
    case Elsewhere(e, status) =>
      if e < |s.db.events| then s.(db := s.db.(events := s.db.events[e := s.db.events[e].(status := status)])) else s
    case Ingest(t) =>
      if t >= |s.calls| || t >= |s.requests| then s
      else
        var r, e := s.requests[t], Find(s.db.events, s.requests[t]);
        match s.calls[t]
        case Start => Go(s, t, if e < |s.db.events| then Found(e) else Missed, s.db)
        case Missed => if e < |s.db.events| then Go(s, t, Conflicted, s.db) else Go(s, t, Done(e, true), Create(s.db, r))
        case Conflicted => if e < |s.db.events| then Go(s, t, Found(e), s.db) else s
        case Found(f) => Go(s, t, Done(f, false), AddDuplicate(s.db, f))
        case Done(_, _) => s
  }

  function Run(s: Sys, steps: seq<Step>): (s': Sys)
    ensures s'.requests == s.requests && |s'.calls| == |s.calls|
    decreases |steps|
  {
    if steps == [] then s else Run(Apply(s, steps[0]), steps[1..])
  }

  lemma AloneIsRun(db: Db, r: Request)
    ensures
      var e := Find(db.events, r);
      Run(Sys(db, [r], [Start]), [Ingest(0), Ingest(0), Ingest(0)]).db
      == if e < |db.events| then AddDuplicate(db, e) else Create(db, r)
  {
    var e := Find(db.events, r);
    var s := Sys(db, [r], [Start]);
    var s1 := Apply(s, Ingest(0));
    var s2 := Apply(s1, Ingest(0));
    var s3 := Apply(s2, Ingest(0));
    var steps := [Ingest(0), Ingest(0), Ingest(0)];
    assert steps[1..] == [Ingest(0), Ingest(0)] && steps[1..][1..] == [Ingest(0)] && steps[1..][1..][1..] == [];
    assert Run(s, steps) == s3;
  }

  /** Calls that have not begun, on a table that already holds some rows. */
  predicate Init(s: Sys) {
    && |s.calls| == |s.requests| && (forall t :: 0 <= t < |s.calls| ==> s.calls[t].Start?)
    && Unique(s.db.events) && s.db.audits == []
  }

  /** Every call that knows of a row knows of one with its own source and key. */
  ghost predicate CallsOk(s: Sys) {
    |s.calls| == |s.requests| && forall t :: 0 <= t < |s.calls| ==> CallOk(s.db, s.calls[t], s.requests[t])
  }

  ghost predicate CallOk(db: Db, call: Phase, r: Request) {
    match call
    case Start => true
    case Missed => true
    case Conflicted => Exists(db, r)
    case Found(e) => e < |db.events| && Same(db.events[e], r)
    case Done(e, _) => e < |db.events| && Same(db.events[e], r)
  }

  /** The audit log matches the calls, and each new row was created by one of them; `before` is how
      many rows there were at the start. */
  ghost predicate Audited(calls: multiset<Phase>, audits: multiset<Audit>, before: nat, now: nat) {
    forall e ::
      && calls[Done(e, false)] == audits[DuplicateAudit(e)]
      && calls[Done(e, true)] == audits[ReceivedAudit(e)]
      && audits[ReceivedAudit(e)] == if before <= e < now then 1 else 0
  }

  ghost predicate Inv(s: Sys, before: nat) {
    && before <= |s.db.events| && Unique(s.db.events) && CallsOk(s)
    && Audited(multiset(s.calls), multiset(s.db.audits), before, |s.db.events|)
  }

  lemma IngestKeepsCalls(s: Sys, t: nat)
    requires CallsOk(s) && Unique(s.db.events)
    ensures CallsOk(Apply(s, Ingest(t))) && Unique(Apply(s, Ingest(t)).db.events)
    ensures s.db.events <= Apply(s, Ingest(t)).db.events
  {
    var s' := Apply(s, Ingest(t));
    forall u | 0 <= u < |s.calls| ensures CallOk(s'.db, s'.calls[u], s'.requests[u]) {
      assert CallOk(s.db, s.calls[u], s.requests[u]);
      if s.calls[u].Conflicted? {
        var i :| 0 <= i < |s.db.events| && Same(s.db.events[i], s.requests[u]);
        assert Same(s'.db.events[i], s.requests[u]);
      }
    }
  }

  lemma CallMoves(calls: seq<Phase>, t: nat, phase: Phase, audits: seq<Audit>, audit: Audit)
    requires t < |calls|
    ensures multiset(calls[t := phase]) == multiset(calls) - multiset{calls[t]} + multiset{phase}
    ensures calls[t] in multiset(calls)
    ensures multiset(audits + [audit]) == multiset(audits) + multiset{audit}
  {
  }

  lemma AuditedMove(calls: multiset<Phase>, audits: multiset<Audit>, before: nat, now: nat, old': Phase, new': Phase)
    requires Audited(calls, audits, before, now) && old' in calls && !old'.Done?
    ensures !new'.Done? ==> Audited(calls - multiset{old'} + multiset{new'}, audits, before, now)
    ensures new'.Done? && !new'.created ==>
              Audited(calls - multiset{old'} + multiset{new'}, audits + multiset{DuplicateAudit(new'.event)}, before, now)
    ensures new' == Done(now, true) && before <= now ==>
              Audited(calls - multiset{old'} + multiset{new'}, audits + multiset{ReceivedAudit(now)}, before, now + 1)
  {
  }

  /** The four things a call's step can do. */
  lemma StepShape(s: Sys, t: nat)
    requires t < |s.calls| == |s.requests| && !s.calls[t].Done?
    ensures
      var s', n := Apply(s, Ingest(t)), |s.db.events|;
      var phase := s'.calls[t];
      && s'.calls == s.calls[t := phase]
      && (if !phase.Done? then s'.db == s.db
          else if phase.created then
            phase.event == n && |s'.db.events| == n + 1 && s'.db.audits == s.db.audits + [ReceivedAudit(n)]
          else |s'.db.events| == n && s'.db.audits == s.db.audits + [DuplicateAudit(phase.event)])
  {
    assert s.calls == s.calls[t := s.calls[t]];
  }

  lemma IngestKeepsAudits(s: Sys, before: nat, t: nat)
    requires |s.calls| == |s.requests| && before <= |s.db.events|
    requires Audited(multiset(s.calls), multiset(s.db.audits), before, |s.db.events|)
    ensures
      var s' := Apply(s, Ingest(t));
      && before <= |s'.db.events| && Audited(multiset(s'.calls), multiset(s'.db.audits), before, |s'.db.events|)
  {
    if t < |s.calls| && !s.calls[t].Done? {
      var s', n := Apply(s, Ingest(t)), |s.db.events|;
      var phase := s'.calls[t];
      StepShape(s, t);
      hide Apply, Audited;
      AuditedMove(multiset(s.calls), multiset(s.db.audits), before, n, s.calls[t], phase);
      CallMoves(s.calls, t, phase, s.db.audits, if phase.Done? && !phase.created then DuplicateAudit(phase.event) else ReceivedAudit(n));
    }
  }

  lemma ElsewhereKeepsCalls(s: Sys, e: nat, status: Status)
    requires CallsOk(s)
    ensures CallsOk(Apply(s, Elsewhere(e, status)))
  {
    var s' := Apply(s, Elsewhere(e, status));
    forall t | 0 <= t < |s.calls| ensures CallOk(s'.db, s'.calls[t], s'.requests[t]) {
      assert CallOk(s.db, s.calls[t], s.requests[t]);
      if s.calls[t].Conflicted? {
        var i :| 0 <= i < |s.db.events| && Same(s.db.events[i], s.requests[t]);
        assert Same(s'.db.events[i], s.requests[t]);
      }
    }
  }

  lemma StepKeepsInv(s: Sys, before: nat, step: Step)
    requires Inv(s, before)
    ensures Inv(Apply(s, step), before)
  {
    match step
    case Ingest(t) =>
      IngestKeepsCalls(s, t);
      IngestKeepsAudits(s, before, t);
      hide CallsOk, Audited, Unique, Apply;
    case Elsewhere(e, status) =>
      ElsewhereKeepsCalls(s, e, status);
      hide CallsOk, Audited;
  }

  lemma InitInv(s: Sys)
    requires Init(s)
    ensures Inv(s, |s.db.events|)
  {
    assert forall phase :: phase in multiset(s.calls) ==> phase in s.calls;
    assert forall e, c :: multiset(s.calls)[Done(e, c)] == 0;
  }

  lemma {:induction false} RunKeepsInv(s: Sys, before: nat, steps: seq<Step>)
    requires Inv(s, before)
    ensures Inv(Run(s, steps), before)
    decreases |steps|
  {
    if steps != [] {
      StepKeepsInv(s, before, steps[0]);
      RunKeepsInv(Apply(s, steps[0]), before, steps[1..]);
    }
  }

  // ---- what the calls leave behind ----------------------------------------------------------------

  /** How many of the calls were given the source and key of `r`. */
  function Among(requests: seq<Request>, r: Request): nat {
    if requests == [] then 0
    else
      var last := requests[|requests| - 1];
      Among(requests[..|requests| - 1], r) + (if last.source == r.source && Key(last) == Key(r) then 1 else 0)
  }

  /** When exactly the calls for `r` are done with row `e`, there are as many of them as calls for `r`. */
  lemma {:induction false} CallsAmong(calls: seq<Phase>, requests: seq<Request>, r: Request, e: nat)
    requires |calls| == |requests|
    requires forall t :: 0 <= t < |calls| ==>
               (calls[t] == Done(e, true) || calls[t] == Done(e, false)
                <==> requests[t].source == r.source && Key(requests[t]) == Key(r))
    ensures multiset(calls)[Done(e, true)] + multiset(calls)[Done(e, false)] == Among(requests, r)
  {
    hide Key;
    if calls != [] {
      var n := |calls| - 1;
      CallsAmong(calls[..n], requests[..n], r, e);
      assert calls == calls[..n] + [calls[n]];
      assert multiset(calls) == multiset(calls[..n]) + multiset{calls[n]};
    }
  }

  /** Once all calls are done, those with one source and key have left one row, which all of them
      returned; at most one says it created the row, and one does unless it was there before; and the
      audit log holds one record for each of them. */
  lemma Idempotent(start: Sys, steps: seq<Step>, r: Request)
    requires Init(start) && Among(start.requests, r) > 0
    requires forall t :: 0 <= t < |start.calls| ==> Run(start, steps).calls[t].Done?
    ensures
      var s, before := Run(start, steps), |start.db.events|;
      exists e: nat ::
        && e < |s.db.events| && Same(s.db.events[e], r)
        && (forall i :: 0 <= i < |s.db.events| && i != e ==> !Same(s.db.events[i], r))
        && (forall t :: 0 <= t < |s.calls| && start.requests[t].source == r.source && Key(start.requests[t]) == Key(r)
              ==> s.calls[t].event == e)
        && multiset(s.calls)[Done(e, true)] == multiset(s.db.audits)[ReceivedAudit(e)] == (if e < before then 0 else 1)
        && multiset(s.db.audits)[DuplicateAudit(e)]
           == Among(start.requests, r) - multiset(s.db.audits)[ReceivedAudit(e)]
  {
    var s, before := Run(start, steps), |start.db.events|;
    InitInv(start);
    RunKeepsInv(start, before, steps);
    var u := SomeAmong(start.requests, r);
    assert CallOk(s.db, s.calls[u], s.requests[u]);
    var e := s.calls[u].event;
    assert Same(s.db.events[e], r);
    forall t | 0 <= t < |s.calls|
      ensures s.calls[t].event == e <==> s.requests[t].source == r.source && Key(s.requests[t]) == Key(r)
    {
      assert CallOk(s.db, s.calls[t], s.requests[t]);
      OneRow(s.db.events, e, s.calls[t].event, r);
    }
    forall i | 0 <= i < |s.db.events| && i != e ensures !Same(s.db.events[i], r) {
      OneRow(s.db.events, e, i, r);
    }
    CallsAmong(s.calls, s.requests, r, e);
  }

  lemma OneRow(events: seq<Event>, e: nat, i: nat, r: Request)
    requires Unique(events) && e < |events| && i < |events| && Same(events[e], r)
    ensures Same(events[i], r) <==> i == e
  {
  }

  lemma {:induction false} SomeAmong(requests: seq<Request>, r: Request) returns (t: nat)
    requires Among(requests, r) > 0
    ensures t < |requests| && requests[t].source == r.source && Key(requests[t]) == Key(r)
  {
    t := |requests| - 1;
    if !(requests[t].source == r.source && Key(requests[t]) == Key(r)) {
      t := SomeAmong(requests[..t], r);
    }
  }

  /** No call changes a row that is there: it adds one or none. */
  lemma IngestOnlyAppends(s: Sys, t: nat)
    ensures s.db.events <= Apply(s, Ingest(t)).db.events
    ensures |Apply(s, Ingest(t)).db.events| <= |s.db.events| + 1
  {
  }

  // ---- the calls come to an end -------------------------------------------------------------------

  function StepsLeft(calls: seq<Phase>): nat {
    if calls == [] then 0
    else
      StepsLeft(calls[1..]) +
      match calls[0]
      case Start => 4
      case Missed => 3
      case Conflicted => 2
      case Found(_) => 1
      case Done(_, _) => 0
  }

  lemma {:induction false} MoveForward(calls: seq<Phase>, t: nat, phase: Phase)
    requires t < |calls|
    ensures StepsLeft(calls[t := phase]) == StepsLeft(calls) - StepsLeft([calls[t]]) + StepsLeft([phase])
  {
    if t == 0 {
      assert calls[t := phase][1..] == calls[1..];
    } else {
      MoveForward(calls[1..], t - 1, phase);
      assert calls[t := phase][1..] == calls[1..][t - 1 := phase];
    }
  }

  /** Whenever a call that is not done takes a step, less is left to do: no call waits for another, and
      `n` calls take at most `4 * n` steps. */
  lemma CallsProgress(s: Sys, before: nat, t: nat)
    requires Inv(s, before) && t < |s.calls| && !s.calls[t].Done?
    ensures StepsLeft(Apply(s, Ingest(t)).calls) < StepsLeft(s.calls)
  {
    assert CallOk(s.db, s.calls[t], s.requests[t]);
    MoveForward(s.calls, t, Apply(s, Ingest(t)).calls[t]);
    hide Same, NewEvent, Unique, CallsOk;
  }
}
