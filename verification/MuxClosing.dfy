/**
 What the CLOSE of the agent leaves behind: which of the bytes read from a target reach the client.
 */
module MuxClosing {
  import opened Text
  import opened Endpoints
  import opened Frames
  import opened Streams
  import opened StreamInvariant
  import opened Mux
  import opened MuxTheorems

  /** Bytes the target reader has read and not yet sent. */
  function HeldByReader(t: Target): string {
    if t.pc.Forwarding? then t.pc.data else ""
  }

  /** The two steps that write CLOSE to the tunnel. */
  predicate WritesClose(step: Step, id: nat) {
    step == Local(id, LoopNotify(true)) || step == Local(id, TargetNotify(true))
  }

  // ---- queues only grow, and the first CLOSE freezes what came before it --------------------------

  lemma {:induction false} OfSplit(a: seq<Frame>, b: seq<Frame>, id: nat)
    ensures Of(a + b, id) == Of(a, id) + Of(b, id)
  {
    if a == [] {
      assert a + b == b;
    } else {
      OfSplit(a[1..], b, id);
      assert (a + b)[1..] == a[1..] + b;
      var head := if a[0].id == id then [a[0]] else [];
      assert Of(a, id) == head + Of(a[1..], id) && Of(a + b, id) == head + Of(a[1..] + b, id);
      hide Of;
      RegroupFrames(head, Of(a[1..], id), Of(b, id));
    }
  }

  lemma RegroupFrames(a: seq<Frame>, b: seq<Frame>, c: seq<Frame>)
    ensures a + (b + c) == a + b + c
  {
  }

  lemma {:induction false} CloseFreezes(a: seq<Frame>, b: seq<Frame>)
    requires Closes(a) > 0
    ensures Closes(a + b) > 0 && BytesBeforeClose(a + b) == BytesBeforeClose(a)
  {
    assert (a + b)[1..] == a[1..] + b && (a + b)[0] == a[0];
    if a[0].tag != CLOSE {
      CloseFreezes(a[1..], b);
    }
  }

  lemma StepSends(s: State, step: Step)
    requires Can(s, step)
    ensures s.sentToTunnel <= Apply(s, step).sentToTunnel
  {
    hide Do, Enabled;
  }

  lemma {:induction false} RunSends(s: State, steps: seq<Step>, s': State)
    requires Runs(s, steps, s')
    ensures s.sentToTunnel <= s'.sentToTunnel
    decreases |steps|
  {
    if steps != [] {
      StepSends(s, steps[0]);
      hide Apply, Can;
      RunSends(Apply(s, steps[0]), steps[1..], s');
    }
  }

  /** Whatever happens after the first CLOSE of a stream, the bytes before it stay the same. */
  lemma StaysFrozen(s: State, steps: seq<Step>, s': State, id: nat)
    requires Runs(s, steps, s') && Closes(Of(s.sentToTunnel, id)) > 0
    ensures BytesBeforeClose(Of(s'.sentToTunnel, id)) == BytesBeforeClose(Of(s.sentToTunnel, id))
  {
    RunSends(s, steps, s');
    var more := s'.sentToTunnel[|s.sentToTunnel|..];
    assert s'.sentToTunnel == s.sentToTunnel + more;
    OfSplit(s.sentToTunnel, more, id);
    CloseFreezes(Of(s.sentToTunnel, id), Of(more, id));
  }

  // ---- what has been read stays read --------------------------------------------------------------

  lemma HandlerReads(a: Act, c: Ctx)
    requires HandlerAct(a) && HandlerCan(a, c)
    ensures HandlerDo(a, c).r.t == c.r.t && HandlerDo(a, c).toTunnel == []
  {
  }

  lemma ReaderReads(a: Act, c: Ctx)
    requires ReaderAct(a) && ReaderCan(a, c)
    ensures ReaderDo(a, c).r.t == c.r.t && ReaderDo(a, c).toTunnel == []
  {
  }

  lemma OpenReads(a: Act, c: Ctx)
    requires OpenAct(a) && TargetCan(a, c)
    ensures c.r.t.read == TargetDo(a, c).r.t.read
    ensures var sent := TargetDo(a, c).toTunnel; sent == [] || sent[0].tag != CLOSE
  {
    hide Allowed, RejectText;
  }

  lemma TargetReads(a: Act, c: Ctx)
    requires TargetAct(a) && TargetCan(a, c)
    ensures c.r.t.read <= TargetDo(a, c).r.t.read
    ensures var sent := TargetDo(a, c).toTunnel; sent != [] && sent[0].tag == CLOSE ==> a == TargetNotify(true)
  {
    if OpenAct(a) {
      hide *;
      OpenReads(a, c);
    } else {
      hide Allowed;
    }
  }

  lemma LoopReads(a: Act, c: Ctx)
    requires LoopAct(a) && LoopCan(a, c)
    ensures LoopDo(a, c).r.t.read == c.r.t.read
    ensures var sent := LoopDo(a, c).toTunnel; sent != [] && sent[0].tag == CLOSE ==> a == LoopNotify(true)
  {
  }

  /** No step takes back what was read, and only two write CLOSE. */
  lemma ActReads(a: Act, c: Ctx)
    requires Enabled(a, c)
    ensures c.r.t.read <= Do(a, c).r.t.read
    ensures var sent := Do(a, c).toTunnel;
            sent != [] && sent[0].tag == CLOSE ==> a == TargetNotify(true) || a == LoopNotify(true)
  {
    hide HandlerDo, ReaderDo, TargetDo, LoopDo, HandlerCan, ReaderCan, TargetCan, LoopCan;
    if HandlerAct(a) {
      HandlerReads(a, c);
    } else if ReaderAct(a) {
      ReaderReads(a, c);
    } else if TargetAct(a) {
      TargetReads(a, c);
    } else {
      LoopReads(a, c);
    }
  }

  lemma StepReads(s: State, step: Step, id: nat)
    requires Inv(s) && Can(s, step)
    ensures RecOf(s, id).t.read <= RecOf(Apply(s, step), id).t.read
  {
    hide Good, Do, Enabled;
    if step.Local? {
      ActReads(step.act, CtxOf(s, step.id));
    }
  }

  lemma {:induction false} RunReads(s: State, steps: seq<Step>, s': State, id: nat)
    requires Inv(s) && Runs(s, steps, s')
    ensures RecOf(s, id).t.read <= RecOf(s', id).t.read
    decreases |steps|
  {
    hide Inv, Apply, Can, RecOf;
    if steps != [] {
      StepKeepsInv(s, steps[0]);
      StepReads(s, steps[0], id);
      RunReads(Apply(s, steps[0]), steps[1..], s', id);
    }
  }

  // ---- the step that wrote the CLOSE ----------------------------------------------------------------

  lemma NotifyWrites(a: Act, c: Ctx)
    requires (a == TargetNotify(true) || a == LoopNotify(true)) && Enabled(a, c)
    ensures Do(a, c).toTunnel == [CloseFrame(c.id)] && !c.g.agentBroken
    ensures Do(a, c).r.t.read == c.r.t.read
  {
  }

  lemma NoCloseInside(more: seq<Frame>, id: nat)
    requires |more| <= 1 && Closes(Of(more, id)) > 0
    ensures |more| == 1 && more[0].tag == CLOSE && more[0].id == id
  {
  }

  lemma ClosingStep(s: State, step: Step, id: nat)
    requires Inv(s) && Can(s, step) && Closes(Of(s.sentToTunnel, id)) == 0
    requires Closes(Of(Apply(s, step).sentToTunnel, id)) > 0
    ensures WritesClose(step, id) && !s.g.agentBroken
    ensures Apply(s, step).sentToTunnel == s.sentToTunnel + [CloseFrame(id)]
    ensures RecOf(Apply(s, step), id).t.read == RecOf(s, id).t.read
  {
    hide Good, Do, Enabled, Closes;
    assert step.Local?;
    var c := CtxOf(s, step.id);
    var more := Do(step.act, c).toTunnel;
    SameCtx(s, step.id);
    DoShaped(step.act, ViewOf(s, step.id));
    OfSplit(s.sentToTunnel, more, id);
    SumOfCloses(Of(s.sentToTunnel, id), Of(more, id));
    NoCloseInside(more, id);
    ActReads(step.act, c);
    NotifyWrites(step.act, c);
  }

  lemma {:induction false} SumOfCloses(a: seq<Frame>, b: seq<Frame>)
    ensures Closes(a + b) == Closes(a) + Closes(b)
  {
    if a == [] {
      assert a + b == b;
    } else {
      SumOfCloses(a[1..], b);
      assert (a + b)[1..] == a[1..] + b;
    }
  }

  /** A run that has written a CLOSE has a step that wrote it. */
  lemma {:induction false} FindClosing(s: State, steps: seq<Step>, s': State, id: nat) returns (k: nat, at: State)
    requires Inv(s) && Runs(s, steps, s')
    requires Closes(Of(s.sentToTunnel, id)) == 0 && Closes(Of(s'.sentToTunnel, id)) > 0
    ensures k < |steps| && Runs(s, steps[..k], at) && Inv(at) && Can(at, steps[k])
    ensures Closes(Of(at.sentToTunnel, id)) == 0 && Closes(Of(Apply(at, steps[k]).sentToTunnel, id)) > 0
    ensures Runs(Apply(at, steps[k]), steps[k + 1..], s')
    decreases |steps|
  {
    hide Inv, Apply, Can, Closes;
    var next := Apply(s, steps[0]);
    if Closes(Of(next.sentToTunnel, id)) > 0 {
      k, at := 0, s;
    } else {
      StepKeepsInv(s, steps[0]);
      k, at := FindClosing(next, steps[1..], s', id);
      k := k + 1;
      assert steps[..k][0] == steps[0] && steps[..k][1..] == steps[1..][..k - 1];
      assert steps[k + 1..] == steps[1..][k..];
    }
  }

  lemma FrozenBytes(q: seq<Frame>, id: nat)
    requires Closes(q) == 0
    ensures BytesBeforeClose(q + [CloseFrame(id)]) == DataBytes(q)
  {
    BeforeCloseAppend(q, CloseFrame(id));
    assert Carried(CloseFrame(id)) == "";
    hide DataBytes, BytesBeforeClose, Closes;
  }

  /** Just before the CLOSE is written everything read has been sent, but for what the reader holds. */
  lemma BeforeClosing(at: State, id: nat)
    requires Inv(at) && !at.g.agentBroken
    ensures DataBytes(Of(at.sentToTunnel, id)) + HeldByReader(RecOf(at, id).t) == RecOf(at, id).t.read
  {
    assert Good(ViewOf(at, id));
    hide Threads, Handshake, AgentHandshake, Targeted, Awake, ClosedOnce, Draining, Upstream, Ids, DataBytes, Of;
    assert Downstream(ViewOf(at, id));
  }

  /** Once the agent's CLOSE has been processed: there is the step that wrote it, and the client has been
      given what was read up to then but for what the reader was holding; so it has been given all that
      was ever read exactly when the reader held nothing then and has read nothing since. */
  lemma WhatCloseLeavesBehind(allow: set<string>, steps: seq<Step>, s: State, id: nat) returns (k: nat, at: State)
    requires Runs(Init(allow), steps, s) && RecOf(s, id).p.closeTaken
    ensures k < |steps| && Runs(Init(allow), steps[..k], at) && WritesClose(steps[k], id)
    ensures RecOf(s, id).p.toClient + HeldByReader(RecOf(at, id).t) == RecOf(at, id).t.read
    ensures RecOf(at, id).t.read <= RecOf(s, id).t.read
    ensures RecOf(s, id).p.toClient == RecOf(s, id).t.read
            <==> HeldByReader(RecOf(at, id).t) == "" && RecOf(s, id).t.read == RecOf(at, id).t.read
  {
    var s0 := Init(allow);
    InitIsGood(allow);
    Reachable(allow, steps, s, id);
    TargetToClient(allow, steps, s, id);
    assert Closes(Of(s.sentToTunnel, id)) > 0;
    hide *;
    NothingSent(allow, id);
    k, at := FindClosing(s0, steps, s, id);
    ClosingStep(at, steps[k], id);
    var next := Apply(at, steps[k]);
    StaysFrozen(next, steps[k + 1..], s, id);
    OfOne(id);
    OfSplit(at.sentToTunnel, [CloseFrame(id)], id);
    FrozenBytes(Of(at.sentToTunnel, id), id);
    BeforeClosing(at, id);
    StepKeepsInv(at, steps[k]);
    RunReads(next, steps[k + 1..], s, id);
  }

  lemma OfOne(id: nat)
    ensures Of([CloseFrame(id)], id) == [CloseFrame(id)]
  {
    assert [CloseFrame(id)][1..] == [];
  }

  lemma NothingSent(allow: set<string>, id: nat)
    ensures Closes(Of(Init(allow).sentToTunnel, id)) == 0
  {
  }

  // ---- a run that loses bytes -----------------------------------------------------------------------

  /** A session with stream 1 alone, up, with both dispatch threads on it or idle. */
  predicate Solo(s: State) {
    && s.recs.Keys == {1} && s.g.alive && s.g.connected && !s.g.agentBroken && !s.g.tunnelBroken
    && (s.reader.ReaderIdle? || ReaderId(s.reader) == 1) && (s.loop.LoopIdle? || LoopId(s.loop) == 1)
  }

  /** One more step of stream 1. */
  lemma Go(s0: State, steps: seq<Step>, now: State, a: Act, e: Eff) returns (steps': seq<Step>, next: State)
    requires Runs(s0, steps, now) && Solo(now) && Enabled(a, CtxOf(now, 1)) && e == Do(a, CtxOf(now, 1))
    ensures Runs(s0, steps', next) && next == ApplyEff(now, 1, e) && next.recs.Keys == {1}
  {
    hide Do, Enabled;
    steps', next := Take(s0, steps, now, Local(1, a));
  }

  lemma GoHandler(s0: State, steps: seq<Step>, now: State, a: Act, e: Eff) returns (steps': seq<Step>, next: State)
    requires Runs(s0, steps, now) && Solo(now)
    requires HandlerAct(a) && HandlerCan(a, CtxOf(now, 1)) && e == HandlerDo(a, CtxOf(now, 1))
    ensures Runs(s0, steps', next) && next == ApplyEff(now, 1, e) && next.recs.Keys == {1}
  {
    hide *;
    HandlerSteps(a, CtxOf(now, 1));
    steps', next := Go(s0, steps, now, a, e);
  }

  lemma GoReader(s0: State, steps: seq<Step>, now: State, a: Act, e: Eff) returns (steps': seq<Step>, next: State)
    requires Runs(s0, steps, now) && Solo(now)
    requires ReaderAct(a) && ReaderCan(a, CtxOf(now, 1)) && e == ReaderDo(a, CtxOf(now, 1))
    ensures Runs(s0, steps', next) && next == ApplyEff(now, 1, e) && next.recs.Keys == {1}
  {
    hide *;
    ReaderSteps(a, CtxOf(now, 1));
    steps', next := Go(s0, steps, now, a, e);
  }

  lemma GoTarget(s0: State, steps: seq<Step>, now: State, a: Act, e: Eff) returns (steps': seq<Step>, next: State)
    requires Runs(s0, steps, now) && Solo(now)
    requires TargetAct(a) && TargetCan(a, CtxOf(now, 1)) && e == TargetDo(a, CtxOf(now, 1))
    ensures Runs(s0, steps', next) && next == ApplyEff(now, 1, e) && next.recs.Keys == {1}
  {
    hide *;
    TargetSteps(a, CtxOf(now, 1));
    steps', next := Go(s0, steps, now, a, e);
  }

  lemma GoLoop(s0: State, steps: seq<Step>, now: State, a: Act, e: Eff) returns (steps': seq<Step>, next: State)
    requires Runs(s0, steps, now) && Solo(now)
    requires LoopAct(a) && LoopCan(a, CtxOf(now, 1)) && e == LoopDo(a, CtxOf(now, 1))
    ensures Runs(s0, steps', next) && next == ApplyEff(now, 1, e) && next.recs.Keys == {1}
  {
    hide *;
    LoopSteps(a, CtxOf(now, 1));
    steps', next := Go(s0, steps, now, a, e);
  }

  /** The tunnel takes the OPEN_OK and answers the client. */
  lemma ClientAnswered(s0: State, steps: seq<Step>, now: State) returns (steps': seq<Step>, next: State)
    requires Runs(s0, steps, now) && Solo(now) && now.reader.ReaderIdle? && now.loop.LoopIdle?
    requires now.toTunnel == [Frame(OPEN_OK, 1, "ok")] && now.toAgent == []
    requires now.recs[1].p == BLANK.p.(registered := true) && now.recs[1].h.pc.Waiting? && now.recs[1].h.isConnect
    ensures Runs(s0, steps', next) && Solo(next) && next.reader.ReaderIdle? && next.loop.LoopIdle?
    ensures next.toTunnel == [] && next.toAgent == [] && next.recs[1].h.pc.Relaying?
    ensures next.recs[1].t == now.recs[1].t && next.recs[1].p == BLANK.p.(registered := true, isOpen := true)
  {
    hide Runs, Can, Apply;
    steps', next := FrameFound(s0, steps, now);
    steps', next := GoReader(s0, steps', next, TakeOpenOk, DoTakeOpenOk(CtxOf(next, 1)));
    steps', next := GoHandler(s0, steps', next, WaitReturn, DoWaitReturn(CtxOf(next, 1)));
    steps', next := GoHandler(s0, steps', next, Reply(true), DoReply(CtxOf(next, 1), true));
  }

  /** The client's first bytes go out. */
  lemma ClientSpeaks(s0: State, steps: seq<Step>, now: State, bytes: string) returns (steps': seq<Step>, next: State)
    requires Runs(s0, steps, now) && Solo(now) && now.reader.ReaderIdle? && now.loop.LoopIdle?
    requires now.toTunnel == [] && now.toAgent == [] && now.recs[1].h.pc.Relaying? && 1 <= |bytes| <= RELAY_CHUNK
    ensures Runs(s0, steps', next) && Solo(next) && next.reader.ReaderIdle? && next.loop.LoopIdle?
    ensures next.toTunnel == [] && next.toAgent == [Frame(DATA, 1, bytes)]
    ensures next.recs[1].t == now.recs[1].t && next.recs[1].p == now.recs[1].p
  {
    hide Runs, Can, Apply;
    steps', next := GoHandler(s0, steps, now, ClientRead(bytes), DoClientRead(CtxOf(now, 1), bytes));
    steps', next := GoHandler(s0, steps', next, SendCheck, DoSendCheck(CtxOf(next, 1)));
    steps', next := GoHandler(s0, steps', next, SendOk, DoSendOk(CtxOf(next, 1)));
  }

  lemma FrameFound(s0: State, steps: seq<Step>, now: State) returns (steps': seq<Step>, next: State)
    requires Runs(s0, steps, now) && Solo(now) && now.reader.ReaderIdle?
    requires |now.toTunnel| == 1 && now.toTunnel[0].id == 1 && now.recs[1].p.registered
    ensures Runs(s0, steps', next) && next == now.(toTunnel := [], reader := ReaderFound(now.toTunnel[0]))
  {
    steps', next := Take(s0, steps, now, TunnelReceive);
  }

  lemma DataFound(s0: State, steps: seq<Step>, now: State) returns (steps': seq<Step>, next: State)
    requires Runs(s0, steps, now) && Solo(now) && now.loop.LoopIdle?
    requires |now.toAgent| == 1 && now.toAgent[0].id == 1 && now.toAgent[0].tag == DATA
    requires now.recs[1].t.inTable && !now.recs[1].t.closed
    ensures Runs(s0, steps', next) && next == now.(toAgent := [], loop := LoopWriting(now.toAgent[0]))
  {
    steps', next := Take(s0, steps, now, AgentReceive);
    assert next.recs == now.recs;
  }

  /** The target is read from, and a write to it fails. */
  lemma TargetFails(s0: State, steps: seq<Step>, now: State, bytes: string) returns (steps': seq<Step>, next: State)
    requires Runs(s0, steps, now) && Solo(now) && now.reader.ReaderIdle? && now.loop.LoopWriting?
    requires now.recs[1].t.pc.Checking? && now.recs[1].t.inTable && !now.recs[1].t.closed && now.recs[1].t.read == ""
    requires 1 <= |bytes| <= RELAY_CHUNK && now.toTunnel == []
    ensures Runs(s0, steps', next) && Solo(next) && next.reader.ReaderIdle? && next.loop == LoopClosing(1, Finding)
    ensures next.toTunnel == [] && next.recs[1].t.inTable && !next.recs[1].t.closed
    ensures next.recs[1].t.read == bytes && next.recs[1].p == now.recs[1].p
  {
    hide Runs, Can, Apply;
    steps', next := GoTarget(s0, steps, now, TargetCheck, DoTargetCheck(CtxOf(now, 1)));
    steps', next := GoTarget(s0, steps', next, TargetRead(bytes), DoTargetRead(CtxOf(next, 1), bytes));
    steps', next := GoLoop(s0, steps', next, LoopWriteFail(0), DoLoopWriteFail(CtxOf(next, 1), 0));
  }

  lemma LoopCloses(s0: State, steps: seq<Step>, now: State) returns (steps': seq<Step>, next: State)
    requires Runs(s0, steps, now) && Solo(now) && now.reader.ReaderIdle? && now.loop == LoopClosing(1, Finding)
    requires now.toTunnel == [] && now.recs[1].t.inTable && !now.recs[1].t.closed
    ensures Runs(s0, steps', next) && Solo(next) && next.reader.ReaderIdle?
    ensures next.toTunnel == [CloseFrame(1)]
    ensures next.recs[1].t.read == now.recs[1].t.read && next.recs[1].p == now.recs[1].p
  {
    hide Runs, Can, Apply;
    steps', next := GoLoop(s0, steps, now, LoopFind, DoLoopFind(CtxOf(now, 1)));
    steps', next := GoLoop(s0, steps', next, LoopExchange, DoLoopExchange(CtxOf(next, 1)));
    steps', next := GoLoop(s0, steps', next, LoopRemove, DoLoopRemove(CtxOf(next, 1)));
    steps', next := GoLoop(s0, steps', next, LoopNotify(true), DoLoopNotify(CtxOf(next, 1), true));
  }

  lemma CloseTaken(s0: State, steps: seq<Step>, now: State) returns (steps': seq<Step>, next: State)
    requires Runs(s0, steps, now) && Solo(now) && now.reader.ReaderIdle?
    requires now.toTunnel == [CloseFrame(1)] && now.recs[1].p.registered
    ensures Runs(s0, steps', next) && next.recs.Keys == {1}
    ensures next.recs[1].p == now.recs[1].p.(closed := true, closeTaken := true) && next.recs[1].t == now.recs[1].t
  {
    hide Runs, Can, Apply;
    steps', next := FrameFound(s0, steps, now);
    steps', next := GoReader(s0, steps', next, TakeClose, DoTakeClose(CtxOf(next, 1)));
  }

  /** An open that succeeds, up to the OPEN_OK on its way. */
  lemma OpenSucceeds(allow: set<string>, isConnect: bool, initial: string, host: string, port: nat)
    returns (steps: seq<Step>, s: State)
    requires host != "" && '\n' !in host && IsPort(port) && EndpointToString(host, port) in allow
    ensures Runs(Init(allow), steps, s) && Solo(s) && s.reader.ReaderIdle? && s.loop.LoopIdle?
    ensures s.toTunnel == [Frame(OPEN_OK, 1, "ok")] && s.toAgent == []
    ensures s.recs[1].p == BLANK.p.(registered := true) && s.recs[1].h == Sought(isConnect, initial, host, port, Waiting)
    ensures s.recs[1].t.written == "" && s.recs[1].t.closes == 0 && s.recs[1].o.OpenDone?
    ensures s.recs[1].t.pc.Checking? && s.recs[1].t.inTable && !s.recs[1].t.closed && s.recs[1].t.read == ""
  {
    hide Can, Apply, Runs;
    var open, r := Frame(OPEN, 1, MakeOpenPayload(host, port)), BLANK;
    OpenRoundTrip(host, port);
    var s0 := Init(allow);
    steps := OpenGoesOut(allow, isConnect, initial, host, port);
    steps, r := AgentConnects(s0, steps, allow, open,
      BLANK.(h := Sought(isConnect, initial, host, port, Waiting), p := BLANK.p.(registered := true)));
    s := Alone(allow, r, [], [], [open], []);
    hide ParseOpenPayload, EndpointToString, MakeOpenPayload;
    steps, s := GoTarget(s0, steps, s, OpenOkSend(true), DoOpenOkSend(CtxOf(s, 1), true));
  }

  /** For every allowed endpoint and all bytes there is a run in which the target sends these bytes, the
      agent reads them, and the client never gets them: a write to the target fails while the target
      reader holds them, and the CLOSE overtakes them.  The stream is still registered when that CLOSE
      is processed. */
  lemma HeldBytesAreLost(allow: set<string>, host: string, port: nat, request: string, answer: string)
    returns (steps: seq<Step>, s: State)
    requires host != "" && '\n' !in host && IsPort(port) && EndpointToString(host, port) in allow
    requires 1 <= |request| <= RELAY_CHUNK && 1 <= |answer| <= RELAY_CHUNK
    ensures Runs(Init(allow), steps, s) && RecOf(s, 1).p.registered && RecOf(s, 1).p.closeTaken
    ensures RecOf(s, 1).p.toClient == "" && RecOf(s, 1).t.read == answer
  {
    hide Can, Apply, Runs;
    var s0 := Init(allow);
    steps, s := OpenSucceeds(allow, true, "", host, port);
    steps, s := ClientAnswered(s0, steps, s);
    steps, s := ClientSpeaks(s0, steps, s, request);
    steps, s := DataFound(s0, steps, s);
    steps, s := TargetFails(s0, steps, s, answer);
    steps, s := LoopCloses(s0, steps, s);
    steps, s := CloseTaken(s0, steps, s);
  }
}
