/**
 One tunnel session: any number of proxy handlers on the tunnel, any number of open threads and
 target readers on the agent, and the two dispatch threads, all over one framed channel
 (agent/src/tunnel/main.cpp, agent/src/agent/main.cpp).

 The two directions of the channel are FIFO queues shared by all streams; `sentToAgent` and
 `sentToTunnel` record every frame ever written.  Whether an id is in a table is a flag of its
 record.  A run is any interleaving of the steps below.
 */
module Mux {
  import opened Frames
  import opened Streams
  import opened StreamInvariant

  /** `next_stream_id_` is a 32-bit counter; runs that would wrap it around are not considered. */
  const ID_LIMIT := 0x1_0000_0000

  datatype State = State(
    g: Globals, recs: map<nat, Rec>, nextId: nat,
    toAgent: seq<Frame>, toTunnel: seq<Frame>,
    sentToAgent: seq<Frame>, sentToTunnel: seq<Frame>,
    reader: ReaderPc, loop: LoopPc)

  datatype Step =
    // a proxy handler takes its stream id, or one of another session takes it
    | TakeId(isConnect: bool, initial: string, host: string, port: nat)
    | SkipId
    // a thread works on stream `id`
    | Local(id: nat, act: Act)
    // read_loop and session_loop receive a frame; they test their flag before a call that blocks, so
    // the flag may be gone by the time the frame is there
    | TunnelReceive
    | AgentReceive
    // read_loop ends, or close() on the tunnel; then the copy-and-clear of close_all_streams
    | Die
    | Sweep
    // session_loop ends, a heartbeat fails, or request_stop on the agent; then its copy-and-clear
    | Disconnect
    | AgentSweep
    // the agent closes its channel
    | AgentHangUp

  function Init(allow: set<string>): State {
    State(Globals(true, false, false, true, false, allow), map[], 1, [], [], [], [], ReaderIdle, LoopIdle)
  }

  function RecOf(s: State, id: nat): Rec {
    if id in s.recs then s.recs[id] else BLANK
  }

  predicate ReaderOn(s: State, id: nat) {
    !s.reader.ReaderIdle? && ReaderId(s.reader) == id
  }

  predicate LoopOn(s: State, id: nat) {
    !s.loop.LoopIdle? && LoopId(s.loop) == id
  }

  /** What a thread working on stream `id` sees. */
  function CtxOf(s: State, id: nat): Ctx {
    Ctx(id, RecOf(s, id), s.g,
        if ReaderOn(s, id) then s.reader else ReaderIdle,
        if LoopOn(s, id) then s.loop else LoopIdle)
  }

  predicate Can(s: State, step: Step) {
    match step
    case TakeId(_, _, _, _) => s.nextId < ID_LIMIT
    case SkipId => s.nextId < ID_LIMIT
    case Local(id, act) => id in s.recs && Enabled(act, CtxOf(s, id))
    case TunnelReceive => s.reader.ReaderIdle? && s.toTunnel != []
    case AgentReceive => s.loop.LoopIdle? && s.toAgent != []
    case Die => true
    case Sweep => !s.g.alive
    case Disconnect => true
    case AgentSweep => !s.g.connected
    case AgentHangUp => !s.g.connected
  }

  function ApplyEff(s: State, id: nat, e: Eff): State {
    s.(g := e.g, recs := s.recs[id := e.r],
       toAgent := s.toAgent + e.toAgent, toTunnel := s.toTunnel + e.toTunnel,
       sentToAgent := s.sentToAgent + e.toAgent, sentToTunnel := s.sentToTunnel + e.toTunnel,
       reader := if ReaderOn(s, id) then e.rd else s.reader,
       loop := if LoopOn(s, id) then e.lp else s.loop)
  }

  function Apply(s: State, step: Step): State
    requires Can(s, step)
  {
    match step
    case TakeId(isConnect, initial, host, port) =>
      s.(recs := s.recs[s.nextId := Born(isConnect, initial, host, port)], nextId := s.nextId + 1)
    case SkipId => s.(nextId := s.nextId + 1)
    case Local(id, act) => ApplyEff(s, id, Do(act, CtxOf(s, id)))
    case TunnelReceive =>
      var f := s.toTunnel[0];
      s.(reader := FoundBy(f, RecOf(s, f.id)), toTunnel := s.toTunnel[1..])
    case AgentReceive =>
      var f := s.toAgent[0];
      s.(recs := s.recs[f.id := Opening(f, RecOf(s, f.id))], loop := Dispatched(f, RecOf(s, f.id)),
         toAgent := s.toAgent[1..])
    case Die => s.(g := s.g.(alive := false))
    case Sweep => s.(recs := map id | id in s.recs :: Swept(s.recs[id]), g := s.g.(swept := true))
    case Disconnect => s.(g := s.g.(connected := false))
    case AgentSweep => s.(recs := map id | id in s.recs :: AgentSwept(s.recs[id]))
    case AgentHangUp => s.(g := s.g.(agentBroken := true))
  }

  /** `steps` leads from `s` to `s'`. */
  predicate Runs(s: State, steps: seq<Step>, s': State)
    decreases |steps|
  {
    if steps == [] then s == s'
    else Can(s, steps[0]) && Runs(Apply(s, steps[0]), steps[1..], s')
  }

  // ---- the invariant of a session ---------------------------------------------------------------

  function ViewOf(s: State, id: nat): View {
    View(CtxOf(s, id), LineOf(Of(s.toAgent, id)), LineOf(Of(s.toTunnel, id)),
         LineOf(Of(s.sentToAgent, id)), LineOf(Of(s.sentToTunnel, id)))
  }

  /** What is left in a queue is the end of what was written to it. */
  predicate Suffix(q: seq<Frame>, all: seq<Frame>) {
    |q| <= |all| && all[|all| - |q|..] == q
  }

  predicate Ids(s: State) {
    && 1 <= s.nextId <= ID_LIMIT
    && (forall id :: id in s.recs ==> 1 <= id < s.nextId && !s.recs[id].h.pc.Unborn?)
    && (s.g.swept ==> !s.g.alive)
    && Suffix(s.toAgent, s.sentToAgent)
    && Suffix(s.toTunnel, s.sentToTunnel)
  }

  ghost predicate Inv(s: State) {
    Ids(s) && forall id: nat :: Good(ViewOf(s, id))
  }

  // ---- what the rest of the session sees of one step --------------------------------------------

  /** Of another thread's step a stream notices the flags, and nothing else. */
  predicate Untouched(s: State, s': State, id: nat) {
    ViewOf(s', id) == ViewOf(s, id).(c := CtxOf(s, id).(g := s'.g))
  }

  lemma UntouchedIsGood(s: State, s': State, id: nat)
    requires Good(ViewOf(s, id)) && Worse(s.g, s'.g) && Untouched(s, s', id)
    ensures Good(ViewOf(s', id))
  {
    hide Good;
    WorseIsGood(ViewOf(s, id), s'.g);
  }

  /** Every step writes at most one frame per direction, and only frames of its own stream. */
  predicate Shaped(c: Ctx, e: Eff) {
    && |e.toAgent| <= 1 && |e.toTunnel| <= 1
    && (e.toAgent != [] ==> e.toAgent[0].id == c.id)
    && (e.toTunnel != [] ==> e.toTunnel[0].id == c.id)
    && Worse(c.g, e.g)
    && (c.rd.ReaderIdle? ==> e.rd.ReaderIdle?)
    && (c.lp.LoopIdle? ==> e.lp.LoopIdle?)
    && (e.rd.ReaderIdle? || ReaderId(e.rd) == c.id)
    && (e.lp.LoopIdle? || LoopId(e.lp) == c.id)
    && !e.r.h.pc.Unborn?
  }

  lemma HandlerShaped(a: Act, v: View)
    requires Threads(v) && (v.c.g.swept ==> !v.c.g.alive) && !v.c.r.h.pc.Unborn?
    requires HandlerAct(a) && HandlerCan(a, v.c)
    ensures Shaped(v.c, HandlerDo(a, v.c))
  {
  }

  lemma ReaderShaped(a: Act, v: View)
    requires Threads(v) && (v.c.g.swept ==> !v.c.g.alive) && !v.c.r.h.pc.Unborn?
    requires ReaderAct(a) && ReaderCan(a, v.c)
    ensures Shaped(v.c, ReaderDo(a, v.c))
  {
  }

  lemma OpenShaped(a: Act, v: View)
    requires Threads(v) && (v.c.g.swept ==> !v.c.g.alive) && !v.c.r.h.pc.Unborn?
    requires OpenAct(a) && TargetCan(a, v.c)
    ensures Shaped(v.c, TargetDo(a, v.c))
  {
    hide Allowed, RejectText;
  }

  lemma TargetShaped(a: Act, v: View)
    requires Threads(v) && (v.c.g.swept ==> !v.c.g.alive) && !v.c.r.h.pc.Unborn?
    requires TargetAct(a) && TargetCan(a, v.c)
    ensures Shaped(v.c, TargetDo(a, v.c))
  {
    if OpenAct(a) {
      hide *;
      OpenShaped(a, v);
    } else {
      hide Allowed;
    }
  }

  lemma LoopShaped(a: Act, v: View)
    requires Threads(v) && (v.c.g.swept ==> !v.c.g.alive) && !v.c.r.h.pc.Unborn?
    requires LoopAct(a) && LoopCan(a, v.c)
    ensures Shaped(v.c, LoopDo(a, v.c))
  {
  }

  lemma DoShaped(a: Act, v: View)
    requires Good(v) && Enabled(a, v.c) && !v.c.r.h.pc.Unborn?
    ensures Shaped(v.c, Do(a, v.c))
  {
    hide Shaped, HandlerCan, ReaderCan, TargetCan, LoopCan, HandlerDo, ReaderDo, TargetDo, LoopDo;
    hide Threads, Handshake, AgentHandshake, Targeted, Downstream, Upstream, ClosedOnce, Draining;
    if HandlerAct(a) {
      HandlerShaped(a, v);
    } else if ReaderAct(a) {
      ReaderShaped(a, v);
    } else if TargetAct(a) {
      TargetShaped(a, v);
    } else {
      LoopShaped(a, v);
    }
  }

  /** A thread's step changes the view of its own stream as `After` says, and of no other. */
  lemma EffViews(s: State, id: nat, e: Eff, j: nat)
    requires Shaped(CtxOf(s, id), e)
    ensures j == id ==> ViewOf(ApplyEff(s, id, e), j) == After(ViewOf(s, id), e)
    ensures j != id ==> Untouched(s, ApplyEff(s, id, e), j)
  {
    hide LineOf, Worse;
    PushedOf(s.toAgent, e.toAgent, id, j);
    PushedOf(s.toTunnel, e.toTunnel, id, j);
    PushedOf(s.sentToAgent, e.toAgent, id, j);
    PushedOf(s.sentToTunnel, e.toTunnel, id, j);
  }

  lemma LocalStep(s: State, id: nat, a: Act)
    requires Inv(s) && Can(s, Local(id, a))
    ensures Inv(Apply(s, Local(id, a)))
  {
    hide Good, Do, Enabled, After, Untouched, ViewOf;
    var s' := Apply(s, Local(id, a));
    SameCtx(s, id);
    DoShaped(a, ViewOf(s, id));
    var e := Do(a, CtxOf(s, id));
    ActIsGood(a, ViewOf(s, id));
    forall j: nat ensures Good(ViewOf(s', j)) {
      EffViews(s, id, e, j);
      if j != id {
        UntouchedIsGood(s, s', j);
      }
    }
  }

  lemma SameCtx(s: State, id: nat)
    ensures ViewOf(s, id).c == CtxOf(s, id)
  {
  }

  /** Appending frames of stream `id` to a shared queue appends them to that stream alone. */
  lemma PushedOf(q: seq<Frame>, more: seq<Frame>, id: nat, j: nat)
    requires |more| <= 1 && (more != [] ==> more[0].id == id)
    ensures LineOf(Of(q + more, j)) == if j == id then Push(LineOf(Of(q, j)), more) else LineOf(Of(q, j))
  {
    if more == [] {
      assert q + more == q;
    } else {
      var f := more[0];
      assert more == [f];
      OfAppend(q, f, j);
      hide LineOf, Add, Of;
      if j == id {
        LineAppend(Of(q, j), f);
      } else {
        assert Of(q, j) + [] == Of(q, j);
      }
    }
  }

  lemma TunnelReceiveStep(s: State)
    requires Inv(s) && Can(s, TunnelReceive)
    ensures Inv(Apply(s, TunnelReceive))
  {
    hide Good, DataBytes, Closes, Errors, BytesBeforeClose, Behind;
    var s' := Apply(s, TunnelReceive);
    var f := s.toTunnel[0];
    forall j: nat ensures Good(ViewOf(s', j)) {
      if j == f.id {
        var v, rest := ViewOf(s, j), LineOf(Of(s'.toTunnel, j));
        LineBehind(Of(s.toTunnel, j));
        TunnelReceivesIsGood(v, rest);
        assert ViewOf(s', j) == TunnelReceives(v, rest);
      } else {
        assert Of(s.toTunnel, j) == Of(s'.toTunnel, j);
        UntouchedIsGood(s, s', j);
      }
    }
  }

  lemma AgentReceiveStep(s: State)
    requires Inv(s) && Can(s, AgentReceive)
    ensures Inv(Apply(s, AgentReceive))
  {
    hide Good, DataBytes, Closes, Errors, BytesBeforeClose, Behind;
    var s' := Apply(s, AgentReceive);
    var f := s.toAgent[0];
    BornBeforeSending(s, f);
    forall j: nat ensures Good(ViewOf(s', j)) {
      if j == f.id {
        var v, rest := ViewOf(s, j), LineOf(Of(s'.toAgent, j));
        LineBehind(Of(s.toAgent, j));
        AgentReceivesIsGood(v, rest);
        assert ViewOf(s', j) == AgentReceives(v, rest);
      } else {
        assert Of(s.toAgent, j) == Of(s'.toAgent, j);
        UntouchedIsGood(s, s', j);
      }
    }
  }

  lemma BornBeforeSending(s: State, f: Frame)
    requires Inv(s) && s.toAgent != [] && f == s.toAgent[0]
    ensures f.id in s.recs
  {
    assert Good(ViewOf(s, f.id));
  }

  lemma TakeIdStep(s: State, step: Step)
    requires Inv(s) && step.TakeId? && Can(s, step)
    ensures Inv(Apply(s, step))
  {
    hide Good;
    var s' := Apply(s, step);
    assert s.nextId !in s.recs;
    forall j: nat ensures Good(ViewOf(s', j)) {
      if j == s.nextId {
        BornIsGood(ViewOf(s, j), ViewOf(s', j), step.isConnect, step.initial, step.host, step.port);
      } else {
        UntouchedIsGood(s, s', j);
      }
    }
  }

  lemma SharedStep(s: State, step: Step)
    requires Inv(s) && Can(s, step)
    requires step.SkipId? || step.Die? || step.Disconnect? || step.AgentHangUp?
    ensures Inv(Apply(s, step))
  {
    hide Good;
    var s' := Apply(s, step);
    forall j: nat ensures Good(ViewOf(s', j)) {
      UntouchedIsGood(s, s', j);
    }
  }

  lemma SweepStep(s: State)
    requires Inv(s) && Can(s, Sweep)
    ensures Inv(Apply(s, Sweep))
  {
    hide Good;
    var s' := Apply(s, Sweep);
    forall j: nat ensures Good(ViewOf(s', j)) {
      SweptIsGood(ViewOf(s, j));
      assert RecOf(s', j) == Swept(RecOf(s, j));
    }
  }

  lemma AgentSweepStep(s: State)
    requires Inv(s) && Can(s, AgentSweep)
    ensures Inv(Apply(s, AgentSweep))
  {
    hide Good;
    var s' := Apply(s, AgentSweep);
    forall j: nat ensures Good(ViewOf(s', j)) {
      AgentSweptIsGood(ViewOf(s, j));
      assert RecOf(s', j) == AgentSwept(RecOf(s, j));
    }
  }

  lemma StepKeepsInv(s: State, step: Step)
    requires Inv(s) && Can(s, step)
    ensures Inv(Apply(s, step))
  {
    hide Inv;
    match step
    case TakeId(_, _, _, _) => TakeIdStep(s, step);
    case SkipId => SharedStep(s, step);
    case Local(id, act) => LocalStep(s, id, act);
    case TunnelReceive => TunnelReceiveStep(s);
    case AgentReceive => AgentReceiveStep(s);
    case Die => SharedStep(s, step);
    case Sweep => SweepStep(s);
    case Disconnect => SharedStep(s, step);
    case AgentSweep => AgentSweepStep(s);
    case AgentHangUp => SharedStep(s, step);
  }

  /** Whatever the interleaving, every reachable state is good for every stream. */
  lemma {:induction false} RunsKeepInv(s: State, steps: seq<Step>, s': State)
    requires Inv(s) && Runs(s, steps, s')
    ensures Inv(s')
    decreases |steps|
  {
    hide Inv;
    if steps != [] {
      StepKeepsInv(s, steps[0]);
      RunsKeepInv(Apply(s, steps[0]), steps[1..], s');
    }
  }

  lemma InitIsGood(allow: set<string>)
    ensures Inv(Init(allow))
  {
    forall id: nat ensures Good(ViewOf(Init(allow), id)) {
      BlankIsGood(ViewOf(Init(allow), id));
    }
  }

  lemma Reachable(allow: set<string>, steps: seq<Step>, s: State, id: nat)
    requires Runs(Init(allow), steps, s)
    ensures Good(ViewOf(s, id)) && Ids(s)
  {
    hide Good;
    InitIsGood(allow);
    RunsKeepInv(Init(allow), steps, s);
  }
}
