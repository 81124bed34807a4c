/**
 What the tunnel makes of the agent's ERROR frames, and that no target socket is forgotten: two more
 things every step keeps (agent/src/tunnel/main.cpp, agent/src/agent/main.cpp).
 */
module MuxErrors {
  import opened Text
  import opened Frames
  import opened Streams
  import opened StreamInvariant
  import opened Mux

  /** The text of the last ERROR frame, if there is one. */
  function LastError(q: seq<Frame>): Option<string> {
    if q == [] then None
    else
      var f := q[|q| - 1];
      if f.tag == ERROR then Some(f.payload) else LastError(q[..|q| - 1])
  }

  lemma LastErrorAppend(q: seq<Frame>, f: Frame)
    ensures LastError(q + [f]) == if f.tag == ERROR then Some(f.payload) else LastError(q)
  {
    assert (q + [f])[..|q|] == q;
  }

  lemma {:induction false} LastErrorTail(q: seq<Frame>)
    requires q != []
    ensures LastError(q) == if LastError(q[1..]).Some? then LastError(q[1..])
                            else if q[0].tag == ERROR then Some(q[0].payload) else None
  {
    if |q| == 1 {
      assert q[1..] == [] && q[..0] == [];
    } else {
      var n := |q| - 1;
      LastErrorTail(q[..n]);
      assert q[..n][1..] == q[1..][..n - 1];
    }
  }

  predicate HoldsError(rd: ReaderPc) {
    rd.ReaderFound? && rd.frame.tag == ERROR
  }

  /** The last ERROR sent is the last one on its way; or else the one `read_loop` holds; or else, for a
      stream that is still registered, it is what the stream has been told. */
  predicate Told(v: View) {
    var sent, back, h, p, rd := LastError(v.sentToTunnel.frames), LastError(v.toTunnel.frames), v.c.r.h, v.c.r.p, v.c.rd;
    && (back.Some? ==> back == sent)
    && (back.None? && HoldsError(rd) ==> sent == Some(rd.frame.payload))
    && (back.None? && !HoldsError(rd) && sent.Some? && p.registered ==> p.closed && p.error == sent.value)
    && (p.drainFlag ==> !p.registered)
    && (h.pc.Taken? || h.pc.Unborn? ==> !p.drainFlag && !p.registered)
  }

  /** A target that is in nobody's hands is closed. */
  predicate Tidy(v: View) {
    var t := v.c.r.t;
    t.made && !t.inTable && !t.draining ==> t.closed
  }

  predicate Fine(v: View) {
    Told(v) && Tidy(v)
  }

  // ---- every step keeps it ----------------------------------------------------------------------

  lemma PushedError(l: Line, frames: seq<Frame>)
    requires |frames| <= 1
    ensures LastError(Push(l, frames).frames) ==
            if frames != [] && frames[0].tag == ERROR then Some(frames[0].payload) else LastError(l.frames)
  {
    if frames != [] {
      LastErrorAppend(l.frames, frames[0]);
    }
  }

  lemma HandlerFine(a: Act, v: View)
    requires Good(v) && Fine(v) && HandlerAct(a) && HandlerCan(a, v.c)
    ensures Fine(After(v, HandlerDo(a, v.c)))
  {
    hide Threads, Targeted, Awake, ClosedOnce, Draining, Downstream, Upstream, RelayOnly, AnswerOnly, ErrorOnly;
  }

  lemma ReaderFine(a: Act, v: View)
    requires Good(v) && Fine(v) && ReaderAct(a) && ReaderCan(a, v.c)
    ensures Fine(After(v, ReaderDo(a, v.c)))
  {
    hide Threads, Handshake, AgentHandshake, Targeted, Awake, ClosedOnce, Draining, Downstream, Upstream;
  }

  lemma OpenFine(a: Act, v: View)
    requires Good(v) && Fine(v) && OpenAct(a) && TargetCan(a, v.c)
    ensures Fine(After(v, TargetDo(a, v.c)))
  {
    hide Threads, Handshake, AgentHandshake, Targeted, Awake, Draining, Downstream, Upstream, Allowed, RejectText;
    var e := TargetDo(a, v.c);
    assert |e.toTunnel| <= 1;
    PushedError(v.toTunnel, e.toTunnel);
    PushedError(v.sentToTunnel, e.toTunnel);
    hide LastError;
  }

  lemma TargetFine(a: Act, v: View)
    requires Good(v) && Fine(v) && TargetAct(a) && TargetCan(a, v.c)
    ensures Fine(After(v, TargetDo(a, v.c)))
  {
    if OpenAct(a) {
      hide *;
      OpenFine(a, v);
    } else {
      hide Threads, Handshake, AgentHandshake, Targeted, Awake, Draining, Downstream, Upstream, Allowed;
      var e := TargetDo(a, v.c);
      assert |e.toTunnel| <= 1;
      PushedError(v.toTunnel, e.toTunnel);
      PushedError(v.sentToTunnel, e.toTunnel);
      hide LastError;
    }
  }

  lemma LoopFine(a: Act, v: View)
    requires Good(v) && Fine(v) && LoopAct(a) && LoopCan(a, v.c)
    ensures Fine(After(v, LoopDo(a, v.c)))
  {
    hide Threads, Handshake, AgentHandshake, Targeted, Awake, Draining, Downstream, Upstream;
    var e := LoopDo(a, v.c);
    assert |e.toTunnel| <= 1;
    PushedError(v.toTunnel, e.toTunnel);
    PushedError(v.sentToTunnel, e.toTunnel);
    hide LastError;
  }

  lemma ActFine(a: Act, v: View)
    requires Good(v) && Fine(v) && Enabled(a, v.c)
    ensures Fine(After(v, Do(a, v.c)))
  {
    hide Good, Fine, After, HandlerCan, ReaderCan, TargetCan, LoopCan, HandlerDo, ReaderDo, TargetDo, LoopDo;
    if HandlerAct(a) {
      HandlerFine(a, v);
    } else if ReaderAct(a) {
      ReaderFine(a, v);
    } else if TargetAct(a) {
      TargetFine(a, v);
    } else {
      LoopFine(a, v);
    }
  }

  lemma ReceivedFine(v: View, rest: Line)
    requires Fine(v) && v.toTunnel.frames != [] && v.c.rd.ReaderIdle? && Behind(v.toTunnel, rest)
    ensures Fine(TunnelReceives(v, rest))
  {
    LastErrorTail(v.toTunnel.frames);
    hide LastError;
  }

  ghost predicate AllFine(s: State) {
    forall id: nat :: Fine(ViewOf(s, id))
  }

  lemma LocalFine(s: State, id: nat, a: Act)
    requires Inv(s) && AllFine(s) && Can(s, Local(id, a))
    ensures AllFine(Apply(s, Local(id, a)))
  {
    hide Good, Do, Enabled, After, Told, Tidy, ViewOf;
    var s' := Apply(s, Local(id, a));
    SameCtx(s, id);
    DoShaped(a, ViewOf(s, id));
    var e := Do(a, CtxOf(s, id));
    ActFine(a, ViewOf(s, id));
    forall j: nat ensures Fine(ViewOf(s', j)) {
      EffViews(s, id, e, j);
      if j != id {
        OthersFine(s, s', j);
      }
    }
  }

  lemma OthersFine(s: State, s': State, id: nat)
    requires Fine(ViewOf(s, id)) && Untouched(s, s', id)
    ensures Fine(ViewOf(s', id))
  {
    hide LastError;
  }

  lemma ReceiveFine(s: State, step: Step)
    requires Inv(s) && AllFine(s) && Can(s, step) && (step.TunnelReceive? || step.AgentReceive?)
    ensures AllFine(Apply(s, step))
  {
    hide Good, DataBytes, Closes, Errors, BytesBeforeClose, Told, Tidy;
    var s' := Apply(s, step);
    var f := if step.TunnelReceive? then s.toTunnel[0] else s.toAgent[0];
    if step.AgentReceive? {
      BornBeforeSending(s, f);
    }
    forall j: nat ensures Fine(ViewOf(s', j)) {
      assert Fine(ViewOf(s, j));
      if j != f.id {
        assert step.TunnelReceive? ==> Of(s.toTunnel, j) == Of(s'.toTunnel, j);
        assert step.AgentReceive? ==> Of(s.toAgent, j) == Of(s'.toAgent, j);
        OthersFine(s, s', j);
      } else if step.TunnelReceive? {
        LineBehind(Of(s.toTunnel, j));
        ReceivedFine(ViewOf(s, j), LineOf(Of(s'.toTunnel, j)));
        assert ViewOf(s', j) == TunnelReceives(ViewOf(s, j), LineOf(Of(s'.toTunnel, j)));
      } else {
        OpeningFine(s, s', j);
      }
    }
  }

  lemma OpeningFine(s: State, s': State, id: nat)
    requires Fine(ViewOf(s, id))
    requires ViewOf(s', id).toTunnel == ViewOf(s, id).toTunnel && ViewOf(s', id).sentToTunnel == ViewOf(s, id).sentToTunnel
    requires CtxOf(s', id).rd == CtxOf(s, id).rd
    requires RecOf(s', id).h == RecOf(s, id).h && RecOf(s', id).p == RecOf(s, id).p && RecOf(s', id).t == RecOf(s, id).t
    ensures Fine(ViewOf(s', id))
  {
    hide LastError, LineOf;
  }

  lemma OtherStepFine(s: State, step: Step)
    requires Inv(s) && AllFine(s) && Can(s, step) && !step.Local? && !step.TunnelReceive? && !step.AgentReceive?
    ensures AllFine(Apply(s, step))
  {
    hide Good, LastError, LineOf;
    var s' := Apply(s, step);
    forall j: nat ensures Fine(ViewOf(s', j)) {
      assert Fine(ViewOf(s, j));
      if step.TakeId? && j == s.nextId {
        assert j !in s.recs;
      }
    }
  }

  lemma StepFine(s: State, step: Step)
    requires Inv(s) && AllFine(s) && Can(s, step)
    ensures AllFine(Apply(s, step))
  {
    hide Inv, AllFine, Apply;
    match step
    case Local(id, act) => LocalFine(s, id, act);
    case TunnelReceive => ReceiveFine(s, step);
    case AgentReceive => ReceiveFine(s, step);
    case _ => OtherStepFine(s, step);
  }

  lemma {:induction false} RunFine(s: State, steps: seq<Step>, s': State)
    requires Inv(s) && AllFine(s) && Runs(s, steps, s')
    ensures AllFine(s')
    decreases |steps|
  {
    hide Inv, AllFine, Apply, Can;
    if steps != [] {
      StepKeepsInv(s, steps[0]);
      StepFine(s, steps[0]);
      RunFine(Apply(s, steps[0]), steps[1..], s');
    }
  }

  lemma ReachableIsFine(allow: set<string>, steps: seq<Step>, s: State, id: nat)
    requires Runs(Init(allow), steps, s)
    ensures Fine(ViewOf(s, id))
  {
    InitIsGood(allow);
    assert AllFine(Init(allow));
    hide Runs, Inv, Fine;
    RunFine(Init(allow), steps, s);
  }

  // ---- what follows ---------------------------------------------------------------------------------

  /** Every ERROR reaches its handler: once none is on its way to a registered stream and `read_loop` is not
      working on it, the handler's wait is over, and the stream has the text of the last one sent. */
  lemma ErrorsAreTold(allow: set<string>, steps: seq<Step>, s: State, id: nat)
    requires Runs(Init(allow), steps, s) && RecOf(s, id).p.registered && !ReaderOn(s, id)
    requires LastError(Of(s.sentToTunnel, id)).Some? && LastError(Of(s.toTunnel, id)).None?
    ensures WaitOver(RecOf(s, id).p) && RecOf(s, id).p.closed
    ensures RecOf(s, id).p.error == LastError(Of(s.sentToTunnel, id)).value
  {
    ReachableIsFine(allow, steps, s, id);
  }

  /** No target socket is forgotten: one that was opened is in the agent's table, or about to be closed by a
      sweep that took it out, or closed. */
  lemma NoTargetForgotten(allow: set<string>, steps: seq<Step>, s: State, id: nat)
    requires Runs(Init(allow), steps, s) && RecOf(s, id).t.made
    ensures RecOf(s, id).t.inTable || RecOf(s, id).t.draining || RecOf(s, id).t.closed
  {
    ReachableIsFine(allow, steps, s, id);
  }

  /** A sweep takes every stream out of the table and leaves a mark on each that was in it. */
  lemma SweepEmpties(s: State, id: nat)
    requires Can(s, Sweep)
    ensures !RecOf(Apply(s, Sweep), id).p.registered
    ensures RecOf(s, id).p.registered ==> RecOf(Apply(s, Sweep), id).p.drainFlag
  {
  }

  lemma AgentSweepEmpties(s: State, id: nat)
    requires Can(s, AgentSweep)
    ensures !RecOf(Apply(s, AgentSweep), id).t.inTable
    ensures RecOf(s, id).t.inTable ==> RecOf(Apply(s, AgentSweep), id).t.draining
  {
  }
}
