/**
 What holds in every reachable state of a session, for every stream and every interleaving.
 */
module MuxTheorems {
  import opened Text
  import opened Endpoints
  import opened Frames
  import opened Streams
  import opened StreamInvariant
  import opened Mux

  // ---- no lost wake-up --------------------------------------------------------------------------

  /** A handler whose OPEN was sent and that still waits when a `close_all_streams` has gone through
      its stream finds its wait condition true: it is never left to the ten-second timeout. */
  lemma NoLostWakeUp(allow: set<string>, steps: seq<Step>, s: State, id: nat)
    requires Runs(Init(allow), steps, s)
    requires RecOf(s, id).h.pc.Waiting?
    requires s.g.swept && !RecOf(s, id).p.drainFlag
    ensures WaitOver(RecOf(s, id).p)
  {
    Reachable(allow, steps, s, id);
  }

  // ---- bytes ------------------------------------------------------------------------------------

  /** What a client has been given is a prefix of what the agent read from that stream's target;
      once the agent's CLOSE has been processed it is, for good, everything sent before that CLOSE;
      and if the target reader sent the CLOSE, that is everything it ever read. */
  lemma TargetToClient(allow: set<string>, steps: seq<Step>, s: State, id: nat)
    requires Runs(Init(allow), steps, s)
    ensures RecOf(s, id).p.toClient <= RecOf(s, id).t.read
    ensures RecOf(s, id).p.closeTaken ==> RecOf(s, id).p.toClient == BytesBeforeClose(Of(s.sentToTunnel, id))
    ensures RecOf(s, id).t.eofClose ==> BytesBeforeClose(Of(s.sentToTunnel, id)) == RecOf(s, id).t.read
    ensures RecOf(s, id).p.closeTaken && RecOf(s, id).t.eofClose ==> RecOf(s, id).p.toClient == RecOf(s, id).t.read
  {
    Reachable(allow, steps, s, id);
  }

  /** Nothing is lost on the way: as long as the stream is registered and `read_loop` is not
      dropping it, what is not with the client yet is in the channel, in order. */
  lemma NothingLostDownstream(allow: set<string>, steps: seq<Step>, s: State, id: nat)
    requires Runs(Init(allow), steps, s)
    requires RecOf(s, id).p.registered && !(ReaderOn(s, id) && ReaderDropping(s.reader))
    ensures RecOf(s, id).p.toClient + HeldForClient(CtxOf(s, id).rd) + DataBytes(Of(s.toTunnel, id))
            == DataBytes(Of(s.sentToTunnel, id))
  {
    Reachable(allow, steps, s, id);
  }

  /** What a target has been given is a prefix of the handler's initial data followed by what the
      handler read from its client; while the target is open and in the agent's table, what is
      missing of what was sent is in the channel, in order. */
  lemma ClientToTarget(allow: set<string>, steps: seq<Step>, s: State, id: nat)
    requires Runs(Init(allow), steps, s)
    ensures RecOf(s, id).t.written <= Offered(RecOf(s, id).h)
    ensures RecOf(s, id).t.inTable && !RecOf(s, id).t.closed && !(LoopOn(s, id) && s.loop.LoopClosing?) ==>
              RecOf(s, id).t.written + HeldForTarget(CtxOf(s, id).lp) + DataBytes(Of(s.toAgent, id))
              == DataBytes(Of(s.sentToAgent, id))
  {
    Reachable(allow, steps, s, id);
  }

  // ---- the open handshake -----------------------------------------------------------------------

  lemma {:induction false} InOf(q: seq<Frame>, i: nat)
    requires i < |q|
    ensures q[i] in Of(q, q[i].id)
  {
    if i > 0 {
      InOf(q[1..], i - 1);
      assert q[1..][i - 1] == q[i];
    }
  }

  /** Every frame of the session carries the id of a handler that took it, never the control
      stream's. */
  lemma FrameIds(allow: set<string>, steps: seq<Step>, s: State, f: Frame)
    requires Runs(Init(allow), steps, s)
    requires f in s.sentToAgent || f in s.sentToTunnel
    ensures f.id in s.recs && f.id != CONTROL_STREAM && f.id < ID_LIMIT
  {
    Reachable(allow, steps, s, f.id);
    if f in s.sentToAgent {
      var i :| 0 <= i < |s.sentToAgent| && s.sentToAgent[i] == f;
      InOf(s.sentToAgent, i);
    } else {
      var i :| 0 <= i < |s.sentToTunnel| && s.sentToTunnel[i] == f;
      InOf(s.sentToTunnel, i);
    }
  }

  /** Of one stream the tunnel writes OPEN first and once, and DATA or CLOSE only after it has
      processed OPEN_OK; the agent answers with one OPEN_OK before all else, or with one ERROR and
      nothing else.  So although OPEN is handled on a thread of its own, DATA and CLOSE reach the
      agent only after the stream was added to its table. */
  lemma HandshakeOrder(allow: set<string>, steps: seq<Step>, s: State, id: nat)
    requires Runs(Init(allow), steps, s)
    ensures
      var out, back, r := Of(s.sentToAgent, id), Of(s.sentToTunnel, id), RecOf(s, id);
      && (out != [] ==> out[0] == OpenFrame(id, r.h) && RelayOnly(out, 1))
      && (|out| > 1 ==> r.p.isOpen)
      && (r.p.isOpen ==> OpenOkFirst(back) && r.t.made)
      && (back != [] ==> OpenOkFirst(back) || (|back| == 1 && back[0].tag == ERROR && !r.t.made))
    ensures forall i :: 0 <= i < |s.toAgent| && s.toAgent[i].id == id && s.toAgent[i].tag != OPEN ==> RecOf(s, id).t.made
    ensures LoopOn(s, id) ==> RecOf(s, id).t.made
  {
    Reachable(allow, steps, s, id);
    forall i | 0 <= i < |s.toAgent| && s.toAgent[i].id == id && s.toAgent[i].tag != OPEN
      ensures RecOf(s, id).t.made
    {
      InOf(s.toAgent, i);
    }
  }

  predicate OpenOkFirst(q: seq<Frame>) {
    q != [] && q[0].tag == OPEN_OK && AnswerOnly(q, 1)
  }

  /** The agent connects a stream only to an endpoint of its allowlist, and to the very endpoint
      the tunnel parsed whenever that host holds no line feed. */
  lemma TargetIsRequested(allow: set<string>, steps: seq<Step>, s: State, id: nat)
    requires Runs(Init(allow), steps, s)
    requires RecOf(s, id).t.made
    ensures EndpointToString(RecOf(s, id).t.host, RecOf(s, id).t.port) in allow
    ensures RecOf(s, id).h.host != "" && IsPort(RecOf(s, id).h.port) && '\n' !in RecOf(s, id).h.host ==>
              RecOf(s, id).t.host == RecOf(s, id).h.host && RecOf(s, id).t.port == RecOf(s, id).h.port
  {
    hide Threads, Handshake, AgentHandshake, Awake, ClosedOnce, Draining, Downstream, Upstream, Runs, Inv, Ids;
    InitIsGood(allow);
    AllowNeverChanges(Init(allow), steps, s);
    Reachable(allow, steps, s, id);
    if IsPort(RecOf(s, id).h.port) {
      OpenRoundTrip(RecOf(s, id).h.host, RecOf(s, id).h.port);
    }
  }

  lemma {:induction false} AllowNeverChanges(s: State, steps: seq<Step>, s': State)
    requires Inv(s) && Runs(s, steps, s')
    ensures s'.g.allow == s.g.allow
    decreases |steps|
  {
    hide Good;
    if steps != [] {
      var next := Apply(s, steps[0]);
      StepKeepsInv(s, steps[0]);
      if steps[0].Local? {
        DoShaped(steps[0].act, ViewOf(s, steps[0].id));
      }
      AllowNeverChanges(next, steps[1..], s');
    }
  }

  // ---- closing and draining -----------------------------------------------------------------------

  /** Each client socket is closed at most once, and exactly once when its handler has returned;
      each target socket at most once; the agent sends at most one CLOSE per stream, and only after
      closing the target. */
  lemma ClosedAtMostOnce(allow: set<string>, steps: seq<Step>, s: State, id: nat)
    requires Runs(Init(allow), steps, s)
    ensures RecOf(s, id).p.clientCloses <= 1
    ensures RecOf(s, id).h.pc.Returned? ==> RecOf(s, id).p.clientCloses == 1
    ensures RecOf(s, id).t.closes <= 1
    ensures Closes(Of(s.sentToTunnel, id)) <= RecOf(s, id).t.closes
  {
    Reachable(allow, steps, s, id);
  }

  /** The tunnel's table holds only streams whose handler has taken its id and has not returned. */
  lemma TableHoldsLiveHandlers(allow: set<string>, steps: seq<Step>, s: State, id: nat)
    requires Runs(Init(allow), steps, s)
    requires RecOf(s, id).p.registered
    ensures id in s.recs && !RecOf(s, id).h.pc.Taken? && !RecOf(s, id).h.pc.Returned?
  {
    Reachable(allow, steps, s, id);
  }

  /** The session is up, the handler of `id` has returned, and nothing about `id` is in flight or
      being worked on: the target reader is blocked in `recv`, done, or was never started. */
  predicate Quiet(s: State, id: nat) {
    && s.g.alive && s.g.connected
    && RecOf(s, id).h.pc.Returned?
    && Of(s.toAgent, id) == [] && Of(s.toTunnel, id) == []
    && !ReaderOn(s, id) && !LoopOn(s, id)
    && (RecOf(s, id).o.NoOpen? || RecOf(s, id).o.OpenDone?)
    && (RecOf(s, id).t.pc.Reading? || RecOf(s, id).t.pc.ReaderDone? || RecOf(s, id).t.pc.NoReader?)
  }

  /** Then the agent still holds the stream exactly when the handler gave up waiting before OPEN_OK
      was processed and the target it got is still open. */
  lemma AgentTableDrains(allow: set<string>, steps: seq<Step>, s: State, id: nat)
    requires Runs(Init(allow), steps, s) && Quiet(s, id)
    ensures RecOf(s, id).t.inTable
            <==> RecOf(s, id).h.wait.WaitTimeout? && RecOf(s, id).t.made && !RecOf(s, id).t.closed
  {
    Reachable(allow, steps, s, id);
  }

  lemma {:induction false} RunsAppend(s: State, steps: seq<Step>, s': State, step: Step)
    requires Runs(s, steps, s') && Can(s', step)
    ensures Runs(s, steps + [step], Apply(s', step))
    decreases |steps|
  {
    if steps == [] {
      assert [step][1..] == [];
      assert steps + [step] == [step];
    } else {
      RunsAppend(Apply(s, steps[0]), steps[1..], s', step);
      assert (steps + [step])[1..] == steps[1..] + [step];
    }
  }

  /** A session with stream 1 alone, up, with both dispatch threads idle. */
  function Alone(allow: set<string>, r: Rec, toAgent: seq<Frame>, toTunnel: seq<Frame>,
                 sentToAgent: seq<Frame>, sentToTunnel: seq<Frame>): State {
    State(Init(allow).g, map[1 := r], 2, toAgent, toTunnel, sentToAgent, sentToTunnel, ReaderIdle, LoopIdle)
  }

  /** One more step of a run. */
  lemma Take(s: State, steps: seq<Step>, now: State, step: Step) returns (steps': seq<Step>, next: State)
    requires Runs(s, steps, now) && Can(now, step)
    ensures Runs(s, steps', next) && next == Apply(now, step)
  {
    RunsAppend(s, steps, now, step);
    steps', next := steps + [step], Apply(now, step);
  }

  /** One more step of stream 1, when it leaves the flags alone. */
  lemma TakeAlone(s: State, steps: seq<Step>, now: State, a: Act, e: Eff) returns (steps': seq<Step>, next: State)
    requires Runs(s, steps, now) && Can(now, Local(1, a)) && e == Do(a, CtxOf(now, 1))
    requires now.recs.Keys == {1} && now.nextId == 2 && now.g == s.g && e.g == s.g
    requires now.reader.ReaderIdle? && now.loop.LoopIdle?
    ensures Runs(s, steps', next)
    ensures next == State(s.g, map[1 := e.r], 2, now.toAgent + e.toAgent, now.toTunnel + e.toTunnel,
                          now.sentToAgent + e.toAgent, now.sentToTunnel + e.toTunnel, ReaderIdle, LoopIdle)
  {
    hide Do, Enabled;
    steps', next := Take(s, steps, now, Local(1, a));
    assert next.recs == map[1 := e.r];
  }

  function Sought(isConnect: bool, initial: string, host: string, port: nat, pc: HandlerPc): Handler {
    BLANK.h.(pc := pc, isConnect := isConnect, initial := initial, host := host, port := port)
  }

  lemma OpenGoesOut(allow: set<string>, isConnect: bool, initial: string, host: string, port: nat) returns (steps: seq<Step>)
    ensures
      var open := [Frame(OPEN, 1, MakeOpenPayload(host, port))];
      Runs(Init(allow), steps,
           Alone(allow, BLANK.(h := Sought(isConnect, initial, host, port, Waiting), p := BLANK.p.(registered := true)), open, [], open, []))
  {
    hide Do, Enabled;
    var s0, s := Init(allow), Init(allow);
    steps, s := Take(s0, [], s0, TakeId(isConnect, initial, host, port));
    assert s.recs == map[1 := Born(isConnect, initial, host, port)];
    HandlerSteps(Register, CtxOf(s, 1));
    CanAct(s, Register);
    steps, s := TakeAlone(s0, steps, s, Register, DoRegister(CtxOf(s, 1)));
    HandlerSteps(SendCheck, CtxOf(s, 1));
    CanAct(s, SendCheck);
    steps, s := TakeAlone(s0, steps, s, SendCheck, DoSendCheck(CtxOf(s, 1)));
    HandlerSteps(SendOk, CtxOf(s, 1));
    CanAct(s, SendOk);
    steps, s := TakeAlone(s0, steps, s, SendOk, DoSendOk(CtxOf(s, 1)));
    var open := [Frame(OPEN, 1, MakeOpenPayload(host, port))];
    assert s == Alone(allow, BLANK.(h := Sought(isConnect, initial, host, port, Waiting), p := BLANK.p.(registered := true)), open, [], open, []);
  }

  lemma TimesOut(s0: State, steps: seq<Step>, s: State) returns (steps': seq<Step>, next: State)
    requires Runs(s0, steps, s) && s.g == s0.g && s.recs.Keys == {1} && s.nextId == 2
    requires s.reader.ReaderIdle? && s.loop.LoopIdle?
    requires s.recs[1].h.pc.Waiting? && WaitOutcome(s.recs[1].p) == WaitTimeout
    ensures Runs(s0, steps', next)
    ensures next == s.(recs := map[1 := s.recs[1].(h := s.recs[1].h.(pc := Unregistering, wait := WaitTimeout))])
  {
    hide Do, Enabled;
    HandlerSteps(WaitReturn, CtxOf(s, 1));
    CanAct(s, WaitReturn);
    steps', next := TakeAlone(s0, steps, s, WaitReturn, DoWaitReturn(CtxOf(s, 1)));
  }

  lemma HandlerGivesUp(s0: State, steps: seq<Step>, s: State, allow: set<string>, host: string, port: nat)
    returns (steps': seq<Step>, r: Rec)
    requires s0.g == Init(allow).g
    requires s == Alone(allow, BLANK.(h := Sought(true, "", host, port, Waiting), p := BLANK.p.(registered := true)),
                        s.toAgent, [], s.toAgent, [])
    requires Runs(s0, steps, s)
    ensures Runs(s0, steps', Alone(allow, r, s.toAgent, [], s.toAgent, []))
    ensures r.h == Sought(true, "", host, port, Returned).(wait := WaitTimeout) && !r.p.registered
    ensures r.o.NoOpen? && r.t == BLANK.t
  {
    hide Do, Enabled, Runs;
    var now := s;
    steps', now := TimesOut(s0, steps, s);
    HandlerSteps(Unregister, CtxOf(now, 1));
    CanAct(now, Unregister);
    steps', now := TakeAlone(s0, steps', now, Unregister, DoUnregister(CtxOf(now, 1)));
    HandlerSteps(CloseClient, CtxOf(now, 1));
    CanAct(now, CloseClient);
    steps', now := TakeAlone(s0, steps', now, CloseClient, DoCloseClient(CtxOf(now, 1)));
    r := now.recs[1];
    assert now == Alone(allow, r, s.toAgent, [], s.toAgent, []);
  }

  lemma CanAct(s: State, a: Act)
    requires 1 in s.recs && Enabled(a, CtxOf(s, 1))
    ensures Can(s, Local(1, a))
  {
  }

  lemma AgentTakesOpen(s0: State, steps: seq<Step>, allow: set<string>, open: Frame, r: Rec) returns (steps': seq<Step>)
    requires open.id == 1 && open.tag == OPEN
    requires Runs(s0, steps, Alone(allow, r, [open], [], [open], []))
    ensures Runs(s0, steps', Alone(allow, r.(o := OpenStarted(open.payload)), [], [], [open], []))
  {
    var now := Alone(allow, r, [open], [], [open], []);
    steps', now := Take(s0, steps, now, AgentReceive);
    assert now == Alone(allow, r.(o := OpenStarted(open.payload)), [], [], [open], []);
  }

  lemma AgentConnects(s0: State, steps: seq<Step>, allow: set<string>, open: Frame, r: Rec)
    returns (steps': seq<Step>, r': Rec)
    requires s0.g == Init(allow).g && open.id == 1 && open.tag == OPEN && Allowed(open.payload, allow)
    requires Runs(s0, steps, Alone(allow, r, [open], [], [open], []))
    requires r.o.NoOpen? && r.t == BLANK.t
    ensures Runs(s0, steps', Alone(allow, r', [], [], [open], []))
    ensures r'.h == r.h && r'.p == r.p && r'.o.OpenAdded? && r'.t.inTable && r'.t.made && !r'.t.closed
    ensures r'.t.read == "" && r'.t.written == "" && r'.t.closes == 0 && r'.t.pc.NoReader?
  {
    hide Do, Enabled, Runs, Can, Apply, EndpointToString, ParseOpenPayload;
    var now := Alone(allow, r.(o := OpenStarted(open.payload)), [], [], [open], []);
    steps' := AgentTakesOpen(s0, steps, allow, open, r);
    TargetSteps(OpenConnect, CtxOf(now, 1));
    CanAct(now, OpenConnect);
    steps', now := TakeAlone(s0, steps', now, OpenConnect, DoOpenConnect(CtxOf(now, 1)));
    TargetSteps(OpenAdd, CtxOf(now, 1));
    CanAct(now, OpenAdd);
    steps', now := TakeAlone(s0, steps', now, OpenAdd, DoOpenAdd(CtxOf(now, 1)));
    r' := now.recs[1];
    assert now == Alone(allow, r', [], [], [open], []);
  }

  lemma OpenOkDropped(s0: State, steps: seq<Step>, now: State) returns (steps': seq<Step>, s: State)
    requires Runs(s0, steps, now) && now.reader.ReaderIdle?
    requires |now.toTunnel| == 1 && !RecOf(now, now.toTunnel[0].id).p.registered
    ensures Runs(s0, steps', s) && s == now.(toTunnel := [])
  {
    steps', s := Take(s0, steps, now, TunnelReceive);
  }

  lemma OpenOkComesTooLate(s0: State, steps: seq<Step>, allow: set<string>, open: Frame, r: Rec)
    returns (steps': seq<Step>, s: State)
    requires s0.g == Init(allow).g && !r.p.registered
    requires Runs(s0, steps, Alone(allow, r, [], [], [open], []))
    requires r.h.pc.Returned? && r.o.OpenAdded? && r.t.inTable && !r.t.closed
    ensures Runs(s0, steps', s) && Quiet(s, 1) && RecOf(s, 1).t.inTable
  {
    hide Do, Enabled, Runs, Can, Apply;
    var now := Alone(allow, r, [], [], [open], []);
    TargetSteps(OpenOkSend(true), CtxOf(now, 1));
    CanAct(now, OpenOkSend(true));
    steps', now := TakeAlone(s0, steps, now, OpenOkSend(true), DoOpenOkSend(CtxOf(now, 1), true));
    TargetSteps(TargetCheck, CtxOf(now, 1));
    CanAct(now, TargetCheck);
    steps', now := TakeAlone(s0, steps', now, TargetCheck, DoTargetCheck(CtxOf(now, 1)));
    assert now.toTunnel == [Frame(OPEN_OK, 1, "ok")];
    steps', s := OpenOkDropped(s0, steps', now);
  }

  /** That does happen, for every allowed endpoint: a run in which the open takes longer than the
      handler waits ends quiet, with the target still connected and in the agent's table. */
  lemma SlowOpenStays(allow: set<string>, host: string, port: nat) returns (steps: seq<Step>, s: State)
    requires host != "" && '\n' !in host && IsPort(port) && EndpointToString(host, port) in allow
    ensures Runs(Init(allow), steps, s)
    ensures Quiet(s, 1) && RecOf(s, 1).t.inTable
  {
    hide Can, Apply, Runs, Quiet;
    var open := Frame(OPEN, 1, MakeOpenPayload(host, port));
    OpenRoundTrip(host, port);
    var s0, r := Init(allow), BLANK;
    steps := OpenGoesOut(allow, true, "", host, port);
    s := Alone(allow, BLANK.(h := Sought(true, "", host, port, Waiting), p := BLANK.p.(registered := true)), [open], [], [open], []);
    steps, r := HandlerGivesUp(s0, steps, s, allow, host, port);
    steps, r := AgentConnects(s0, steps, allow, open, r);
    steps, s := OpenOkComesTooLate(s0, steps, allow, open, r);
  }
}
