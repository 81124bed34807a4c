/**
 Two runs from beginning to end: an exchange that loses nothing, and an open that is refused.
 */
module MuxRuns {
  import opened Text
  import opened Endpoints
  import opened Frames
  import opened Streams
  import opened StreamInvariant
  import opened Mux
  import opened MuxTheorems
  import opened MuxClosing

  predicate Idle(s: State) {
    Solo(s) && s.reader.ReaderIdle? && s.loop.LoopIdle?
  }

  // ---- the tunnel's side ----------------------------------------------------------------------------

  /** What the handler sends once the target is open. */
  function First(isConnect: bool, initial: string): seq<Frame> {
    if isConnect || initial == "" then [] else [Frame(DATA, 1, initial)]
  }

  /** The OPEN_OK is taken and the wait ends: a CONNECT is answered, or the rewritten request goes out. */
  lemma Answered(s0: State, steps: seq<Step>, now: State, isConnect: bool, initial: string, host: string, port: nat)
    returns (steps': seq<Step>, next: State)
    requires Runs(s0, steps, now) && Idle(now)
    requires now.toTunnel == [Frame(OPEN_OK, 1, "ok")] && now.toAgent == []
    requires now.recs[1].p == BLANK.p.(registered := true) && now.recs[1].h == Sought(isConnect, initial, host, port, Waiting)
    ensures Runs(s0, steps', next) && Idle(next) && next.toTunnel == [] && next.toAgent == First(isConnect, initial)
    ensures next.recs[1].h == Sought(isConnect, initial, host, port, Relaying).(wait := WaitOk)
    ensures next.recs[1].t == now.recs[1].t && next.recs[1].p == BLANK.p.(registered := true, isOpen := true)
    ensures next.recs[1].o == now.recs[1].o
  {
    hide Runs, Can, Apply;
    steps', next := FrameFound(s0, steps, now);
    steps', next := GoReader(s0, steps', next, TakeOpenOk, DoTakeOpenOk(CtxOf(next, 1)));
    steps', next := GoHandler(s0, steps', next, WaitReturn, DoWaitReturn(CtxOf(next, 1)));
    if isConnect {
      steps', next := GoHandler(s0, steps', next, Reply(true), DoReply(CtxOf(next, 1), true));
    } else if initial != "" {
      steps', next := Sent(s0, steps', next);
    }
  }

  /** A handler sends its frame. */
  lemma Sent(s0: State, steps: seq<Step>, now: State) returns (steps': seq<Step>, next: State)
    requires Runs(s0, steps, now) && Idle(now) && now.recs[1].h.pc.Sending? && now.toAgent == []
    ensures Runs(s0, steps', next) && Idle(next) && next.toAgent == [now.recs[1].h.pc.frame] && next.toTunnel == now.toTunnel
    ensures next.recs[1].h == now.recs[1].h.(pc := AfterSend(now.recs[1].h.pc.site))
    ensures next.recs[1].t == now.recs[1].t && next.recs[1].p == now.recs[1].p
    ensures next.recs[1].o == now.recs[1].o
  {
    hide Runs, Can, Apply;
    steps', next := GoHandler(s0, steps, now, SendCheck, DoSendCheck(CtxOf(now, 1)));
    steps', next := GoHandler(s0, steps', next, SendOk, DoSendOk(CtxOf(next, 1)));
  }

  /** The client sends bytes. */
  lemma ClientSends(s0: State, steps: seq<Step>, now: State, bytes: string) returns (steps': seq<Step>, next: State)
    requires Runs(s0, steps, now) && Idle(now) && now.recs[1].h.pc.Relaying? && now.toAgent == [] && 1 <= |bytes| <= RELAY_CHUNK
    ensures Runs(s0, steps', next) && Idle(next) && next.toAgent == [Frame(DATA, 1, bytes)] && next.toTunnel == now.toTunnel
    ensures next.recs[1].h.pc.Relaying? && next.recs[1].t == now.recs[1].t && next.recs[1].p == now.recs[1].p
    ensures next.recs[1].o == now.recs[1].o
  {
    hide Runs, Can, Apply;
    steps', next := GoHandler(s0, steps, now, ClientRead(bytes), DoClientRead(CtxOf(now, 1), bytes));
    steps', next := Sent(s0, steps', next);
  }

  /** The client ends, and its handler leaves. */
  lemma ClientEnds(s0: State, steps: seq<Step>, now: State) returns (steps': seq<Step>, next: State)
    requires Runs(s0, steps, now) && Idle(now) && now.recs[1].h.pc.Relaying? && now.toAgent == []
    ensures Runs(s0, steps', next) && Idle(next) && next.toAgent == [CloseFrame(1)] && next.toTunnel == now.toTunnel
    ensures next.recs[1].h.pc.Returned? && next.recs[1].t == now.recs[1].t
    ensures next.recs[1].p == ClosedClient(now.recs[1].p.(registered := false))
    ensures next.recs[1].o == now.recs[1].o
  {
    hide Runs, Can, Apply;
    steps', next := GoHandler(s0, steps, now, ClientEof, DoClientEof(CtxOf(now, 1)));
    steps', next := Sent(s0, steps', next);
    steps', next := GoHandler(s0, steps', next, Unregister, DoUnregister(CtxOf(next, 1)));
    steps', next := GoHandler(s0, steps', next, CloseClient, DoCloseClient(CtxOf(next, 1)));
  }

  // ---- the agent's side -----------------------------------------------------------------------------

  /** The agent hands the target what the tunnel sent. */
  lemma TargetHears(s0: State, steps: seq<Step>, now: State) returns (steps': seq<Step>, next: State)
    requires Runs(s0, steps, now) && Idle(now) && |now.toAgent| == 1 && now.toAgent[0].id == 1 && now.toAgent[0].tag == DATA
    requires now.recs[1].t.inTable && !now.recs[1].t.closed
    ensures Runs(s0, steps', next) && Idle(next) && next.toAgent == [] && next.toTunnel == now.toTunnel
    ensures next.recs[1].h == now.recs[1].h && next.recs[1].p == now.recs[1].p
    ensures next.recs[1].t == now.recs[1].t.(written := now.recs[1].t.written + now.toAgent[0].payload)
    ensures next.recs[1].o == now.recs[1].o
  {
    hide Runs, Can, Apply;
    steps', next := DataFound(s0, steps, now);
    steps', next := GoLoop(s0, steps', next, LoopWrite, DoLoopWrite(CtxOf(next, 1)));
  }

  /** The target sends bytes, and the client gets them. */
  lemma ClientHears(s0: State, steps: seq<Step>, now: State, bytes: string) returns (steps': seq<Step>, next: State)
    requires Runs(s0, steps, now) && Idle(now) && now.toTunnel == [] && now.recs[1].p.registered && 1 <= |bytes| <= RELAY_CHUNK
    requires now.recs[1].t.pc.Checking? && !now.recs[1].t.closed
    ensures Runs(s0, steps', next) && Idle(next) && next.toTunnel == [] && next.toAgent == now.toAgent
    ensures next.recs[1].h == now.recs[1].h && next.recs[1].t == now.recs[1].t.(read := now.recs[1].t.read + bytes)
    ensures next.recs[1].p == now.recs[1].p.(toClient := now.recs[1].p.toClient + bytes)
    ensures next.recs[1].o == now.recs[1].o
  {
    hide Runs, Can, Apply;
    steps', next := GoTarget(s0, steps, now, TargetCheck, DoTargetCheck(CtxOf(now, 1)));
    steps', next := GoTarget(s0, steps', next, TargetRead(bytes), DoTargetRead(CtxOf(next, 1), bytes));
    steps', next := GoTarget(s0, steps', next, TargetForward(true), DoTargetForward(CtxOf(next, 1), true));
    steps', next := FrameFound(s0, steps', next);
    steps', next := GoReader(s0, steps', next, TakeData, DoTakeData(CtxOf(next, 1)));
  }

  /** The target ends: its reader closes it and says so. */
  lemma TargetEnds(s0: State, steps: seq<Step>, now: State) returns (steps': seq<Step>, next: State)
    requires Runs(s0, steps, now) && Idle(now) && now.toTunnel == []
    requires now.recs[1].t.pc.Checking? && now.recs[1].t.inTable && !now.recs[1].t.closed
    ensures Runs(s0, steps', next) && Idle(next) && next.toTunnel == [CloseFrame(1)] && next.toAgent == now.toAgent
    ensures next.recs[1].h == now.recs[1].h && next.recs[1].p == now.recs[1].p
    ensures next.recs[1].t == ClosedTarget(now.recs[1].t).(inTable := false, pc := ReaderDone, eofClose := true)
    ensures next.recs[1].o == now.recs[1].o
  {
    hide Runs, Can, Apply;
    steps', next := GoTarget(s0, steps, now, TargetCheck, DoTargetCheck(CtxOf(now, 1)));
    steps', next := GoTarget(s0, steps', next, TargetEof, DoTargetEof(CtxOf(next, 1)));
    steps', next := ReaderLeaves(s0, steps', next);
  }

  lemma ReaderLeaves(s0: State, steps: seq<Step>, now: State) returns (steps': seq<Step>, next: State)
    requires Runs(s0, steps, now) && Idle(now) && now.toTunnel == []
    requires now.recs[1].t.pc == TargetClosing(Finding) && now.recs[1].t.inTable && !now.recs[1].t.closed
    ensures Runs(s0, steps', next) && Idle(next) && next.toTunnel == [CloseFrame(1)] && next.toAgent == now.toAgent
    ensures next.recs[1].h == now.recs[1].h && next.recs[1].p == now.recs[1].p
    ensures next.recs[1].t == ClosedTarget(now.recs[1].t).(inTable := false, pc := ReaderDone, eofClose := true)
    ensures next.recs[1].o == now.recs[1].o
  {
    hide Runs, Can, Apply;
    steps', next := GoTarget(s0, steps, now, TargetFind, DoTargetFind(CtxOf(now, 1)));
    steps', next := GoTarget(s0, steps', next, TargetExchange, DoTargetExchange(CtxOf(next, 1)));
    steps', next := GoTarget(s0, steps', next, TargetRemove, DoTargetRemove(CtxOf(next, 1)));
    steps', next := GoTarget(s0, steps', next, TargetNotify(true), DoTargetNotify(CtxOf(next, 1), true));
  }

  /** The tunnel takes the CLOSE. */
  lemma CloseHeard(s0: State, steps: seq<Step>, now: State) returns (steps': seq<Step>, next: State)
    requires Runs(s0, steps, now) && Idle(now) && now.toTunnel == [CloseFrame(1)] && now.recs[1].p.registered
    ensures Runs(s0, steps', next) && Idle(next) && next.toTunnel == [] && next.toAgent == now.toAgent
    ensures next.recs[1].h == now.recs[1].h && next.recs[1].t == now.recs[1].t
    ensures next.recs[1].p == ClosedClient(now.recs[1].p.(closed := true, closeTaken := true, registered := false))
    ensures next.recs[1].o == now.recs[1].o
  {
    hide Runs, Can, Apply;
    steps', next := FrameFound(s0, steps, now);
    steps', next := GoReader(s0, steps', next, TakeClose, DoTakeClose(CtxOf(next, 1)));
    steps', next := GoReader(s0, steps', next, ReaderUnregister, DoReaderUnregister(CtxOf(next, 1)));
    steps', next := GoReader(s0, steps', next, ReaderCloseClient, DoReaderCloses(CtxOf(next, 1)));
  }

  /** The agent gets the handler's CLOSE for a stream it has closed already. */
  lemma CloseIgnored(s0: State, steps: seq<Step>, now: State) returns (steps': seq<Step>, next: State)
    requires Runs(s0, steps, now) && Idle(now) && now.toAgent == [CloseFrame(1)] && !now.recs[1].t.inTable
    ensures Runs(s0, steps', next) && Idle(next) && next.toAgent == [] && next.toTunnel == now.toTunnel
    ensures next.recs[1] == now.recs[1]
  {
    hide Runs;
    steps', next := Take(s0, steps, now, AgentReceive);
    assert next.recs == now.recs;
    hide Can, Apply;
    steps', next := GoLoop(s0, steps', next, LoopFind, DoLoopFind(CtxOf(next, 1)));
  }

  // ---- the whole ------------------------------------------------------------------------------------

  /** From the open to the last byte in either direction. */
  lemma BytesGoThrough(allow: set<string>, isConnect: bool, initial: string, host: string, port: nat,
                       request: string, answer: string) returns (steps: seq<Step>, s: State)
    requires host != "" && '\n' !in host && IsPort(port) && EndpointToString(host, port) in allow
    requires 1 <= |request| <= RELAY_CHUNK && 1 <= |answer| <= RELAY_CHUNK
    ensures Runs(Init(allow), steps, s) && Idle(s) && s.toAgent == [] && s.toTunnel == []
    ensures s.recs[1].h.pc.Relaying? && s.recs[1].p == BLANK.p.(registered := true, isOpen := true, toClient := answer)
    ensures
      var t := s.recs[1].t;
      && t.pc.Checking? && t.inTable && !t.closed && t.closes == 0 && t.read == answer
      && t.written == (if isConnect then "" else initial) + request
    ensures s.recs[1].o.OpenDone?
  {
    hide Runs, Can, Apply, ParseOpenPayload, EndpointToString, Solo;
    var s0 := Init(allow);
    steps, s := OpenSucceeds(allow, isConnect, initial, host, port);
    steps, s := Answered(s0, steps, s, isConnect, initial, host, port);
    if First(isConnect, initial) != [] {
      steps, s := TargetHears(s0, steps, s);
    }
    steps, s := ClientSends(s0, steps, s, request);
    steps, s := TargetHears(s0, steps, s);
    steps, s := ClientHears(s0, steps, s, answer);
  }

  /** For every allowed endpoint, request and answer there is a run in which the target gets all of the
      request and the client all of the answer, both sockets are closed once, the handler returns, both
      tables are empty, and nothing is left on its way. */
  lemma ExchangeSucceeds(allow: set<string>, isConnect: bool, initial: string, host: string, port: nat,
                         request: string, answer: string) returns (steps: seq<Step>, s: State)
    requires host != "" && '\n' !in host && IsPort(port) && EndpointToString(host, port) in allow
    requires 1 <= |request| <= RELAY_CHUNK && 1 <= |answer| <= RELAY_CHUNK
    ensures Runs(Init(allow), steps, s) && Quiet(s, 1) && s.toAgent == [] && s.toTunnel == []
    ensures
      var t, p := RecOf(s, 1).t, RecOf(s, 1).p;
      && t.written == (if isConnect then "" else initial) + request
      && t.read == answer && p.toClient == answer && p.closeTaken && t.eofClose
      && !p.registered && p.clientCloses == 1 && !t.inTable && t.closes == 1
  {
    hide Runs, Can, Apply, ParseOpenPayload, EndpointToString;
    var s0 := Init(allow);
    steps, s := BytesGoThrough(allow, isConnect, initial, host, port, request, answer);
    steps, s := TargetEnds(s0, steps, s);
    steps, s := CloseHeard(s0, steps, s);
    steps, s := ClientEnds(s0, steps, s);
    steps, s := CloseIgnored(s0, steps, s);
  }

  // ---- an open that is refused ----------------------------------------------------------------------

  /** The agent answers an OPEN with an ERROR. */
  lemma AgentRefuses(s0: State, steps: seq<Step>, allow: set<string>, open: Frame, r: Rec)
    returns (steps': seq<Step>, next: State)
    requires s0.g == Init(allow).g && open.id == 1 && open.tag == OPEN
    requires Runs(s0, steps, Alone(allow, r, [open], [], [open], [])) && r.o.NoOpen?
    ensures Runs(s0, steps', next) && Idle(next) && next.toAgent == []
    ensures next.toTunnel == [Frame(ERROR, 1, RejectText(open.payload, allow, ""))]
    ensures next.recs[1] == r.(o := OpenDone)
  {
    hide Runs, Can, Apply, RejectText;
    var now := Alone(allow, r.(o := OpenStarted(open.payload)), [], [], [open], []);
    steps' := AgentTakesOpen(s0, steps, allow, open, r);
    steps', next := GoTarget(s0, steps', now, OpenReject(""), DoOpenReject(CtxOf(now, 1), ""));
    steps', next := GoTarget(s0, steps', next, OpenErrorSend(true), DoOpenErrorSend(CtxOf(next, 1), true));
  }

  /** The handler hears of it and leaves. */
  lemma HandlerRefused(s0: State, steps: seq<Step>, now: State, text: string) returns (steps': seq<Step>, next: State)
    requires Runs(s0, steps, now) && Idle(now) && now.toTunnel == [Frame(ERROR, 1, text)] && text != ""
    requires now.recs[1].p == BLANK.p.(registered := true) && now.recs[1].h.pc.Waiting?
    ensures Runs(s0, steps', next) && Idle(next) && next.toTunnel == [] && next.toAgent == now.toAgent
    ensures next.recs[1].h == now.recs[1].h.(pc := Returned, wait := WaitError) && next.recs[1].t == now.recs[1].t
    ensures next.recs[1].p == BLANK.p.(closed := true, error := text, clientClosed := true, clientCloses := 1)
    ensures next.recs[1].o == now.recs[1].o
  {
    hide Runs, Can, Apply;
    steps', next := FrameFound(s0, steps, now);
    steps', next := GoReader(s0, steps', next, TakeError, DoTakeError(CtxOf(next, 1)));
    steps', next := GoHandler(s0, steps', next, WaitReturn, DoWaitReturn(CtxOf(next, 1)));
    steps', next := GoHandler(s0, steps', next, Unregister, DoUnregister(CtxOf(next, 1)));
    steps', next := GoHandler(s0, steps', next, CloseClient, DoCloseClient(CtxOf(next, 1)));
  }

  lemma RefusedText(allow: set<string>, host: string, port: nat)
    requires host != "" && '\n' !in host && IsPort(port) && EndpointToString(host, port) !in allow
    ensures RejectText(MakeOpenPayload(host, port), allow, "") == "target not allowed: " + EndpointToString(host, port)
  {
    OpenRoundTrip(host, port);
    hide ParseOpenPayload, MakeOpenPayload;
  }

  /** For every endpoint that is not allowed there is a run in which the handler is told so at once: its wait
      ends with the agent's own text, not with the timeout, and the client is closed. */
  lemma RefusalIsTold(allow: set<string>, host: string, port: nat) returns (steps: seq<Step>, s: State)
    requires host != "" && '\n' !in host && IsPort(port) && EndpointToString(host, port) !in allow
    ensures Runs(Init(allow), steps, s) && Quiet(s, 1)
    ensures
      var h, p := RecOf(s, 1).h, RecOf(s, 1).p;
      && h.wait.WaitError? && p.error == "target not allowed: " + EndpointToString(host, port)
      && p.clientCloses == 1 && !p.registered && !RecOf(s, 1).t.made
  {
    hide Can, Apply, Runs;
    var open := Frame(OPEN, 1, MakeOpenPayload(host, port));
    RefusedText(allow, host, port);
    hide ParseOpenPayload, EndpointToString, MakeOpenPayload, RejectText;
    var s0 := Init(allow);
    var r := BLANK.(h := Sought(true, "", host, port, Waiting), p := BLANK.p.(registered := true));
    steps := OpenGoesOut(allow, true, "", host, port);
    steps, s := AgentRefuses(s0, steps, allow, open, r);
    var text := "target not allowed: " + EndpointToString(host, port);
    assert text != "";
    steps, s := HandlerRefused(s0, steps, s, text);
  }
}
