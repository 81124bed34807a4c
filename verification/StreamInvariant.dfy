/**
 What every step of the protocol keeps about one stream.

 A `View` is one stream with the frames of that stream still in flight (`toAgent`, `toTunnel`) and
 all frames of that stream ever written (`sentToAgent`, `sentToTunnel`).  `Good` is the invariant;
 each lemma below shows that one group of steps keeps it.
 */
module StreamInvariant {
  import opened Text
  import opened Endpoints
  import opened Frames
  import opened Streams

  datatype View = View(
    c: Ctx, toAgent: Line, toTunnel: Line, sentToAgent: Line, sentToTunnel: Line)

  // ---- how a view changes --------------------------------------------------------------------

  function After(v: View, e: Eff): View {
    View(v.c.(r := e.r, g := e.g, rd := e.rd, lp := e.lp),
         Push(v.toAgent, e.toAgent), Push(v.toTunnel, e.toTunnel),
         Push(v.sentToAgent, e.toAgent), Push(v.sentToTunnel, e.toTunnel))
  }

  /** A step writes at most one frame to either direction. */
  function Push(l: Line, frames: seq<Frame>): Line {
    if frames == [] then l else Add(l, frames[0])
  }

  /** `read_loop` receives a frame and looks its stream up. */
  function FoundBy(f: Frame, r: Rec): ReaderPc {
    if r.p.registered then ReaderFound(f) else ReaderIdle
  }

  /** `session_loop` receives a frame; for DATA it has also looked the stream up and read
      `closed`.  A frame that is not OPEN, DATA or CLOSE is refused with an ERROR frame; its text
      would be another one, but `Handshake` shows that the tunnel never writes such a frame. */
  function Dispatched(f: Frame, r: Rec): LoopPc {
    if f.tag == OPEN then LoopIdle
    else if f.tag == DATA && r.t.inTable && !r.t.closed then LoopWriting(f)
    else if f.tag == CLOSE then LoopClosing(f.id, Finding)
    else LoopRefusing(f.id)
  }

  /** OPEN starts a thread of its own. */
  function Opening(f: Frame, r: Rec): Rec {
    if f.tag == OPEN then r.(o := OpenStarted(f.payload)) else r
  }

  function TunnelReceives(v: View, rest: Line): View
    requires v.toTunnel.frames != []
  {
    v.(c := v.c.(rd := FoundBy(v.toTunnel.frames[0], v.c.r)), toTunnel := rest)
  }

  function AgentReceives(v: View, rest: Line): View
    requires v.toAgent.frames != []
  {
    v.(c := v.c.(r := Opening(v.toAgent.frames[0], v.c.r), lp := Dispatched(v.toAgent.frames[0], v.c.r)),
       toAgent := rest)
  }

  /** The copy-and-clear section of the tunnel's `close_all_streams`. */
  function Swept(r: Rec): Rec {
    r.(p := r.p.(registered := false, drainFlag := r.p.drainFlag || r.p.registered))
  }

  /** The copy-and-clear section of the agent's `close_all_streams`. */
  function AgentSwept(r: Rec): Rec {
    r.(t := r.t.(inTable := false, draining := r.t.draining || r.t.inTable))
  }

  /** `next_stream_id_.fetch_add(1)` and the fresh `ProxyStream`, for a request to `host:port`. */
  function Born(isConnect: bool, initial: string, host: string, port: nat): Rec {
    BLANK.(h := BLANK.h.(pc := Taken, isConnect := isConnect, initial := initial, host := host, port := port))
  }

  /** Flags only ever get worse within one session. */
  predicate Worse(g: Globals, g': Globals) {
    && (g'.alive ==> g.alive)
    && (g'.connected ==> g.connected)
    && (g.tunnelBroken ==> g'.tunnelBroken)
    && (g.agentBroken ==> g'.agentBroken)
    && g'.swept == g.swept
    && g'.allow == g.allow
    && (g.swept ==> !g.alive)
  }

  // ---- vocabulary ----------------------------------------------------------------------------

  /** Bytes the handler has for the target: its initial data, then what it read. */
  function Offered(h: Handler): string {
    (if h.isConnect then "" else h.initial) + h.relayed
  }

  /** Target bytes found by the reader and not yet written to the client. */
  function HeldForClient(rd: ReaderPc): string {
    if rd.ReaderFound? && rd.frame.tag == DATA then rd.frame.payload else ""
  }

  /** Client bytes found by the session loop and not yet written to the target. */
  function HeldForTarget(lp: LoopPc): string {
    if lp.LoopWriting? then lp.frame.payload else ""
  }

  predicate OpenOkSent(v: View) {
    v.sentToTunnel.frames != [] && v.sentToTunnel.frames[0].tag == OPEN_OK
  }

  predicate OpenOkInFlight(v: View) {
    v.toTunnel.frames != [] && v.toTunnel.frames[0].tag == OPEN_OK
  }

  /** From index `from` on, only what the tunnel relays: DATA and CLOSE. */
  predicate RelayOnly(q: seq<Frame>, from: nat) {
    forall i :: from <= i < |q| ==> (q[i].tag == DATA && q[i].payload != "") || q[i].tag == CLOSE
  }

  /** From index `from` on, only what the agent sends for a connected stream. */
  predicate AnswerOnly(q: seq<Frame>, from: nat) {
    forall i :: from <= i < |q| ==> q[i].tag == DATA || q[i].tag == CLOSE || q[i].tag == ERROR
  }

  predicate Answer(f: Frame) {
    f.tag == OPEN_OK || f.tag == DATA || f.tag == CLOSE || f.tag == ERROR
  }

  predicate ErrorOnly(q: seq<Frame>) {
    forall i :: 0 <= i < |q| ==> q[i].tag == ERROR
  }

  predicate BeforeOpen(pc: HandlerPc) {
    pc.Taken? || (pc.Sending? && pc.site == OpenSite) || (pc.Checked? && pc.site == OpenSite)
  }

  predicate PastOpen(pc: HandlerPc) {
    pc.Replying? || pc.Relaying? || (pc.Sending? && pc.site != OpenSite) || (pc.Checked? && pc.site != OpenSite)
  }

  predicate Leaving(pc: HandlerPc) {
    pc.Unregistering? || pc.ClosingClient? || pc.Returned?
  }

  /** The handler's OPEN passed the test of `alive_` and it has not stopped waiting. */
  predicate Passed(pc: HandlerPc) {
    pc.Waiting? || (pc.Checked? && pc.site == OpenSite)
  }

  /** The condition `handle_proxy_client` waits for. */
  predicate WaitOver(p: Proxy) {
    p.isOpen || p.error != "" || p.closed
  }

  /** The agent answered OPEN with an ERROR instead of a target. */
  predicate Refused(r: Rec) {
    r.o.OpenDone? && !r.t.made
  }

  /** After a failed client write or a CLOSE, `read_loop` is on its way to unregister. */
  predicate ReaderDropping(rd: ReaderPc) {
    rd.ReaderSending? || rd.ReaderChecked? || rd.ReaderUnregistering?
  }

  /** A thread that won the exchange in `handle_close` and has not sent its CLOSE yet. */
  predicate Won(at: ClosePc) {
    at.Removing? || at.Notifying?
  }

  function LoopWon(lp: LoopPc): nat {
    if lp.LoopClosing? && Won(lp.at) then 1 else 0
  }

  function TargetWon(pc: TargetPc): nat {
    if pc.TargetClosing? && Won(pc.at) then 1 else 0
  }

  // ---- the invariant -------------------------------------------------------------------------

  predicate Blank(v: View) {
    v.c.r == BLANK && v.c.rd.ReaderIdle? && v.c.lp.LoopIdle? &&
    v.toAgent == EMPTY_LINE && v.toTunnel == EMPTY_LINE && v.sentToAgent == EMPTY_LINE && v.sentToTunnel == EMPTY_LINE
  }

  predicate Threads(v: View) {
    var h := v.c.r.h;
    && Fits(v.toAgent) && Fits(v.toTunnel) && Fits(v.sentToAgent) && Fits(v.sentToTunnel)
    && (!v.c.rd.ReaderIdle? ==> ReaderId(v.c.rd) == v.c.id)
    && (!v.c.lp.LoopIdle? ==> LoopId(v.c.lp) == v.c.id)
    && (v.c.lp.LoopWriting? ==> v.c.lp.frame.tag == DATA)
    && (h.pc.Sending? || h.pc.Checked? ==>
          match h.pc.site
          case OpenSite => h.pc.frame == OpenFrame(v.c.id, h)
          case CloseSite => h.pc.frame == Frame(CLOSE, v.c.id, "")
          case InitialSite => h.pc.frame == Frame(DATA, v.c.id, h.initial) && h.initial != "" && !h.isConnect
          case RelaySite => h.pc.frame.tag == DATA && h.pc.frame.id == v.c.id && h.pc.frame.payload != "")
  }

  /** The order of the open handshake, on the tunnel's side and on the agent's. */
  predicate Handshake(v: View) {
    var r, h := v.c.r, v.c.r.h;
    // the tunnel: OPEN first and once, then only DATA and CLOSE
    && (BeforeOpen(h.pc) ==> v.sentToAgent.frames == [])
    && (h.pc.Waiting? || PastOpen(h.pc) ==> v.sentToAgent.frames != [])
    && (h.pc.Waiting? ==> v.sentToAgent.bytes == "")
    && (v.sentToAgent.frames != [] ==> v.sentToAgent.frames[0] == OpenFrame(v.c.id, h))
    && RelayOnly(v.sentToAgent.frames, 1)
    && (v.sentToAgent.frames == [] ==> v.toAgent.frames == [] && r.o.NoOpen?)
    && (r.o.NoOpen? ==> v.toAgent == v.sentToAgent && |v.toAgent.frames| <= 1)
    && (!r.o.NoOpen? ==> RelayOnly(v.toAgent.frames, 0))
    // nothing but OPEN before OpenOk is processed
    && (!r.p.isOpen ==> |v.sentToAgent.frames| <= 1)
    && (PastOpen(h.pc) ==> r.p.isOpen)
    && (!r.o.NoOpen? && v.toAgent.frames != [] ==> r.p.isOpen && |v.sentToAgent.frames| >= 2)
    && (|v.sentToAgent.frames| <= 1 ==> v.sentToAgent.closes == 0)
    && (!v.c.lp.LoopIdle? ==> r.p.isOpen && |v.sentToAgent.frames| >= 2)
    && (r.p.isOpen ==> OpenOkSent(v) && r.t.made)
  }

  predicate AgentHandshake(v: View) {
    var r := v.c.r;
    // the open thread
    && (r.o.NoOpen? || r.o.OpenStarted? || r.o.OpenRejected? || r.o.OpenConnected? ==> !r.t.made && v.sentToTunnel.frames == [])
    && (r.o.OpenAdded? ==> r.t.made && r.t.pc.NoReader? && v.sentToTunnel.frames == [])
    && (!r.t.made ==> r.t == BLANK.t)
    && (r.o.OpenDone? && r.t.made ==> !r.t.pc.NoReader? && (OpenOkSent(v) || (v.c.g.agentBroken && v.sentToTunnel.frames == [])))
    && (r.t.made ==> r.o.OpenAdded? || r.o.OpenDone?)
    && (r.o.OpenRejected? ==> r.o.text != "")
    // the frames it leads to: one OPEN_OK before all else, or one ERROR and nothing else
    && (v.sentToTunnel.frames != [] ==>
          OpenOkSent(v) || (v.sentToTunnel.frames[0].tag == ERROR && |v.sentToTunnel.frames| == 1 && Refused(r)))
    && (OpenOkSent(v) ==> r.t.made && r.o.OpenDone?)
    && AnswerOnly(v.sentToTunnel.frames, 1)
    && (v.sentToTunnel.frames == [] ==> v.toTunnel.frames == [] && v.c.rd.ReaderIdle?)
    && (!OpenOkSent(v) ==> ErrorOnly(v.toTunnel.frames))
    && AnswerOnly(v.toTunnel.frames, 1)
    && (!OpenOkInFlight(v) ==> AnswerOnly(v.toTunnel.frames, 0))
    && (OpenOkInFlight(v) ==> v.toTunnel == v.sentToTunnel && !r.p.isOpen && v.c.rd.ReaderIdle?)
    && (v.c.rd.ReaderFound? ==> Answer(v.c.rd.frame))
    && (v.c.rd.ReaderFound? && v.c.rd.frame.tag != ERROR ==> OpenOkSent(v))
    && (v.c.rd.ReaderFound? && (v.c.rd.frame.tag == DATA || v.c.rd.frame.tag == CLOSE) ==> r.p.isOpen)
    && (!v.c.rd.ReaderIdle? && !v.c.rd.ReaderFound? ==> r.p.isOpen)
    && (r.p.registered && OpenOkSent(v) && !OpenOkInFlight(v) ==> r.p.isOpen || v.c.rd.ReaderFound?)
    && (r.p.registered && v.c.rd.ReaderFound? && v.c.rd.frame.tag == ERROR && OpenOkSent(v) ==> r.p.isOpen)
  }

  /** OPEN reaches the agent with the payload the tunnel printed, and only an allowed endpoint is
      ever connected. */
  predicate Targeted(v: View) {
    var r := v.c.r;
    var payload := MakeOpenPayload(r.h.host, r.h.port);
    && (r.o.OpenStarted? ==> r.o.payload == payload)
    && (r.o.OpenConnected? ==> Allowed(payload, v.c.g.allow) && ParseOpenPayload(payload).value == Endpoint(r.o.host, r.o.port))
    && (r.t.made ==> Allowed(payload, v.c.g.allow) && ParseOpenPayload(payload).value == Endpoint(r.t.host, r.t.port))
  }

  /** Bytes from the target to the client. */
  predicate Downstream(v: View) {
    var t, p, rd := v.c.r.t, v.c.r.p, v.c.rd;
    var emitted := v.sentToTunnel.bytes;
    && emitted <= t.read
    && (!v.c.g.agentBroken ==> t.read == emitted + (if t.pc.Forwarding? then t.pc.data else ""))
    && p.toClient + HeldForClient(rd) <= emitted
    && (p.registered && !ReaderDropping(rd) ==>
          p.toClient + HeldForClient(rd) + v.toTunnel.bytes == emitted)
    && v.toTunnel.closes <= v.sentToTunnel.closes
    && (p.registered && !ReaderDropping(rd) && v.toTunnel.closes > 0 ==>
          p.toClient + HeldForClient(rd) + v.toTunnel.beforeClose == v.sentToTunnel.beforeClose)
    && (rd.ReaderFound? && rd.frame.tag == CLOSE ==>
          v.sentToTunnel.closes > 0 && p.toClient == v.sentToTunnel.beforeClose)
    && (p.closeTaken ==>
          v.sentToTunnel.closes > 0 && p.toClient == v.sentToTunnel.beforeClose
          && !rd.ReaderFound? && (p.registered ==> ReaderDropping(rd)))
    && (t.eofClose ==> t.pc.ReaderDone? && v.sentToTunnel.closes > 0 && t.read == v.sentToTunnel.beforeClose)
  }

  /** Bytes from the client to the target. */
  predicate Upstream(v: View) {
    var h, t, lp := v.c.r.h, v.c.r.t, v.c.lp;
    var sent := v.sentToAgent.bytes;
    && sent <= Offered(h)
    && (BeforeOpen(h.pc) || h.pc.Waiting? || h.pc.Replying? ==> h.relayed == "")
    && (|v.sentToAgent.frames| <= 1 ==> sent == "")
    && (h.pc.Replying? ==> sent == "" && h.isConnect)
    && (h.pc.Relaying? ==> sent == Offered(h))
    && ((h.pc.Sending? || h.pc.Checked?) && h.pc.site == InitialSite ==> sent == "" && h.relayed == "")
    && ((h.pc.Sending? || h.pc.Checked?) && h.pc.site == RelaySite ==> Offered(h) == sent + h.pc.frame.payload)
    && t.written + HeldForTarget(lp) <= sent
    && (t.made && t.inTable && !t.closed && !lp.LoopClosing? ==>
          t.written + HeldForTarget(lp) + v.toAgent.bytes == sent)
  }

  /** Nobody waits for a session that is gone. */
  predicate Awake(v: View) {
    var h, p := v.c.r.h, v.c.r.p;
    && (v.c.g.swept ==> !v.c.g.alive)
    && (Passed(h.pc) ==> p.registered || p.drainFlag || p.isOpen || p.closed)
    && (h.pc.Sending? && h.pc.site == OpenSite ==> p.registered || p.drainFlag || p.closed)
    && (Passed(h.pc) && v.c.g.swept ==> !p.registered)
    && (p.drainFlag || p.drainClient ==> v.c.g.swept)
    && (p.registered ==> !h.pc.Unborn? && !h.pc.Taken? && !h.pc.ClosingClient? && !h.pc.Returned?)
  }

  /** Each socket is closed once, and CLOSE is sent by the one thread that closed the target. */
  predicate ClosedOnce(v: View) {
    var p, t := v.c.r.p, v.c.r.t;
    && p.clientCloses == (if p.clientClosed then 1 else 0)
    && (v.c.r.h.pc.Returned? ==> p.clientClosed)
    && t.closes == (if t.closed then 1 else 0)
    && LoopWon(v.c.lp) + TargetWon(t.pc) + v.sentToTunnel.closes <= (if t.closed then 1 else 0)
  }

  /** What keeps a stream in the agent's table. */
  predicate Draining(v: View) {
    var h, p, t, lp := v.c.r.h, v.c.r.p, v.c.r.t, v.c.lp;
    && (v.c.g.alive && Leaving(h.pc) ==> v.sentToAgent.closes > 0 || h.wait.WaitTimeout? || h.wait.WaitError?)
    && (v.c.g.alive && h.wait.WaitError? ==> Refused(v.c.r))
    && (v.c.g.alive && (BeforeOpen(h.pc) || h.pc.Waiting?) && (p.error != "" || (p.closed && !p.isOpen)) ==> Refused(v.c.r))
    && (v.c.rd.ReaderFound? && v.c.rd.frame.tag == ERROR ==> Refused(v.c.r) || v.sentToAgent.bytes != "")
    && (v.toTunnel.errors > 0 ==> Refused(v.c.r) || v.sentToAgent.bytes != "")
    && (v.toAgent.bytes != "" || lp.LoopRefusing? ==> v.sentToAgent.bytes != "")
    && (BeforeOpen(h.pc) || h.pc.Waiting? || h.pc.Unborn? ==> h.wait.NotYet?)
    && (h.wait.WaitTimeout? || h.wait.WaitError? ==> Leaving(h.pc))
    && (t.inTable && !t.closed && v.sentToAgent.closes > 0 ==> v.toAgent.closes > 0 || lp.LoopClosing?)
    && (t.inTable && t.closed ==>
          lp == LoopClosing(v.c.id, Removing) || t.pc == TargetClosing(Removing))
    && (v.c.g.connected && t.made && !t.closed ==> t.inTable)
    && (t.draining ==> !t.inTable)
  }

  /** How a stream begins. */
  predicate Order(v: View) {
    && (v.c.r.h.pc.Unborn? ==> Blank(v))
    && Threads(v)
    && Handshake(v)
    && AgentHandshake(v)
    && Targeted(v)
  }

  /** How it ends. */
  predicate Ends(v: View) {
    Awake(v) && ClosedOnce(v) && Draining(v)
  }

  /** Everything but the bytes. */
  predicate Control(v: View) {
    Order(v) && Ends(v)
  }

  predicate Bytes(v: View) {
    Downstream(v) && Upstream(v)
  }

  predicate Good(v: View) {
    Control(v) && Bytes(v)
  }

  lemma RelayOnlyAppend(q: seq<Frame>, f: Frame, from: nat)
    ensures RelayOnly(q + [f], from)
            <==> RelayOnly(q, from) && (from <= |q| ==> (f.tag == DATA && f.payload != "") || f.tag == CLOSE)
  {
    var all := q + [f];
    assert forall i :: 0 <= i < |q| ==> all[i] == q[i];
    assert all[|q|] == f;
    if RelayOnly(all, from) {
      forall i | from <= i < |q| ensures (q[i].tag == DATA && q[i].payload != "") || q[i].tag == CLOSE {
        assert all[i] == q[i];
      }
    }
  }

  // ---- every step keeps it -------------------------------------------------------------------

  lemma BlankIsGood(v: View)
    requires Blank(v)
    requires v.c.g.swept ==> !v.c.g.alive
    ensures Good(v)
  {
  }

  lemma BornIsGood(v: View, v': View, isConnect: bool, initial: string, host: string, port: nat)
    requires Good(v) && v.c.r.h.pc.Unborn?
    requires v' == v.(c := v.c.(r := Born(isConnect, initial, host, port)))
    ensures Good(v')
  {
  }

  lemma WorseOrder(v: View, g': Globals)
    requires Good(v) && Worse(v.c.g, g')
    ensures Order(v.(c := v.c.(g := g')))
  {
    hide Awake, ClosedOnce, Draining, Downstream, Upstream;
  }

  lemma WorseEnds(v: View, g': Globals)
    requires Good(v) && Worse(v.c.g, g')
    ensures Ends(v.(c := v.c.(g := g')))
  {
    hide Threads, Handshake, AgentHandshake, Targeted, Downstream, Upstream;
  }

  lemma WorseBytes(v: View, g': Globals)
    requires Good(v) && Worse(v.c.g, g')
    ensures Bytes(v.(c := v.c.(g := g')))
  {
    hide Threads, Handshake, AgentHandshake, Targeted, Awake, ClosedOnce, Draining;
  }

  lemma WorseIsGood(v: View, g': Globals)
    requires Good(v) && Worse(v.c.g, g')
    ensures Good(v.(c := v.c.(g := g')))
  {
    hide Order, Ends, Bytes;
    WorseOrder(v, g');
    WorseEnds(v, g');
    WorseBytes(v, g');
  }

  lemma SweptOrder(v: View)
    requires Good(v) && !v.c.g.alive
    ensures Order(v.(c := v.c.(r := Swept(v.c.r), g := v.c.g.(swept := true))))
  {
    hide Awake, ClosedOnce, Draining, Downstream, Upstream;
  }

  lemma SweptEnds(v: View)
    requires Good(v) && !v.c.g.alive
    ensures Ends(v.(c := v.c.(r := Swept(v.c.r), g := v.c.g.(swept := true))))
  {
    hide Threads, Handshake, AgentHandshake, Targeted, Downstream, Upstream;
  }

  lemma SweptBytes(v: View)
    requires Good(v) && !v.c.g.alive
    ensures Bytes(v.(c := v.c.(r := Swept(v.c.r), g := v.c.g.(swept := true))))
  {
    hide Threads, Handshake, AgentHandshake, Targeted, Awake, ClosedOnce, Draining;
  }

  lemma SweptIsGood(v: View)
    requires Good(v) && !v.c.g.alive
    ensures Good(v.(c := v.c.(r := Swept(v.c.r), g := v.c.g.(swept := true))))
  {
    hide Order, Ends, Bytes;
    SweptOrder(v);
    SweptEnds(v);
    SweptBytes(v);
  }

  lemma AgentSweptIsGood(v: View)
    requires Good(v) && !v.c.g.connected
    ensures Good(v.(c := v.c.(r := AgentSwept(v.c.r))))
  {
  }

  lemma RegisterIsGood(v: View)
    requires Good(v) && v.c.r.h.pc.Taken?
    ensures Good(After(v, DoRegister(v.c)))
  {
  }

  lemma SendCheckOrder(v: View)
    requires Control(v) && v.c.r.h.pc.Sending?
    ensures Order(After(v, DoSendCheck(v.c)))
  {
    hide Awake, ClosedOnce, Draining, Downstream, Upstream;
  }

  lemma SendCheckEnds(v: View)
    requires Control(v) && v.c.r.h.pc.Sending?
    ensures Ends(After(v, DoSendCheck(v.c)))
  {
    hide Threads, Handshake, AgentHandshake, Targeted, Downstream, Upstream;
  }

  lemma SendCheckControl(v: View)
    requires Control(v) && v.c.r.h.pc.Sending?
    ensures Control(After(v, DoSendCheck(v.c)))
  {
    hide Order, Ends, Bytes;
    SendCheckOrder(v);
    SendCheckEnds(v);
  }

  lemma SendCheckDownstream(v: View)
    requires Downstream(v) && v.c.r.h.pc.Sending?
    ensures Downstream(After(v, DoSendCheck(v.c)))
  {
  }

  lemma SendCheckUpstream(v: View)
    requires Upstream(v) && v.c.r.h.pc.Sending?
    ensures Upstream(After(v, DoSendCheck(v.c)))
  {
  }

  lemma SendCheckIsGood(v: View)
    requires Good(v) && v.c.r.h.pc.Sending?
    ensures Good(After(v, DoSendCheck(v.c)))
  {
    hide Threads, Handshake, AgentHandshake, Targeted, Awake, ClosedOnce, Draining, Downstream, Upstream;
    SendCheckControl(v);
    SendCheckDownstream(v);
    SendCheckUpstream(v);
  }

  lemma SendOkThreads(v: View)
    requires Control(v) && v.c.r.h.pc.Checked?
    ensures Threads(After(v, DoSendOk(v.c))) && Targeted(After(v, DoSendOk(v.c)))
  {
    hide Handshake, AgentHandshake, Awake, ClosedOnce, Draining, Downstream, Upstream;
  }

  lemma SendOkHandshake(v: View)
    requires Control(v) && v.c.r.h.pc.Checked?
    ensures Handshake(After(v, DoSendOk(v.c)))
  {
    hide Targeted, Awake, ClosedOnce, Draining, Downstream, Upstream, RelayOnly, AnswerOnly, ErrorOnly;
    RelayOnlyAppend(v.sentToAgent.frames, v.c.r.h.pc.frame, 1);
    RelayOnlyAppend(v.toAgent.frames, v.c.r.h.pc.frame, 0);
  }

  lemma SendOkAgentHandshake(v: View)
    requires Control(v) && v.c.r.h.pc.Checked?
    ensures AgentHandshake(After(v, DoSendOk(v.c)))
  {
    hide Threads, Handshake, Targeted, Awake, ClosedOnce, Draining, Downstream, Upstream;
  }

  lemma SendOkOrder(v: View)
    requires Control(v) && v.c.r.h.pc.Checked?
    ensures Order(After(v, DoSendOk(v.c)))
  {
    hide Threads, Handshake, AgentHandshake, Targeted, Awake, ClosedOnce, Draining, Downstream, Upstream;
    SendOkThreads(v);
    SendOkHandshake(v);
    SendOkAgentHandshake(v);
  }

  lemma SendOkEnds(v: View)
    requires Control(v) && v.c.r.h.pc.Checked?
    ensures Ends(After(v, DoSendOk(v.c)))
  {
    hide AgentHandshake, Targeted, Downstream, Upstream;
  }

  lemma SendOkControl(v: View)
    requires Control(v) && v.c.r.h.pc.Checked?
    ensures Control(After(v, DoSendOk(v.c)))
  {
    hide Order, Ends, Bytes;
    SendOkOrder(v);
    SendOkEnds(v);
  }

  lemma SendOkDownstream(v: View)
    requires Downstream(v) && v.c.r.h.pc.Checked?
    ensures Downstream(After(v, DoSendOk(v.c)))
  {
  }

  /** A DATA frame on its way is what the sender still owes. */
  lemma SendOkDataUpstream(v: View)
    requires Threads(v) && Upstream(v) && v.c.r.h.pc.Checked?
    requires v.c.r.h.pc.site == InitialSite || v.c.r.h.pc.site == RelaySite
    requires v.sentToAgent.frames != []
    ensures Upstream(After(v, DoSendOk(v.c)))
  {
    hide Handshake, AgentHandshake, Targeted, Awake, ClosedOnce, Draining, Downstream;
    var h, data := v.c.r.h, Carried(v.c.r.h.pc.frame);
    Regroup(v.c.r.t.written + HeldForTarget(v.c.lp), v.toAgent.bytes, data);
    assert v.sentToAgent.bytes + data == Offered(h);
  }

  lemma SendOkOtherUpstream(v: View)
    requires Threads(v) && Handshake(v) && Upstream(v) && v.c.r.h.pc.Checked?
    requires v.c.r.h.pc.site == OpenSite || v.c.r.h.pc.site == CloseSite
    ensures Upstream(After(v, DoSendOk(v.c)))
  {
    hide AgentHandshake, Targeted, Awake, ClosedOnce, Draining, Downstream, RelayOnly;
    assert Carried(v.c.r.h.pc.frame) == "";
    assert v.toAgent.bytes + "" == v.toAgent.bytes && v.sentToAgent.bytes + "" == v.sentToAgent.bytes;
  }

  lemma Regroup(a: string, b: string, c: string)
    ensures a + (b + c) == a + b + c
  {
  }

  lemma SendOkUpstream(v: View)
    requires Threads(v) && Handshake(v) && Upstream(v) && v.c.r.h.pc.Checked?
    ensures Upstream(After(v, DoSendOk(v.c)))
  {
    assert PastOpen(v.c.r.h.pc) ==> v.sentToAgent.frames != [];
    hide Threads, Handshake, Upstream, After;
    if v.c.r.h.pc.site == InitialSite || v.c.r.h.pc.site == RelaySite {
      SendOkDataUpstream(v);
    } else {
      SendOkOtherUpstream(v);
    }
  }

  lemma SendOkIsGood(v: View)
    requires Good(v) && v.c.r.h.pc.Checked?
    ensures Good(After(v, DoSendOk(v.c)))
  {
    hide Threads, Handshake, AgentHandshake, Targeted, Awake, ClosedOnce, Draining, Downstream, Upstream;
    SendOkControl(v);
    SendOkDownstream(v);
    SendOkUpstream(v);
  }

  lemma SendFailOrder(v: View)
    requires Control(v) && v.c.r.h.pc.Checked?
    ensures Order(After(v, DoSendFail(v.c)))
  {
    hide Awake, ClosedOnce, Draining, Downstream, Upstream;
  }

  lemma SendFailEnds(v: View)
    requires Control(v) && v.c.r.h.pc.Checked?
    ensures Ends(After(v, DoSendFail(v.c)))
  {
    hide Threads, Handshake, AgentHandshake, Targeted, Downstream, Upstream;
  }

  lemma SendFailControl(v: View)
    requires Control(v) && v.c.r.h.pc.Checked?
    ensures Control(After(v, DoSendFail(v.c)))
  {
    hide Order, Ends, Bytes;
    SendFailOrder(v);
    SendFailEnds(v);
  }

  lemma SendFailDownstream(v: View)
    requires Downstream(v) && v.c.r.h.pc.Checked?
    ensures Downstream(After(v, DoSendFail(v.c)))
  {
  }

  lemma SendFailUpstream(v: View)
    requires Upstream(v) && v.c.r.h.pc.Checked?
    ensures Upstream(After(v, DoSendFail(v.c)))
  {
  }

  lemma SendFailIsGood(v: View)
    requires Good(v) && v.c.r.h.pc.Checked?
    ensures Good(After(v, DoSendFail(v.c)))
  {
    hide Threads, Handshake, AgentHandshake, Targeted, Awake, ClosedOnce, Draining, Downstream, Upstream;
    SendFailControl(v);
    SendFailDownstream(v);
    SendFailUpstream(v);
  }

  lemma WaitReturnOrder(v: View)
    requires Control(v) && v.c.r.h.pc.Waiting?
    ensures Order(After(v, DoWaitReturn(v.c)))
  {
    hide Awake, ClosedOnce, Draining, Downstream, Upstream;
  }

  lemma WaitReturnEnds(v: View)
    requires Control(v) && v.c.r.h.pc.Waiting?
    ensures Ends(After(v, DoWaitReturn(v.c)))
  {
    hide Threads, Handshake, AgentHandshake, Targeted, Downstream, Upstream;
  }

  lemma WaitReturnControl(v: View)
    requires Control(v) && v.c.r.h.pc.Waiting?
    ensures Control(After(v, DoWaitReturn(v.c)))
  {
    hide Order, Ends, Bytes;
    WaitReturnOrder(v);
    WaitReturnEnds(v);
  }

  lemma WaitReturnDownstream(v: View)
    requires Downstream(v) && v.c.r.h.pc.Waiting?
    ensures Downstream(After(v, DoWaitReturn(v.c)))
  {
  }

  lemma WaitReturnUpstream(v: View)
    requires Handshake(v) && Upstream(v) && v.c.r.h.pc.Waiting?
    ensures Upstream(After(v, DoWaitReturn(v.c)))
  {
  }

  lemma WaitReturnIsGood(v: View)
    requires Good(v) && v.c.r.h.pc.Waiting?
    ensures Good(After(v, DoWaitReturn(v.c)))
  {
    hide Threads, Handshake, AgentHandshake, Targeted, Awake, ClosedOnce, Draining, Downstream, Upstream;
    WaitReturnControl(v);
    WaitReturnDownstream(v);
    WaitReturnUpstream(v);
  }

  lemma ReplyControl(v: View, ok: bool)
    requires Control(v) && v.c.r.h.pc.Replying?
    ensures Control(After(v, DoReply(v.c, ok)))
  {
  }

  lemma ReplyDownstream(v: View, ok: bool)
    requires Downstream(v) && v.c.r.h.pc.Replying?
    ensures Downstream(After(v, DoReply(v.c, ok)))
  {
  }

  lemma ReplyUpstream(v: View, ok: bool)
    requires Upstream(v) && v.c.r.h.pc.Replying?
    ensures Upstream(After(v, DoReply(v.c, ok)))
  {
  }

  lemma ReplyIsGood(v: View, ok: bool)
    requires Good(v) && v.c.r.h.pc.Replying?
    ensures Good(After(v, DoReply(v.c, ok)))
  {
    hide Threads, Handshake, AgentHandshake, Targeted, Awake, ClosedOnce, Draining, Downstream, Upstream;
    ReplyControl(v, ok);
    ReplyDownstream(v, ok);
    ReplyUpstream(v, ok);
  }

  lemma ClientReadControl(v: View, bytes: string)
    requires Control(v) && v.c.r.h.pc.Relaying? && bytes != ""
    ensures Control(After(v, DoClientRead(v.c, bytes)))
  {
  }

  lemma ClientReadDownstream(v: View, bytes: string)
    requires Downstream(v) && v.c.r.h.pc.Relaying? && bytes != ""
    ensures Downstream(After(v, DoClientRead(v.c, bytes)))
  {
  }

  lemma ClientReadUpstream(v: View, bytes: string)
    requires Upstream(v) && v.c.r.h.pc.Relaying? && bytes != ""
    ensures Upstream(After(v, DoClientRead(v.c, bytes)))
  {
  }

  lemma ClientReadIsGood(v: View, bytes: string)
    requires Good(v) && v.c.r.h.pc.Relaying? && bytes != ""
    ensures Good(After(v, DoClientRead(v.c, bytes)))
  {
    hide Threads, Handshake, AgentHandshake, Targeted, Awake, ClosedOnce, Draining, Downstream, Upstream;
    ClientReadControl(v, bytes);
    ClientReadDownstream(v, bytes);
    ClientReadUpstream(v, bytes);
  }

  lemma ClientEofIsGood(v: View)
    requires Good(v) && v.c.r.h.pc.Relaying?
    ensures Good(After(v, DoClientEof(v.c)))
  {
  }

  lemma UnregisterOrder(v: View)
    requires Good(v) && v.c.r.h.pc.Unregistering?
    ensures Order(After(v, DoUnregister(v.c)))
  {
    hide Awake, ClosedOnce, Draining, Downstream, Upstream;
  }

  lemma UnregisterEnds(v: View)
    requires Good(v) && v.c.r.h.pc.Unregistering?
    ensures Ends(After(v, DoUnregister(v.c)))
  {
    hide Threads, Handshake, AgentHandshake, Targeted, Downstream, Upstream;
  }

  lemma UnregisterBytes(v: View)
    requires Good(v) && v.c.r.h.pc.Unregistering?
    ensures Bytes(After(v, DoUnregister(v.c)))
  {
    hide Threads, Handshake, AgentHandshake, Targeted, Awake, ClosedOnce, Draining;
  }

  lemma UnregisterIsGood(v: View)
    requires Good(v) && v.c.r.h.pc.Unregistering?
    ensures Good(After(v, DoUnregister(v.c)))
  {
    hide Order, Ends, Bytes;
    UnregisterOrder(v);
    UnregisterEnds(v);
    UnregisterBytes(v);
  }

  lemma CloseClientOrder(v: View)
    requires Control(v) && v.c.r.h.pc.ClosingClient?
    ensures Order(After(v, DoCloseClient(v.c)))
  {
    hide Awake, ClosedOnce, Draining, Downstream, Upstream;
  }

  lemma CloseClientEnds(v: View)
    requires Control(v) && v.c.r.h.pc.ClosingClient?
    ensures Ends(After(v, DoCloseClient(v.c)))
  {
    hide Threads, Handshake, AgentHandshake, Targeted, Downstream, Upstream;
  }

  lemma CloseClientControl(v: View)
    requires Control(v) && v.c.r.h.pc.ClosingClient?
    ensures Control(After(v, DoCloseClient(v.c)))
  {
    hide Order, Ends, Bytes;
    CloseClientOrder(v);
    CloseClientEnds(v);
  }

  lemma CloseClientDownstream(v: View)
    requires Downstream(v) && v.c.r.h.pc.ClosingClient?
    ensures Downstream(After(v, DoCloseClient(v.c)))
  {
  }

  lemma CloseClientUpstream(v: View)
    requires Upstream(v) && v.c.r.h.pc.ClosingClient?
    ensures Upstream(After(v, DoCloseClient(v.c)))
  {
  }

  lemma CloseClientIsGood(v: View)
    requires Good(v) && v.c.r.h.pc.ClosingClient?
    ensures Good(After(v, DoCloseClient(v.c)))
  {
    hide Threads, Handshake, AgentHandshake, Targeted, Awake, ClosedOnce, Draining, Downstream, Upstream;
    CloseClientControl(v);
    CloseClientDownstream(v);
    CloseClientUpstream(v);
  }

  lemma DrainFlagOrder(v: View, reason: string)
    requires Good(v) && v.c.r.p.drainFlag
    ensures Order(After(v, DoDrainFlag(v.c, reason)))
  {
    hide Awake, ClosedOnce, Draining, Downstream, Upstream;
  }

  lemma DrainFlagEnds(v: View, reason: string)
    requires Good(v) && v.c.r.p.drainFlag
    ensures Ends(After(v, DoDrainFlag(v.c, reason)))
  {
    hide Threads, Handshake, AgentHandshake, Targeted, Downstream, Upstream;
  }

  lemma DrainFlagBytes(v: View, reason: string)
    requires Good(v) && v.c.r.p.drainFlag
    ensures Bytes(After(v, DoDrainFlag(v.c, reason)))
  {
    hide Threads, Handshake, AgentHandshake, Targeted, Awake, ClosedOnce, Draining;
  }

  lemma DrainFlagIsGood(v: View, reason: string)
    requires Good(v) && v.c.r.p.drainFlag
    ensures Good(After(v, DoDrainFlag(v.c, reason)))
  {
    hide Order, Ends, Bytes;
    DrainFlagOrder(v, reason);
    DrainFlagEnds(v, reason);
    DrainFlagBytes(v, reason);
  }

  lemma DrainClientOrder(v: View)
    requires Good(v) && v.c.r.p.drainClient
    ensures Order(After(v, DoDrainClient(v.c)))
  {
    hide Awake, ClosedOnce, Draining, Downstream, Upstream;
  }

  lemma DrainClientEnds(v: View)
    requires Good(v) && v.c.r.p.drainClient
    ensures Ends(After(v, DoDrainClient(v.c)))
  {
    hide Threads, Handshake, AgentHandshake, Targeted, Downstream, Upstream;
  }

  lemma DrainClientBytes(v: View)
    requires Good(v) && v.c.r.p.drainClient
    ensures Bytes(After(v, DoDrainClient(v.c)))
  {
    hide Threads, Handshake, AgentHandshake, Targeted, Awake, ClosedOnce, Draining;
  }

  lemma DrainClientIsGood(v: View)
    requires Good(v) && v.c.r.p.drainClient
    ensures Good(After(v, DoDrainClient(v.c)))
  {
    hide Order, Ends, Bytes;
    DrainClientOrder(v);
    DrainClientEnds(v);
    DrainClientBytes(v);
  }

  lemma TakeOpenOkOrder(v: View)
    requires Good(v) && Found(v.c, OPEN_OK)
    ensures Order(After(v, DoTakeOpenOk(v.c)))
  {
    hide Awake, ClosedOnce, Draining, Downstream, Upstream;
  }

  lemma TakeOpenOkEnds(v: View)
    requires Good(v) && Found(v.c, OPEN_OK)
    ensures Ends(After(v, DoTakeOpenOk(v.c)))
  {
    hide Threads, Handshake, AgentHandshake, Targeted, Downstream, Upstream;
  }

  lemma TakeOpenOkBytes(v: View)
    requires Good(v) && Found(v.c, OPEN_OK)
    ensures Bytes(After(v, DoTakeOpenOk(v.c)))
  {
    hide Threads, Handshake, AgentHandshake, Targeted, Awake, ClosedOnce, Draining;
  }

  lemma TakeOpenOkIsGood(v: View)
    requires Good(v) && Found(v.c, OPEN_OK)
    ensures Good(After(v, DoTakeOpenOk(v.c)))
  {
    hide Order, Ends, Bytes;
    TakeOpenOkOrder(v);
    TakeOpenOkEnds(v);
    TakeOpenOkBytes(v);
  }

  lemma TakeErrorOrder(v: View)
    requires Good(v) && Found(v.c, ERROR)
    ensures Order(After(v, DoTakeError(v.c)))
  {
    hide Awake, ClosedOnce, Draining, Downstream, Upstream;
  }

  lemma TakeErrorEnds(v: View)
    requires Good(v) && Found(v.c, ERROR)
    ensures Ends(After(v, DoTakeError(v.c)))
  {
    hide Threads, Targeted, Downstream, Upstream;
  }

  lemma TakeErrorBytes(v: View)
    requires Good(v) && Found(v.c, ERROR)
    ensures Bytes(After(v, DoTakeError(v.c)))
  {
    hide Threads, Handshake, AgentHandshake, Targeted, Awake, ClosedOnce, Draining;
  }

  lemma TakeErrorIsGood(v: View)
    requires Good(v) && Found(v.c, ERROR)
    ensures Good(After(v, DoTakeError(v.c)))
  {
    hide Order, Ends, Bytes;
    TakeErrorOrder(v);
    TakeErrorEnds(v);
    TakeErrorBytes(v);
  }

  lemma ReaderClosesControl(v: View)
    requires Control(v) && (v.c.rd.ReaderErrorClosing? || v.c.rd.ReaderClosingClient?)
    ensures Control(After(v, DoReaderCloses(v.c)))
  {
  }

  lemma ReaderClosesDownstream(v: View)
    requires Downstream(v) && (v.c.rd.ReaderErrorClosing? || v.c.rd.ReaderClosingClient?)
    ensures Downstream(After(v, DoReaderCloses(v.c)))
  {
  }

  lemma ReaderClosesUpstream(v: View)
    requires Upstream(v) && (v.c.rd.ReaderErrorClosing? || v.c.rd.ReaderClosingClient?)
    ensures Upstream(After(v, DoReaderCloses(v.c)))
  {
  }

  lemma ReaderClosesIsGood(v: View)
    requires Good(v) && (v.c.rd.ReaderErrorClosing? || v.c.rd.ReaderClosingClient?)
    ensures Good(After(v, DoReaderCloses(v.c)))
  {
    hide Threads, Handshake, AgentHandshake, Targeted, Awake, ClosedOnce, Draining, Downstream, Upstream;
    ReaderClosesControl(v);
    ReaderClosesDownstream(v);
    ReaderClosesUpstream(v);
  }

  lemma TakeDataControl(v: View)
    requires Control(v) && Found(v.c, DATA)
    ensures Control(After(v, DoTakeData(v.c)))
  {
  }

  lemma TakeDataDownstream(v: View)
    requires Downstream(v) && Found(v.c, DATA)
    ensures Downstream(After(v, DoTakeData(v.c)))
  {
    var p := v.c.r.p;
    assert p.toClient + v.c.rd.frame.payload + "" == p.toClient + v.c.rd.frame.payload;
  }

  lemma TakeDataUpstream(v: View)
    requires Upstream(v) && Found(v.c, DATA)
    ensures Upstream(After(v, DoTakeData(v.c)))
  {
  }

  lemma TakeDataIsGood(v: View)
    requires Good(v) && Found(v.c, DATA)
    ensures Good(After(v, DoTakeData(v.c)))
  {
    hide Threads, Handshake, AgentHandshake, Targeted, Awake, ClosedOnce, Draining, Downstream, Upstream;
    TakeDataControl(v);
    TakeDataDownstream(v);
    TakeDataUpstream(v);
  }

  lemma TakeDataFailIsGood(v: View, k: nat)
    requires Good(v) && Found(v.c, DATA) && k <= |v.c.rd.frame.payload|
    ensures Good(After(v, DoTakeDataFail(v.c, k)))
  {
  }

  lemma ReaderSendCheckIsGood(v: View)
    requires Good(v) && v.c.rd.ReaderSending?
    ensures Good(After(v, DoReaderSendCheck(v.c)))
  {
  }

  lemma ReaderSendThreads(v: View, ok: bool)
    requires Control(v) && v.c.rd.ReaderChecked?
    ensures Threads(After(v, DoReaderSend(v.c, ok))) && Targeted(After(v, DoReaderSend(v.c, ok)))
  {
    hide Handshake, AgentHandshake, Awake, ClosedOnce, Draining, Downstream, Upstream;
  }

  lemma ReaderSendHandshake(v: View, ok: bool)
    requires Control(v) && v.c.rd.ReaderChecked?
    ensures Handshake(After(v, DoReaderSend(v.c, ok)))
  {
    hide Targeted, Awake, ClosedOnce, Draining, Downstream, Upstream, RelayOnly, AnswerOnly, ErrorOnly;
    RelayOnlyAppend(v.sentToAgent.frames, CloseFrame(v.c.id), 1);
    RelayOnlyAppend(v.toAgent.frames, CloseFrame(v.c.id), 0);
  }

  lemma ReaderSendAgentHandshake(v: View, ok: bool)
    requires Control(v) && v.c.rd.ReaderChecked?
    ensures AgentHandshake(After(v, DoReaderSend(v.c, ok)))
  {
    hide Threads, Handshake, Targeted, Awake, ClosedOnce, Draining, Downstream, Upstream;
  }

  lemma ReaderSendOrder(v: View, ok: bool)
    requires Control(v) && v.c.rd.ReaderChecked?
    ensures Order(After(v, DoReaderSend(v.c, ok)))
  {
    hide Threads, Handshake, AgentHandshake, Targeted, Awake, ClosedOnce, Draining, Downstream, Upstream;
    ReaderSendThreads(v, ok);
    ReaderSendHandshake(v, ok);
    ReaderSendAgentHandshake(v, ok);
  }

  lemma ReaderSendEnds(v: View, ok: bool)
    requires Control(v) && v.c.rd.ReaderChecked?
    ensures Ends(After(v, DoReaderSend(v.c, ok)))
  {
    hide Threads, Handshake, AgentHandshake, Targeted, Downstream, Upstream;
  }

  lemma ReaderSendControl(v: View, ok: bool)
    requires Control(v) && v.c.rd.ReaderChecked?
    ensures Control(After(v, DoReaderSend(v.c, ok)))
  {
    hide Order, Ends, Bytes;
    ReaderSendOrder(v, ok);
    ReaderSendEnds(v, ok);
  }

  lemma ReaderSendDownstream(v: View, ok: bool)
    requires Downstream(v) && v.c.rd.ReaderChecked?
    ensures Downstream(After(v, DoReaderSend(v.c, ok)))
  {
  }

  lemma ReaderSendUpstream(v: View, ok: bool)
    requires Upstream(v) && v.c.rd.ReaderChecked?
    ensures Upstream(After(v, DoReaderSend(v.c, ok)))
  {
  }

  lemma ReaderSendIsGood(v: View, ok: bool)
    requires Good(v) && v.c.rd.ReaderChecked?
    ensures Good(After(v, DoReaderSend(v.c, ok)))
  {
    hide Threads, Handshake, AgentHandshake, Targeted, Awake, ClosedOnce, Draining, Downstream, Upstream;
    ReaderSendControl(v, ok);
    ReaderSendDownstream(v, ok);
    ReaderSendUpstream(v, ok);
  }

  lemma TakeCloseIsGood(v: View)
    requires Good(v) && Found(v.c, CLOSE)
    ensures Good(After(v, DoTakeClose(v.c)))
  {
  }

  lemma ReaderUnregisterIsGood(v: View)
    requires Good(v) && v.c.rd.ReaderUnregistering?
    ensures Good(After(v, DoReaderUnregister(v.c)))
  {
  }

  lemma OpenRejectIsGood(v: View, error: string)
    requires Good(v) && v.c.r.o.OpenStarted?
    ensures Good(After(v, DoOpenReject(v.c, error)))
  {
  }

  lemma OpenConnectIsGood(v: View)
    requires Good(v) && v.c.r.o.OpenStarted? && Allowed(v.c.r.o.payload, v.c.g.allow)
    ensures Good(After(v, DoOpenConnect(v.c)))
  {
  }

  lemma OpenAddIsGood(v: View)
    requires Good(v) && v.c.r.o.OpenConnected?
    ensures Good(After(v, DoOpenAdd(v.c)))
  {
  }

  lemma OpenErrorSendIsGood(v: View, ok: bool)
    requires Good(v) && v.c.r.o.OpenRejected? && CanSend(ok, v.c.g.agentBroken)
    ensures Good(After(v, DoOpenErrorSend(v.c, ok)))
  {
  }

  lemma OpenOkSendOrder(v: View, ok: bool)
    requires Good(v) && v.c.r.o.OpenAdded? && CanSend(ok, v.c.g.agentBroken)
    ensures Order(After(v, DoOpenOkSend(v.c, ok)))
  {
    hide Awake, ClosedOnce, Draining, Downstream, Upstream;
  }

  lemma OpenOkSendEnds(v: View, ok: bool)
    requires Good(v) && v.c.r.o.OpenAdded? && CanSend(ok, v.c.g.agentBroken)
    ensures Ends(After(v, DoOpenOkSend(v.c, ok)))
  {
    hide Threads, Handshake, Targeted, Downstream, Upstream;
  }

  lemma OpenOkSendBytes(v: View, ok: bool)
    requires Good(v) && v.c.r.o.OpenAdded? && CanSend(ok, v.c.g.agentBroken)
    ensures Bytes(After(v, DoOpenOkSend(v.c, ok)))
  {
    hide Threads, Handshake, Targeted, Awake, ClosedOnce, Draining;
  }

  lemma OpenOkSendIsGood(v: View, ok: bool)
    requires Good(v) && v.c.r.o.OpenAdded? && CanSend(ok, v.c.g.agentBroken)
    ensures Good(After(v, DoOpenOkSend(v.c, ok)))
  {
    hide Order, Ends, Bytes;
    OpenOkSendOrder(v, ok);
    OpenOkSendEnds(v, ok);
    OpenOkSendBytes(v, ok);
  }

  lemma TargetCheckOrder(v: View)
    requires Good(v) && v.c.r.t.pc.Checking?
    ensures Order(After(v, DoTargetCheck(v.c)))
  {
    hide Awake, ClosedOnce, Draining, Downstream, Upstream;
  }

  lemma TargetCheckEnds(v: View)
    requires Good(v) && v.c.r.t.pc.Checking?
    ensures Ends(After(v, DoTargetCheck(v.c)))
  {
    hide Threads, Handshake, AgentHandshake, Targeted, Downstream, Upstream;
  }

  lemma TargetCheckBytes(v: View)
    requires Good(v) && v.c.r.t.pc.Checking?
    ensures Bytes(After(v, DoTargetCheck(v.c)))
  {
    hide Threads, Handshake, AgentHandshake, Targeted, Awake, ClosedOnce, Draining;
  }

  lemma TargetCheckIsGood(v: View)
    requires Good(v) && v.c.r.t.pc.Checking?
    ensures Good(After(v, DoTargetCheck(v.c)))
  {
    hide Order, Ends, Bytes;
    TargetCheckOrder(v);
    TargetCheckEnds(v);
    TargetCheckBytes(v);
  }

  lemma TargetReadControl(v: View, bytes: string)
    requires Control(v) && v.c.r.t.pc.Reading? && bytes != ""
    ensures Control(After(v, DoTargetRead(v.c, bytes)))
  {
  }

  lemma TargetReadDownstream(v: View, bytes: string)
    requires Downstream(v) && v.c.r.t.pc.Reading? && bytes != ""
    ensures Downstream(After(v, DoTargetRead(v.c, bytes)))
  {
  }

  lemma TargetReadUpstream(v: View, bytes: string)
    requires Upstream(v) && v.c.r.t.pc.Reading? && bytes != ""
    ensures Upstream(After(v, DoTargetRead(v.c, bytes)))
  {
  }

  lemma TargetReadIsGood(v: View, bytes: string)
    requires Good(v) && v.c.r.t.pc.Reading? && bytes != ""
    ensures Good(After(v, DoTargetRead(v.c, bytes)))
  {
    hide Threads, Handshake, AgentHandshake, Targeted, Awake, ClosedOnce, Draining, Downstream, Upstream;
    TargetReadControl(v, bytes);
    TargetReadDownstream(v, bytes);
    TargetReadUpstream(v, bytes);
  }

  lemma TargetEofOrder(v: View)
    requires Good(v) && v.c.r.t.pc.Reading?
    ensures Order(After(v, DoTargetEof(v.c)))
  {
    hide Awake, ClosedOnce, Draining, Downstream, Upstream;
  }

  lemma TargetEofEnds(v: View)
    requires Good(v) && v.c.r.t.pc.Reading?
    ensures Ends(After(v, DoTargetEof(v.c)))
  {
    hide Threads, Handshake, AgentHandshake, Targeted, Downstream, Upstream;
  }

  lemma TargetEofBytes(v: View)
    requires Good(v) && v.c.r.t.pc.Reading?
    ensures Bytes(After(v, DoTargetEof(v.c)))
  {
    hide Threads, Handshake, AgentHandshake, Targeted, Awake, ClosedOnce, Draining;
  }

  lemma TargetEofIsGood(v: View)
    requires Good(v) && v.c.r.t.pc.Reading?
    ensures Good(After(v, DoTargetEof(v.c)))
  {
    hide Order, Ends, Bytes;
    TargetEofOrder(v);
    TargetEofEnds(v);
    TargetEofBytes(v);
  }

  lemma TargetForwardThreads(v: View, ok: bool)
    requires Control(v) && v.c.r.t.pc.Forwarding? && CanSend(ok, v.c.g.agentBroken)
    ensures Threads(After(v, DoTargetForward(v.c, ok))) && Targeted(After(v, DoTargetForward(v.c, ok)))
  {
    hide Handshake, AgentHandshake, Awake, ClosedOnce, Draining, Downstream, Upstream;
  }

  lemma TargetForwardHandshake(v: View, ok: bool)
    requires Control(v) && v.c.r.t.pc.Forwarding? && CanSend(ok, v.c.g.agentBroken)
    ensures Handshake(After(v, DoTargetForward(v.c, ok)))
  {
    hide Threads, AgentHandshake, Targeted, Awake, ClosedOnce, Draining, Downstream, Upstream;
  }

  lemma TargetForwardAgentHandshake(v: View, ok: bool)
    requires Control(v) && v.c.r.t.pc.Forwarding? && CanSend(ok, v.c.g.agentBroken)
    ensures AgentHandshake(After(v, DoTargetForward(v.c, ok)))
  {
    hide Threads, Handshake, Targeted, Awake, ClosedOnce, Draining, Downstream, Upstream;
  }

  lemma TargetForwardOrder(v: View, ok: bool)
    requires Control(v) && v.c.r.t.pc.Forwarding? && CanSend(ok, v.c.g.agentBroken)
    ensures Order(After(v, DoTargetForward(v.c, ok)))
  {
    hide Threads, Handshake, AgentHandshake, Targeted, Awake, ClosedOnce, Draining, Downstream, Upstream;
    TargetForwardThreads(v, ok);
    TargetForwardHandshake(v, ok);
    TargetForwardAgentHandshake(v, ok);
  }

  lemma TargetForwardEnds(v: View, ok: bool)
    requires Control(v) && v.c.r.t.pc.Forwarding? && CanSend(ok, v.c.g.agentBroken)
    ensures Ends(After(v, DoTargetForward(v.c, ok)))
  {
    hide Threads, Handshake, AgentHandshake, Targeted, Downstream, Upstream;
  }

  lemma TargetForwardControl(v: View, ok: bool)
    requires Control(v) && v.c.r.t.pc.Forwarding? && CanSend(ok, v.c.g.agentBroken)
    ensures Control(After(v, DoTargetForward(v.c, ok)))
  {
    hide Order, Ends, Bytes;
    TargetForwardOrder(v, ok);
    TargetForwardEnds(v, ok);
  }

  lemma TargetForwardDownstream(v: View, ok: bool)
    requires Downstream(v) && v.c.r.t.pc.Forwarding? && CanSend(ok, v.c.g.agentBroken)
    ensures Downstream(After(v, DoTargetForward(v.c, ok)))
  {
    var p, t := v.c.r.p, v.c.r.t;
    var held := HeldForClient(v.c.rd);
    if ok {
      assert p.toClient + held + (v.toTunnel.bytes + t.pc.data) == p.toClient + held + v.toTunnel.bytes + t.pc.data;
    }
  }

  lemma TargetForwardUpstream(v: View, ok: bool)
    requires Upstream(v) && v.c.r.t.pc.Forwarding? && CanSend(ok, v.c.g.agentBroken)
    ensures Upstream(After(v, DoTargetForward(v.c, ok)))
  {
  }

  lemma TargetForwardIsGood(v: View, ok: bool)
    requires Good(v) && v.c.r.t.pc.Forwarding? && CanSend(ok, v.c.g.agentBroken)
    ensures Good(After(v, DoTargetForward(v.c, ok)))
  {
    hide Threads, Handshake, AgentHandshake, Targeted, Awake, ClosedOnce, Draining, Downstream, Upstream;
    TargetForwardControl(v, ok);
    TargetForwardDownstream(v, ok);
    TargetForwardUpstream(v, ok);
  }

  lemma TargetFindOrder(v: View)
    requires Good(v) && v.c.r.t.pc == TargetClosing(Finding)
    ensures Order(After(v, DoTargetFind(v.c)))
  {
    hide Awake, ClosedOnce, Draining, Downstream, Upstream;
  }

  lemma TargetFindEnds(v: View)
    requires Good(v) && v.c.r.t.pc == TargetClosing(Finding)
    ensures Ends(After(v, DoTargetFind(v.c)))
  {
    hide Threads, Handshake, AgentHandshake, Targeted, Downstream, Upstream;
  }

  lemma TargetFindBytes(v: View)
    requires Good(v) && v.c.r.t.pc == TargetClosing(Finding)
    ensures Bytes(After(v, DoTargetFind(v.c)))
  {
    hide Threads, Handshake, AgentHandshake, Targeted, Awake, ClosedOnce, Draining;
  }

  lemma TargetFindIsGood(v: View)
    requires Good(v) && v.c.r.t.pc == TargetClosing(Finding)
    ensures Good(After(v, DoTargetFind(v.c)))
  {
    hide Order, Ends, Bytes;
    TargetFindOrder(v);
    TargetFindEnds(v);
    TargetFindBytes(v);
  }

  lemma TargetExchangeOrder(v: View)
    requires Good(v) && v.c.r.t.pc == TargetClosing(Exchanging)
    ensures Order(After(v, DoTargetExchange(v.c)))
  {
    hide Awake, ClosedOnce, Draining, Downstream, Upstream;
  }

  lemma TargetExchangeEnds(v: View)
    requires Good(v) && v.c.r.t.pc == TargetClosing(Exchanging)
    ensures Ends(After(v, DoTargetExchange(v.c)))
  {
    hide Threads, Handshake, AgentHandshake, Targeted, Downstream, Upstream;
  }

  lemma TargetExchangeBytes(v: View)
    requires Good(v) && v.c.r.t.pc == TargetClosing(Exchanging)
    ensures Bytes(After(v, DoTargetExchange(v.c)))
  {
    hide Threads, Handshake, AgentHandshake, Targeted, Awake, ClosedOnce, Draining;
  }

  lemma TargetExchangeIsGood(v: View)
    requires Good(v) && v.c.r.t.pc == TargetClosing(Exchanging)
    ensures Good(After(v, DoTargetExchange(v.c)))
  {
    hide Order, Ends, Bytes;
    TargetExchangeOrder(v);
    TargetExchangeEnds(v);
    TargetExchangeBytes(v);
  }

  lemma TargetRemoveIsGood(v: View)
    requires Good(v) && v.c.r.t.pc == TargetClosing(Removing)
    ensures Good(After(v, DoTargetRemove(v.c)))
  {
  }

  lemma TargetNotifyThreads(v: View, ok: bool)
    requires Control(v) && v.c.r.t.pc == TargetClosing(Notifying) && CanSend(ok, v.c.g.agentBroken)
    ensures Threads(After(v, DoTargetNotify(v.c, ok))) && Targeted(After(v, DoTargetNotify(v.c, ok)))
  {
    hide Handshake, AgentHandshake, Awake, ClosedOnce, Draining, Downstream, Upstream;
  }

  lemma TargetNotifyHandshake(v: View, ok: bool)
    requires Control(v) && v.c.r.t.pc == TargetClosing(Notifying) && CanSend(ok, v.c.g.agentBroken)
    ensures Handshake(After(v, DoTargetNotify(v.c, ok)))
  {
    hide Threads, AgentHandshake, Targeted, Awake, ClosedOnce, Draining, Downstream, Upstream;
  }

  lemma TargetNotifyAgentHandshake(v: View, ok: bool)
    requires Control(v) && v.c.r.t.pc == TargetClosing(Notifying) && CanSend(ok, v.c.g.agentBroken)
    ensures AgentHandshake(After(v, DoTargetNotify(v.c, ok)))
  {
    hide Threads, Handshake, Targeted, Awake, ClosedOnce, Draining, Downstream, Upstream;
  }

  lemma TargetNotifyOrder(v: View, ok: bool)
    requires Control(v) && v.c.r.t.pc == TargetClosing(Notifying) && CanSend(ok, v.c.g.agentBroken)
    ensures Order(After(v, DoTargetNotify(v.c, ok)))
  {
    hide Threads, Handshake, AgentHandshake, Targeted, Awake, ClosedOnce, Draining, Downstream, Upstream;
    TargetNotifyThreads(v, ok);
    TargetNotifyHandshake(v, ok);
    TargetNotifyAgentHandshake(v, ok);
  }

  lemma TargetNotifyEnds(v: View, ok: bool)
    requires Control(v) && v.c.r.t.pc == TargetClosing(Notifying) && CanSend(ok, v.c.g.agentBroken)
    ensures Ends(After(v, DoTargetNotify(v.c, ok)))
  {
    hide Threads, Handshake, AgentHandshake, Targeted, Downstream, Upstream;
  }

  lemma TargetNotifyControl(v: View, ok: bool)
    requires Control(v) && v.c.r.t.pc == TargetClosing(Notifying) && CanSend(ok, v.c.g.agentBroken)
    ensures Control(After(v, DoTargetNotify(v.c, ok)))
  {
    hide Order, Ends, Bytes;
    TargetNotifyOrder(v, ok);
    TargetNotifyEnds(v, ok);
  }

  lemma TargetNotifyDownstream(v: View, ok: bool)
    requires ClosedOnce(v) && Downstream(v) && v.c.r.t.pc == TargetClosing(Notifying) && CanSend(ok, v.c.g.agentBroken)
    ensures Downstream(After(v, DoTargetNotify(v.c, ok)))
  {
  }

  lemma TargetNotifyUpstream(v: View, ok: bool)
    requires Upstream(v) && v.c.r.t.pc == TargetClosing(Notifying) && CanSend(ok, v.c.g.agentBroken)
    ensures Upstream(After(v, DoTargetNotify(v.c, ok)))
  {
  }

  lemma TargetNotifyIsGood(v: View, ok: bool)
    requires Good(v) && v.c.r.t.pc == TargetClosing(Notifying) && CanSend(ok, v.c.g.agentBroken)
    ensures Good(After(v, DoTargetNotify(v.c, ok)))
  {
    hide Threads, Handshake, AgentHandshake, Targeted, Awake, ClosedOnce, Draining, Downstream, Upstream;
    TargetNotifyControl(v, ok);
    TargetNotifyDownstream(v, ok);
    TargetNotifyUpstream(v, ok);
  }

  lemma LoopWriteControl(v: View)
    requires Control(v) && v.c.lp.LoopWriting?
    ensures Control(After(v, DoLoopWrite(v.c)))
  {
  }

  lemma LoopWriteDownstream(v: View)
    requires Downstream(v) && v.c.lp.LoopWriting?
    ensures Downstream(After(v, DoLoopWrite(v.c)))
  {
  }

  lemma LoopWriteUpstream(v: View)
    requires Upstream(v) && v.c.lp.LoopWriting?
    ensures Upstream(After(v, DoLoopWrite(v.c)))
  {
  }

  lemma LoopWriteIsGood(v: View)
    requires Good(v) && v.c.lp.LoopWriting?
    ensures Good(After(v, DoLoopWrite(v.c)))
  {
    hide Threads, Handshake, AgentHandshake, Targeted, Awake, ClosedOnce, Draining, Downstream, Upstream;
    LoopWriteControl(v);
    LoopWriteDownstream(v);
    LoopWriteUpstream(v);
  }

  lemma LoopWriteFailControl(v: View, k: nat)
    requires Control(v) && v.c.lp.LoopWriting? && k <= |v.c.lp.frame.payload|
    ensures Control(After(v, DoLoopWriteFail(v.c, k)))
  {
  }

  lemma LoopWriteFailDownstream(v: View, k: nat)
    requires Downstream(v) && v.c.lp.LoopWriting? && k <= |v.c.lp.frame.payload|
    ensures Downstream(After(v, DoLoopWriteFail(v.c, k)))
  {
  }

  lemma LoopWriteFailUpstream(v: View, k: nat)
    requires Upstream(v) && v.c.lp.LoopWriting? && k <= |v.c.lp.frame.payload|
    ensures Upstream(After(v, DoLoopWriteFail(v.c, k)))
  {
  }

  lemma LoopWriteFailIsGood(v: View, k: nat)
    requires Good(v) && v.c.lp.LoopWriting? && k <= |v.c.lp.frame.payload|
    ensures Good(After(v, DoLoopWriteFail(v.c, k)))
  {
    hide Threads, Handshake, AgentHandshake, Targeted, Awake, ClosedOnce, Draining, Downstream, Upstream;
    LoopWriteFailControl(v, k);
    LoopWriteFailDownstream(v, k);
    LoopWriteFailUpstream(v, k);
  }

  lemma LoopRefuseControl(v: View, ok: bool)
    requires Control(v) && v.c.lp.LoopRefusing? && CanSend(ok, v.c.g.agentBroken)
    ensures Control(After(v, DoLoopRefuse(v.c, ok)))
  {
  }

  lemma LoopRefuseDownstream(v: View, ok: bool)
    requires Downstream(v) && v.c.lp.LoopRefusing? && CanSend(ok, v.c.g.agentBroken)
    ensures Downstream(After(v, DoLoopRefuse(v.c, ok)))
  {
  }

  lemma LoopRefuseUpstream(v: View, ok: bool)
    requires Upstream(v) && v.c.lp.LoopRefusing? && CanSend(ok, v.c.g.agentBroken)
    ensures Upstream(After(v, DoLoopRefuse(v.c, ok)))
  {
  }

  lemma LoopRefuseIsGood(v: View, ok: bool)
    requires Good(v) && v.c.lp.LoopRefusing? && CanSend(ok, v.c.g.agentBroken)
    ensures Good(After(v, DoLoopRefuse(v.c, ok)))
  {
    hide Threads, Handshake, AgentHandshake, Targeted, Awake, ClosedOnce, Draining, Downstream, Upstream;
    LoopRefuseControl(v, ok);
    LoopRefuseDownstream(v, ok);
    LoopRefuseUpstream(v, ok);
  }

  lemma LoopFindOrder(v: View)
    requires Good(v) && LoopAt(v.c, Finding)
    ensures Order(After(v, DoLoopFind(v.c)))
  {
    hide Awake, ClosedOnce, Draining, Downstream, Upstream;
  }

  lemma LoopFindEnds(v: View)
    requires Good(v) && LoopAt(v.c, Finding)
    ensures Ends(After(v, DoLoopFind(v.c)))
  {
    hide Threads, Handshake, AgentHandshake, Targeted, Downstream, Upstream;
  }

  lemma LoopFindBytes(v: View)
    requires Good(v) && LoopAt(v.c, Finding)
    ensures Bytes(After(v, DoLoopFind(v.c)))
  {
    hide Threads, Handshake, AgentHandshake, Targeted, Awake, ClosedOnce, Draining;
  }

  lemma LoopFindIsGood(v: View)
    requires Good(v) && LoopAt(v.c, Finding)
    ensures Good(After(v, DoLoopFind(v.c)))
  {
    hide Order, Ends, Bytes;
    LoopFindOrder(v);
    LoopFindEnds(v);
    LoopFindBytes(v);
  }

  lemma LoopExchangeOrder(v: View)
    requires Good(v) && LoopAt(v.c, Exchanging)
    ensures Order(After(v, DoLoopExchange(v.c)))
  {
    hide Awake, ClosedOnce, Draining, Downstream, Upstream;
  }

  lemma LoopExchangeEnds(v: View)
    requires Good(v) && LoopAt(v.c, Exchanging)
    ensures Ends(After(v, DoLoopExchange(v.c)))
  {
    hide Threads, Handshake, AgentHandshake, Targeted, Downstream, Upstream;
  }

  lemma LoopExchangeBytes(v: View)
    requires Good(v) && LoopAt(v.c, Exchanging)
    ensures Bytes(After(v, DoLoopExchange(v.c)))
  {
    hide Threads, Handshake, AgentHandshake, Targeted, Awake, ClosedOnce, Draining;
  }

  lemma LoopExchangeIsGood(v: View)
    requires Good(v) && LoopAt(v.c, Exchanging)
    ensures Good(After(v, DoLoopExchange(v.c)))
  {
    hide Order, Ends, Bytes;
    LoopExchangeOrder(v);
    LoopExchangeEnds(v);
    LoopExchangeBytes(v);
  }

  lemma LoopRemoveIsGood(v: View)
    requires Good(v) && LoopAt(v.c, Removing)
    ensures Good(After(v, DoLoopRemove(v.c)))
  {
  }

  lemma LoopNotifyThreads(v: View, ok: bool)
    requires Control(v) && LoopAt(v.c, Notifying) && CanSend(ok, v.c.g.agentBroken)
    ensures Threads(After(v, DoLoopNotify(v.c, ok))) && Targeted(After(v, DoLoopNotify(v.c, ok)))
  {
    hide Handshake, AgentHandshake, Awake, ClosedOnce, Draining, Downstream, Upstream;
  }

  lemma LoopNotifyHandshake(v: View, ok: bool)
    requires Control(v) && LoopAt(v.c, Notifying) && CanSend(ok, v.c.g.agentBroken)
    ensures Handshake(After(v, DoLoopNotify(v.c, ok)))
  {
    hide Threads, AgentHandshake, Targeted, Awake, ClosedOnce, Draining, Downstream, Upstream;
  }

  lemma LoopNotifyAgentHandshake(v: View, ok: bool)
    requires Control(v) && LoopAt(v.c, Notifying) && CanSend(ok, v.c.g.agentBroken)
    ensures AgentHandshake(After(v, DoLoopNotify(v.c, ok)))
  {
    hide Threads, Targeted, Awake, ClosedOnce, Draining, Downstream, Upstream;
  }

  lemma LoopNotifyOrder(v: View, ok: bool)
    requires Control(v) && LoopAt(v.c, Notifying) && CanSend(ok, v.c.g.agentBroken)
    ensures Order(After(v, DoLoopNotify(v.c, ok)))
  {
    hide Threads, Handshake, AgentHandshake, Targeted, Awake, ClosedOnce, Draining, Downstream, Upstream;
    LoopNotifyThreads(v, ok);
    LoopNotifyHandshake(v, ok);
    LoopNotifyAgentHandshake(v, ok);
  }

  lemma LoopNotifyEnds(v: View, ok: bool)
    requires Control(v) && LoopAt(v.c, Notifying) && CanSend(ok, v.c.g.agentBroken)
    ensures Ends(After(v, DoLoopNotify(v.c, ok)))
  {
    hide Threads, Handshake, AgentHandshake, Targeted, Downstream, Upstream;
  }

  lemma LoopNotifyControl(v: View, ok: bool)
    requires Control(v) && LoopAt(v.c, Notifying) && CanSend(ok, v.c.g.agentBroken)
    ensures Control(After(v, DoLoopNotify(v.c, ok)))
  {
    hide Order, Ends, Bytes;
    LoopNotifyOrder(v, ok);
    LoopNotifyEnds(v, ok);
  }

  lemma LoopNotifyDownstream(v: View, ok: bool)
    requires ClosedOnce(v) && Downstream(v) && LoopAt(v.c, Notifying) && CanSend(ok, v.c.g.agentBroken)
    ensures Downstream(After(v, DoLoopNotify(v.c, ok)))
  {
  }

  lemma LoopNotifyUpstream(v: View, ok: bool)
    requires ClosedOnce(v) && Upstream(v) && LoopAt(v.c, Notifying) && CanSend(ok, v.c.g.agentBroken)
    ensures Upstream(After(v, DoLoopNotify(v.c, ok)))
  {
  }

  lemma LoopNotifyIsGood(v: View, ok: bool)
    requires Good(v) && LoopAt(v.c, Notifying) && CanSend(ok, v.c.g.agentBroken)
    ensures Good(After(v, DoLoopNotify(v.c, ok)))
  {
    hide Threads, Handshake, AgentHandshake, Targeted, Awake, ClosedOnce, Draining, Downstream, Upstream;
    LoopNotifyControl(v, ok);
    LoopNotifyDownstream(v, ok);
    LoopNotifyUpstream(v, ok);
  }

  lemma AgentDrainOrder(v: View)
    requires Good(v) && v.c.r.t.draining
    ensures Order(After(v, DoAgentDrain(v.c)))
  {
    hide Awake, ClosedOnce, Draining, Downstream, Upstream;
  }

  lemma AgentDrainEnds(v: View)
    requires Good(v) && v.c.r.t.draining
    ensures Ends(After(v, DoAgentDrain(v.c)))
  {
    hide Threads, Handshake, AgentHandshake, Targeted, Downstream, Upstream;
  }

  lemma AgentDrainBytes(v: View)
    requires Good(v) && v.c.r.t.draining
    ensures Bytes(After(v, DoAgentDrain(v.c)))
  {
    hide Threads, Handshake, AgentHandshake, Targeted, Awake, ClosedOnce, Draining;
  }

  lemma AgentDrainIsGood(v: View)
    requires Good(v) && v.c.r.t.draining
    ensures Good(After(v, DoAgentDrain(v.c)))
  {
    hide Order, Ends, Bytes;
    AgentDrainOrder(v);
    AgentDrainEnds(v);
    AgentDrainBytes(v);
  }

  lemma TunnelReceivesControl(v: View, rest: Line)
    requires Control(v) && Downstream(v) && v.toTunnel.frames != [] && v.c.rd.ReaderIdle?
    requires v.toTunnel.frames[0].id == v.c.id && Behind(v.toTunnel, rest)
    ensures Control(TunnelReceives(v, rest))
  {
  }

  lemma TunnelReceivesDownstream(v: View, rest: Line)
    requires ClosedOnce(v) && Downstream(v) && v.toTunnel.frames != [] && v.c.rd.ReaderIdle?
    requires v.toTunnel.frames[0].id == v.c.id && Behind(v.toTunnel, rest)
    ensures Downstream(TunnelReceives(v, rest))
  {
    var p, f := v.c.r.p, v.toTunnel.frames[0];
    assert HeldForClient(v.c.rd) == "";
    assert p.toClient + "" + (Carried(f) + rest.bytes) == p.toClient + Carried(f) + rest.bytes;
    assert p.toClient + "" + (Carried(f) + rest.beforeClose) == p.toClient + Carried(f) + rest.beforeClose;
  }

  lemma TunnelReceivesUpstream(v: View, rest: Line)
    requires Good(v) && v.toTunnel.frames != [] && v.c.rd.ReaderIdle?
    requires v.toTunnel.frames[0].id == v.c.id && Behind(v.toTunnel, rest)
    ensures Upstream(TunnelReceives(v, rest))
  {
  }

  lemma AgentReceivesThreads(v: View, rest: Line)
    requires Control(v) && v.toAgent.frames != [] && v.c.lp.LoopIdle?
    requires v.toAgent.frames[0].id == v.c.id && Behind(v.toAgent, rest)
    ensures Threads(AgentReceives(v, rest)) && Targeted(AgentReceives(v, rest))
  {
    hide AgentHandshake, Awake, ClosedOnce, Draining, Downstream, Upstream;
  }

  lemma AgentReceivesHandshake(v: View, rest: Line)
    requires Control(v) && v.toAgent.frames != [] && v.c.lp.LoopIdle?
    requires v.toAgent.frames[0].id == v.c.id && Behind(v.toAgent, rest)
    ensures Handshake(AgentReceives(v, rest))
  {
    hide Threads, AgentHandshake, Targeted, Awake, ClosedOnce, Draining, Downstream, Upstream;
  }

  lemma AgentReceivesAgentHandshake(v: View, rest: Line)
    requires Control(v) && v.toAgent.frames != [] && v.c.lp.LoopIdle?
    requires v.toAgent.frames[0].id == v.c.id && Behind(v.toAgent, rest)
    ensures AgentHandshake(AgentReceives(v, rest))
  {
    hide Threads, Targeted, Awake, ClosedOnce, Draining, Downstream, Upstream;
  }

  lemma AgentReceivesOrder(v: View, rest: Line)
    requires Control(v) && v.toAgent.frames != [] && v.c.lp.LoopIdle?
    requires v.toAgent.frames[0].id == v.c.id && Behind(v.toAgent, rest)
    ensures Order(AgentReceives(v, rest))
  {
    hide Threads, Handshake, AgentHandshake, Targeted, Awake, ClosedOnce, Draining, Downstream, Upstream;
    AgentReceivesThreads(v, rest);
    AgentReceivesHandshake(v, rest);
    AgentReceivesAgentHandshake(v, rest);
  }

  lemma AgentReceivesEnds(v: View, rest: Line)
    requires Control(v) && v.toAgent.frames != [] && v.c.lp.LoopIdle?
    requires v.toAgent.frames[0].id == v.c.id && Behind(v.toAgent, rest)
    ensures Ends(AgentReceives(v, rest))
  {
    hide Threads, AgentHandshake, Targeted, Downstream, Upstream;
  }

  lemma AgentReceivesControl(v: View, rest: Line)
    requires Control(v) && v.toAgent.frames != [] && v.c.lp.LoopIdle?
    requires v.toAgent.frames[0].id == v.c.id && Behind(v.toAgent, rest)
    ensures Control(AgentReceives(v, rest))
  {
    hide Order, Ends, Bytes;
    AgentReceivesOrder(v, rest);
    AgentReceivesEnds(v, rest);
  }

  lemma AgentReceivesDownstream(v: View, rest: Line)
    requires Good(v) && v.toAgent.frames != [] && v.c.lp.LoopIdle?
    requires v.toAgent.frames[0].id == v.c.id && Behind(v.toAgent, rest)
    ensures Downstream(AgentReceives(v, rest))
  {
  }

  lemma AgentReceivesUpstream(v: View, rest: Line)
    requires Good(v) && v.toAgent.frames != [] && v.c.lp.LoopIdle?
    requires v.toAgent.frames[0].id == v.c.id && Behind(v.toAgent, rest)
    ensures Upstream(AgentReceives(v, rest))
  {
    hide Threads, Awake, ClosedOnce, Draining, Downstream, Targeted, RelayOnly, AnswerOnly, ErrorOnly;
    Regroup(v.c.r.t.written, Carried(v.toAgent.frames[0]), rest.bytes);
    assert v.c.r.t.written + "" == v.c.r.t.written;
  }

  lemma TunnelReceivesIsGood(v: View, rest: Line)
    requires Good(v) && v.toTunnel.frames != [] && v.c.rd.ReaderIdle?
    requires v.toTunnel.frames[0].id == v.c.id && Behind(v.toTunnel, rest)
    ensures Good(TunnelReceives(v, rest))
  {
    hide Threads, Handshake, AgentHandshake, Targeted, Awake, ClosedOnce, Draining, Downstream, Upstream;
    TunnelReceivesControl(v, rest);
    TunnelReceivesDownstream(v, rest);
    TunnelReceivesUpstream(v, rest);
  }

  lemma AgentReceivesIsGood(v: View, rest: Line)
    requires Good(v) && v.toAgent.frames != [] && v.c.lp.LoopIdle?
    requires v.toAgent.frames[0].id == v.c.id && Behind(v.toAgent, rest)
    ensures Good(AgentReceives(v, rest))
  {
    hide Threads, Handshake, AgentHandshake, Targeted, Awake, ClosedOnce, Draining, Downstream, Upstream;
    AgentReceivesControl(v, rest);
    AgentReceivesDownstream(v, rest);
    AgentReceivesUpstream(v, rest);
  }

  lemma HandlerActIsGood(a: Act, v: View)
    requires Good(v) && HandlerAct(a) && HandlerCan(a, v.c)
    ensures Good(After(v, HandlerDo(a, v.c)))
  {
    hide Good, After, DoRegister, DoSendCheck, DoSendOk, DoSendFail, DoWaitReturn, DoReply, DoClientRead, DoClientEof,
      DoUnregister, DoCloseClient, DoDrainFlag, DoDrainClient;
    match a
    case Register => RegisterIsGood(v);
    case SendCheck => SendCheckIsGood(v);
    case SendOk => SendOkIsGood(v);
    case SendFail => SendFailIsGood(v);
    case WaitReturn => WaitReturnIsGood(v);
    case Reply(ok) => ReplyIsGood(v, ok);
    case ClientRead(bytes) => ClientReadIsGood(v, bytes);
    case ClientEof => ClientEofIsGood(v);
    case Unregister => UnregisterIsGood(v);
    case CloseClient => CloseClientIsGood(v);
    case DrainFlag(reason) => DrainFlagIsGood(v, reason);
    case DrainClient => DrainClientIsGood(v);
  }

  lemma ReaderActIsGood(a: Act, v: View)
    requires Good(v) && ReaderAct(a) && ReaderCan(a, v.c)
    ensures Good(After(v, ReaderDo(a, v.c)))
  {
    hide Good, After, DoTakeOpenOk, DoTakeError, DoReaderCloses, DoTakeData, DoTakeDataFail, DoReaderSendCheck,
      DoReaderSend, DoTakeClose, DoReaderUnregister;
    match a
    case TakeOpenOk => TakeOpenOkIsGood(v);
    case TakeError => TakeErrorIsGood(v);
    case ErrorCloseClient => ReaderClosesIsGood(v);
    case TakeData => TakeDataIsGood(v);
    case TakeDataFail(k) => TakeDataFailIsGood(v, k);
    case ReaderSendCheck => ReaderSendCheckIsGood(v);
    case ReaderSend(ok) => ReaderSendIsGood(v, ok);
    case TakeClose => TakeCloseIsGood(v);
    case ReaderUnregister => ReaderUnregisterIsGood(v);
    case ReaderCloseClient => ReaderClosesIsGood(v);
  }

  predicate OpenAct(a: Act) {
    a.OpenReject? || a.OpenConnect? || a.OpenAdd? || a.OpenErrorSend? || a.OpenOkSend?
  }

  lemma OpenActIsGood(a: Act, v: View)
    requires Good(v) && OpenAct(a) && TargetCan(a, v.c)
    ensures Good(After(v, TargetDo(a, v.c)))
  {
    hide Good, After, DoOpenReject, DoOpenConnect, DoOpenAdd, DoOpenErrorSend, DoOpenOkSend;
    match a
    case OpenReject(error) => OpenRejectIsGood(v, error);
    case OpenConnect => OpenConnectIsGood(v);
    case OpenAdd => OpenAddIsGood(v);
    case OpenErrorSend(ok) => OpenErrorSendIsGood(v, ok);
    case OpenOkSend(ok) => OpenOkSendIsGood(v, ok);
  }

  lemma TargetActIsGood(a: Act, v: View)
    requires Good(v) && TargetAct(a) && TargetCan(a, v.c)
    ensures Good(After(v, TargetDo(a, v.c)))
  {
    if OpenAct(a) {
      hide *;
      OpenActIsGood(a, v);
    } else {
      hide Good, After, DoTargetCheck, DoTargetRead, DoTargetEof, DoTargetForward, DoTargetFind, DoTargetExchange,
        DoTargetRemove, DoTargetNotify, Allowed;
      match a
      case TargetCheck => TargetCheckIsGood(v);
      case TargetRead(bytes) => TargetReadIsGood(v, bytes);
      case TargetEof => TargetEofIsGood(v);
      case TargetForward(ok) => TargetForwardIsGood(v, ok);
      case TargetFind => TargetFindIsGood(v);
      case TargetExchange => TargetExchangeIsGood(v);
      case TargetRemove => TargetRemoveIsGood(v);
      case TargetNotify(ok) => TargetNotifyIsGood(v, ok);
    }
  }

  lemma LoopActIsGood(a: Act, v: View)
    requires Good(v) && LoopAct(a) && LoopCan(a, v.c)
    ensures Good(After(v, LoopDo(a, v.c)))
  {
    hide Good, After, DoLoopWrite, DoLoopWriteFail, DoLoopRefuse, DoLoopFind, DoLoopExchange, DoLoopRemove, DoLoopNotify,
      DoAgentDrain;
    match a
    case LoopWrite => LoopWriteIsGood(v);
    case LoopWriteFail(k) => LoopWriteFailIsGood(v, k);
    case LoopRefuse(ok) => LoopRefuseIsGood(v, ok);
    case LoopFind => LoopFindIsGood(v);
    case LoopExchange => LoopExchangeIsGood(v);
    case LoopRemove => LoopRemoveIsGood(v);
    case LoopNotify(ok) => LoopNotifyIsGood(v, ok);
    case AgentDrain => AgentDrainIsGood(v);
  }

  /** The invariant of one stream is kept by every step of every thread. */
  lemma ActIsGood(a: Act, v: View)
    requires Good(v) && Enabled(a, v.c)
    ensures Good(After(v, Do(a, v.c)))
  {
    hide Good, After, HandlerCan, ReaderCan, TargetCan, LoopCan, HandlerDo, ReaderDo, TargetDo, LoopDo;
    if HandlerAct(a) {
      HandlerActIsGood(a, v);
    } else if ReaderAct(a) {
      ReaderActIsGood(a, v);
    } else if TargetAct(a) {
      TargetActIsGood(a, v);
    } else {
      LoopActIsGood(a, v);
    }
  }
}
