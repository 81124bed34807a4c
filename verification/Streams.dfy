/**
 The tunnel protocol seen from one stream: everything the tunnel and the agent hold about one
 stream id, and the atomic steps the threads of both programs take on it
 (agent/src/tunnel/main.cpp, agent/src/agent/main.cpp).

 A step is a lock-protected section, an atomic exchange or load, or one call into the kernel.
 `Enabled` says when a thread can take a step, `Do` what it changes and which frames it puts on
 the wire.  Module `Mux` runs these steps over the shared queues and tables of a whole session;
 here the queues are already cut down to the frames of one stream.
 */
module Streams {
  import opened Text
  import opened Endpoints
  import opened Frames

  // ---- the tunnel: handle_proxy_client and ProxyStream ---------------------------------------

  /** The call sites of `AgentSession::send` in `handle_proxy_client`. */
  datatype Site = OpenSite | InitialSite | RelaySite | CloseSite

  /** Where a proxy handler is.  `Checked` is inside `AgentSession::send`, between the test of
      `alive_` and the write to the channel. */
  datatype HandlerPc =
    | Unborn
    | Taken
    | Sending(site: Site, frame: Frame)
    | Checked(site: Site, frame: Frame)
    | Waiting
    | Replying
    | Relaying
    | Unregistering
    | ClosingClient
    | Returned

  /** How the wait for OpenOk ended. */
  datatype WaitResult = NotYet | WaitOk | WaitTimeout | WaitError

  /** `relayed` is history: the bytes the relay loop has read from the client. */
  datatype Handler = Handler(
    pc: HandlerPc, isConnect: bool, initial: string, host: string, port: nat,
    relayed: string, wait: WaitResult)

  /** `registered`: the id is in `AgentSession::streams_`.  `drainFlag` and `drainClient`: a
      `close_all_streams` took the stream out of the table and has still to set its flags, or to
      close its client.  `clientCloses`, `toClient` and `closeTaken` (the agent's CLOSE has been
      processed) are history. */
  datatype Proxy = Proxy(
    registered: bool, drainFlag: bool, drainClient: bool,
    isOpen: bool, closed: bool, error: string,
    clientClosed: bool, clientCloses: nat, toClient: string, closeTaken: bool)

  /** `AgentSession::read_loop`: what it holds between two steps. */
  datatype ReaderPc =
    | ReaderIdle
    | ReaderFound(frame: Frame)
    | ReaderErrorClosing(id: nat)
    | ReaderSending(id: nat)
    | ReaderChecked(id: nat)
    | ReaderUnregistering(id: nat)
    | ReaderClosingClient(id: nat)

  // ---- the agent: handle_open, target_reader, session_loop -----------------------------------

  datatype OpenPc =
    | NoOpen
    | OpenStarted(payload: string)
    | OpenRejected(text: string)
    | OpenConnected(host: string, port: nat)
    | OpenAdded
    | OpenDone

  /** Inside `Agent::handle_close`. */
  datatype ClosePc = Finding | Exchanging | Removing | Notifying

  datatype TargetPc =
    | NoReader
    | Checking
    | Reading
    | Forwarding(data: string)
    | TargetClosing(at: ClosePc)
    | ReaderDone

  /** `inTable`: the id is in `Agent::streams_`; `draining`: taken out by the agent's
      `close_all_streams` and not closed by it yet.  `closes`, `read` and `written` are history;
      `eofClose` says that the target reader sent the CLOSE frame. */
  datatype Target = Target(
    made: bool, host: string, port: nat, pc: TargetPc,
    inTable: bool, draining: bool, closed: bool, closes: nat,
    read: string, written: string, eofClose: bool)

  datatype LoopPc =
    | LoopIdle
    | LoopWriting(frame: Frame)
    | LoopRefusing(id: nat)
    | LoopClosing(id: nat, at: ClosePc)

  // ---- one stream ----------------------------------------------------------------------------

  datatype Rec = Rec(h: Handler, p: Proxy, o: OpenPc, t: Target)

  const BLANK := Rec(
    Handler(Unborn, false, "", "", 0, "", NotYet),
    Proxy(false, false, false, false, false, "", false, 0, "", false),
    NoOpen,
    Target(false, "", 0, NoReader, false, false, false, 0, "", "", false))

  /** `alive`: `AgentSession::alive_`; `connected`: `Agent::connected_`.  A broken direction
      refuses every later write.  `swept`: some `close_all_streams` has emptied the tunnel's table.
      `allow` is the agent's allowlist, which never changes. */
  datatype Globals = Globals(
    alive: bool, tunnelBroken: bool, swept: bool,
    connected: bool, agentBroken: bool, allow: set<string>)

  /** What a thread can see: one stream, the shared flags, and the two dispatch threads. */
  datatype Ctx = Ctx(id: nat, r: Rec, g: Globals, rd: ReaderPc, lp: LoopPc)

  /** What a step leaves, with the frames it appends to either direction. */
  datatype Eff = Eff(r: Rec, g: Globals, rd: ReaderPc, lp: LoopPc, toAgent: seq<Frame>, toTunnel: seq<Frame>)

  function ReaderId(rd: ReaderPc): nat
    requires !rd.ReaderIdle?
  {
    if rd.ReaderFound? then rd.frame.id else rd.id
  }

  function LoopId(lp: LoopPc): nat
    requires !lp.LoopIdle?
  {
    if lp.LoopWriting? then lp.frame.id else lp.id
  }

  function OpenFrame(id: nat, h: Handler): Frame {
    Frame(OPEN, id, MakeOpenPayload(h.host, h.port))
  }

  const RELAY_CHUNK := 32 * 1024

  datatype Act =
    // handle_proxy_client
    | Register | SendCheck | SendOk | SendFail | WaitReturn | Reply(ok: bool)
    | ClientRead(bytes: string) | ClientEof | Unregister | CloseClient
    // AgentSession::close_all_streams, after it has emptied the table
    | DrainFlag(reason: string) | DrainClient
    // AgentSession::read_loop, after find_stream
    | TakeOpenOk | TakeError | ErrorCloseClient | TakeData | TakeDataFail(k: nat)
    | ReaderSendCheck | ReaderSend(ok: bool) | TakeClose | ReaderUnregister | ReaderCloseClient
    // Agent::handle_open
    | OpenReject(error: string) | OpenConnect | OpenAdd | OpenErrorSend(ok: bool) | OpenOkSend(ok: bool)
    // Agent::target_reader
    | TargetCheck | TargetRead(bytes: string) | TargetEof | TargetForward(ok: bool)
    | TargetFind | TargetExchange | TargetRemove | TargetNotify(ok: bool)
    // Agent::session_loop: handle_data and handle_close
    | LoopWrite | LoopWriteFail(k: nat) | LoopRefuse(ok: bool)
    | LoopFind | LoopExchange | LoopRemove | LoopNotify(ok: bool)
    // Agent::close_all_streams, after it has emptied the table
    | AgentDrain

  // ---- when a thread can take a step -----------------------------------------------------------

  /** A write to the agent can succeed unless the direction is broken; it can always fail. */
  predicate CanSend(ok: bool, broken: bool) {
    ok ==> !broken
  }

  predicate OnReader(c: Ctx) {
    !c.rd.ReaderIdle? && ReaderId(c.rd) == c.id
  }

  predicate Found(c: Ctx, tag: nat) {
    OnReader(c) && c.rd.ReaderFound? && c.rd.frame.tag == tag
  }

  predicate OnLoop(c: Ctx) {
    !c.lp.LoopIdle? && LoopId(c.lp) == c.id
  }

  predicate LoopAt(c: Ctx, at: ClosePc) {
    OnLoop(c) && c.lp == LoopClosing(c.id, at)
  }

  /** The agent connects only to an endpoint it can parse and that its allowlist holds. */
  predicate Allowed(payload: string, allow: set<string>) {
    ParseOpenPayload(payload).Some? &&
    EndpointToString(ParseOpenPayload(payload).value.host, ParseOpenPayload(payload).value.port) in allow
  }

  predicate HandlerAct(a: Act) {
    a.Register? || a.SendCheck? || a.SendOk? || a.SendFail? || a.WaitReturn? ||
    a.Reply? || a.ClientRead? || a.ClientEof? || a.Unregister? || a.CloseClient? ||
    a.DrainFlag? || a.DrainClient?
  }

  predicate HandlerCan(a: Act, c: Ctx)
    requires HandlerAct(a)
  {
    var h := c.r.h;
    match a
    case Register => h.pc.Taken?
    case SendCheck => h.pc.Sending?
    case SendOk => h.pc.Checked? && !c.g.tunnelBroken
    case SendFail => h.pc.Checked?
    case WaitReturn => h.pc.Waiting?
    case Reply(_) => h.pc.Replying?
    case ClientRead(bytes) => h.pc.Relaying? && 1 <= |bytes| <= RELAY_CHUNK
    case ClientEof => h.pc.Relaying?
    case Unregister => h.pc.Unregistering?
    case CloseClient => h.pc.ClosingClient?
    case DrainFlag(_) => c.r.p.drainFlag
    case DrainClient => c.r.p.drainClient
  }

  predicate ReaderAct(a: Act) {
    a.TakeOpenOk? || a.TakeError? || a.ErrorCloseClient? || a.TakeData? || a.TakeDataFail? ||
    a.ReaderSendCheck? || a.ReaderSend? || a.TakeClose? || a.ReaderUnregister? || a.ReaderCloseClient?
  }

  predicate ReaderCan(a: Act, c: Ctx)
    requires ReaderAct(a)
  {
    match a
    case TakeOpenOk => Found(c, OPEN_OK)
    case TakeError => Found(c, ERROR)
    case ErrorCloseClient => OnReader(c) && c.rd.ReaderErrorClosing?
    case TakeData => Found(c, DATA)
    case TakeDataFail(k) => Found(c, DATA) && k <= |c.rd.frame.payload|
    case ReaderSendCheck => OnReader(c) && c.rd.ReaderSending?
    case ReaderSend(ok) => OnReader(c) && c.rd.ReaderChecked? && CanSend(ok, c.g.tunnelBroken)
    case TakeClose => Found(c, CLOSE)
    case ReaderUnregister => OnReader(c) && c.rd.ReaderUnregistering?
    case ReaderCloseClient => OnReader(c) && c.rd.ReaderClosingClient?
  }

  predicate TargetAct(a: Act) {
    a.OpenReject? || a.OpenConnect? || a.OpenAdd? || a.OpenErrorSend? || a.OpenOkSend? ||
    a.TargetCheck? || a.TargetRead? || a.TargetEof? || a.TargetForward? || a.TargetFind? ||
    a.TargetExchange? || a.TargetRemove? || a.TargetNotify?
  }

  predicate TargetCan(a: Act, c: Ctx)
    requires TargetAct(a)
  {
    var t, broken := c.r.t, c.g.agentBroken;
    match a
    case OpenReject(_) => c.r.o.OpenStarted?
    case OpenConnect => c.r.o.OpenStarted? && Allowed(c.r.o.payload, c.g.allow)
    case OpenAdd => c.r.o.OpenConnected?
    case OpenErrorSend(ok) => c.r.o.OpenRejected? && CanSend(ok, broken)
    case OpenOkSend(ok) => c.r.o.OpenAdded? && CanSend(ok, broken)
    case TargetCheck => t.pc.Checking?
    case TargetRead(bytes) => t.pc.Reading? && 1 <= |bytes| <= RELAY_CHUNK
    case TargetEof => t.pc.Reading?
    case TargetForward(ok) => t.pc.Forwarding? && CanSend(ok, broken)
    case TargetFind => t.pc == TargetClosing(Finding)
    case TargetExchange => t.pc == TargetClosing(Exchanging)
    case TargetRemove => t.pc == TargetClosing(Removing)
    case TargetNotify(ok) => t.pc == TargetClosing(Notifying) && CanSend(ok, broken)
  }

  predicate LoopAct(a: Act) {
    a.LoopWrite? || a.LoopWriteFail? || a.LoopRefuse? || a.LoopFind? || a.LoopExchange? ||
    a.LoopRemove? || a.LoopNotify? || a.AgentDrain?
  }

  predicate LoopCan(a: Act, c: Ctx)
    requires LoopAct(a)
  {
    var broken := c.g.agentBroken;
    match a
    case LoopWrite => OnLoop(c) && c.lp.LoopWriting?
    case LoopWriteFail(k) => OnLoop(c) && c.lp.LoopWriting? && k <= |c.lp.frame.payload|
    case LoopRefuse(ok) => OnLoop(c) && c.lp.LoopRefusing? && CanSend(ok, broken)
    case LoopFind => LoopAt(c, Finding)
    case LoopExchange => LoopAt(c, Exchanging)
    case LoopRemove => LoopAt(c, Removing)
    case LoopNotify(ok) => LoopAt(c, Notifying) && CanSend(ok, broken)
    case AgentDrain => c.r.t.draining
  }

  predicate Enabled(a: Act, c: Ctx) {
    if HandlerAct(a) then HandlerCan(a, c)
    else if ReaderAct(a) then ReaderCan(a, c)
    else if TargetAct(a) then TargetCan(a, c)
    else LoopCan(a, c)
  }

  // ---- handle_proxy_client --------------------------------------------------------------------

  function Keep(c: Ctx): Eff {
    Eff(c.r, c.g, c.rd, c.lp, [], [])
  }

  function SetHandler(c: Ctx, h: Handler): Eff {
    Keep(c).(r := c.r.(h := h))
  }

  function SetProxy(c: Ctx, p: Proxy): Eff {
    Keep(c).(r := c.r.(p := p))
  }

  function SetTarget(c: Ctx, t: Target): Eff {
    Keep(c).(r := c.r.(t := t))
  }

  function SetOpen(c: Ctx, o: OpenPc): Eff {
    Keep(c).(r := c.r.(o := o))
  }

  function CloseFrame(id: nat): Frame {
    Frame(CLOSE, id, "")
  }

  /** A failed write inside `AgentSession::send`. */
  function SessionLost(g: Globals): Globals {
    g.(alive := false, tunnelBroken := true)
  }

  /** Where a handler goes when `send` returns true. */
  function AfterSend(site: Site): HandlerPc {
    match site
    case OpenSite => Waiting
    case InitialSite => Relaying
    case RelaySite => Relaying
    case CloseSite => Unregistering
  }

  /** Where a handler goes when `send` returns false. */
  function AfterFailedSend(site: Site, id: nat): HandlerPc {
    match site
    case OpenSite => Unregistering
    case InitialSite => Unregistering
    case RelaySite => Sending(CloseSite, CloseFrame(id))
    case CloseSite => Unregistering
  }

  /** `close_proxy_client`: the exchange decides who closes the socket. */
  function ClosedClient(p: Proxy): Proxy {
    if p.clientClosed then p else p.(clientClosed := true, clientCloses := p.clientCloses + 1)
  }

  function DoRegister(c: Ctx): Eff {
    Keep(c).(r := c.r.(h := c.r.h.(pc := Sending(OpenSite, OpenFrame(c.id, c.r.h))), p := c.r.p.(registered := true)))
  }

  function DoSendCheck(c: Ctx): Eff
    requires c.r.h.pc.Sending?
  {
    var pc := c.r.h.pc;
    SetHandler(c, c.r.h.(pc := if c.g.alive then Checked(pc.site, pc.frame) else AfterFailedSend(pc.site, c.id)))
  }

  function DoSendOk(c: Ctx): Eff
    requires c.r.h.pc.Checked?
  {
    SetHandler(c, c.r.h.(pc := AfterSend(c.r.h.pc.site))).(toAgent := [c.r.h.pc.frame])
  }

  function DoSendFail(c: Ctx): Eff
    requires c.r.h.pc.Checked?
  {
    SetHandler(c, c.r.h.(pc := AfterFailedSend(c.r.h.pc.site, c.id))).(g := SessionLost(c.g))
  }

  function WaitOutcome(p: Proxy): WaitResult {
    if p.isOpen && p.error == "" then WaitOk
    else if p.error != "" || p.closed then WaitError
    else WaitTimeout
  }

  /** `wait_for` returns, with or without its condition; then the branches after it. */
  function DoWaitReturn(c: Ctx): Eff {
    var h, w := c.r.h, WaitOutcome(c.r.p);
    var next :=
      if w != WaitOk then Unregistering
      else if h.isConnect then Replying
      else if h.initial != "" then Sending(InitialSite, Frame(DATA, c.id, h.initial))
      else Relaying;
    SetHandler(c, h.(pc := next, wait := w))
  }

  function DoReply(c: Ctx, ok: bool): Eff {
    SetHandler(c, c.r.h.(pc := if ok then Relaying else Sending(CloseSite, CloseFrame(c.id))))
  }

  function DoClientRead(c: Ctx, bytes: string): Eff {
    SetHandler(c, c.r.h.(pc := Sending(RelaySite, Frame(DATA, c.id, bytes)), relayed := c.r.h.relayed + bytes))
  }

  function DoClientEof(c: Ctx): Eff {
    SetHandler(c, c.r.h.(pc := Sending(CloseSite, CloseFrame(c.id))))
  }

  function DoUnregister(c: Ctx): Eff {
    Keep(c).(r := c.r.(h := c.r.h.(pc := ClosingClient), p := c.r.p.(registered := false)))
  }

  function DoCloseClient(c: Ctx): Eff {
    Keep(c).(r := c.r.(h := c.r.h.(pc := Returned), p := ClosedClient(c.r.p)))
  }

  // ---- AgentSession::close_all_streams and AgentSession::read_loop ------------------------------

  function DoDrainFlag(c: Ctx, reason: string): Eff {
    SetProxy(c, c.r.p.(drainFlag := false, drainClient := true, error := reason, closed := true))
  }

  function DoDrainClient(c: Ctx): Eff {
    SetProxy(c, ClosedClient(c.r.p).(drainClient := false))
  }

  function DoTakeOpenOk(c: Ctx): Eff {
    SetProxy(c, c.r.p.(isOpen := true)).(rd := ReaderIdle)
  }

  function DoTakeError(c: Ctx): Eff
    requires c.rd.ReaderFound?
  {
    SetProxy(c, c.r.p.(error := c.rd.frame.payload, closed := true))
    .(rd := if c.r.p.isOpen then ReaderErrorClosing(c.id) else ReaderIdle)
  }

  function DoReaderCloses(c: Ctx): Eff {
    SetProxy(c, ClosedClient(c.r.p)).(rd := ReaderIdle)
  }

  function DoTakeData(c: Ctx): Eff
    requires c.rd.ReaderFound?
  {
    SetProxy(c, c.r.p.(toClient := c.r.p.toClient + c.rd.frame.payload)).(rd := ReaderIdle)
  }

  /** `send_all` to the client fails after `k` bytes. */
  function DoTakeDataFail(c: Ctx, k: nat): Eff
    requires c.rd.ReaderFound? && k <= |c.rd.frame.payload|
  {
    SetProxy(c, c.r.p.(toClient := c.r.p.toClient + c.rd.frame.payload[..k])).(rd := ReaderSending(c.id))
  }

  function DoReaderSendCheck(c: Ctx): Eff {
    Keep(c).(rd := if c.g.alive then ReaderChecked(c.id) else ReaderUnregistering(c.id))
  }

  function DoReaderSend(c: Ctx, ok: bool): Eff {
    if ok then Keep(c).(rd := ReaderUnregistering(c.id), toAgent := [CloseFrame(c.id)])
    else Keep(c).(rd := ReaderUnregistering(c.id), g := SessionLost(c.g))
  }

  function DoTakeClose(c: Ctx): Eff {
    SetProxy(c, c.r.p.(closed := true, closeTaken := true)).(rd := ReaderUnregistering(c.id))
  }

  function DoReaderUnregister(c: Ctx): Eff {
    SetProxy(c, c.r.p.(registered := false)).(rd := ReaderClosingClient(c.id))
  }

  // ---- Agent::handle_open ------------------------------------------------------------------------

  /** One write by an agent thread: on failure `Agent::send` clears `connected_`. */
  function AgentSend(e: Eff, ok: bool, f: Frame): Eff {
    if ok then e.(toTunnel := [f]) else e.(g := e.g.(connected := false, agentBroken := true))
  }

  /** What `handle_open` answers when it does not connect, `error` being the resolver's or the
      kernel's own text. */
  function RejectText(payload: string, allow: set<string>, error: string): string {
    match ParseOpenPayload(payload)
    case None => "invalid OPEN payload"
    case Some(e) =>
      if EndpointToString(e.host, e.port) !in allow
      then "target not allowed: " + EndpointToString(e.host, e.port)
      else "target connect failed: " + error
  }

  function DoOpenReject(c: Ctx, error: string): Eff
    requires c.r.o.OpenStarted?
  {
    SetOpen(c, OpenRejected(RejectText(c.r.o.payload, c.g.allow, error)))
  }

  function DoOpenConnect(c: Ctx): Eff
    requires c.r.o.OpenStarted? && Allowed(c.r.o.payload, c.g.allow)
  {
    var e := ParseOpenPayload(c.r.o.payload).value;
    SetOpen(c, OpenConnected(e.host, e.port))
  }

  function DoOpenAdd(c: Ctx): Eff
    requires c.r.o.OpenConnected?
  {
    Keep(c).(r := c.r.(o := OpenAdded,
                       t := c.r.t.(made := true, host := c.r.o.host, port := c.r.o.port, inTable := true)))
  }

  function DoOpenErrorSend(c: Ctx, ok: bool): Eff
    requires c.r.o.OpenRejected?
  {
    AgentSend(SetOpen(c, OpenDone), ok, Frame(ERROR, c.id, c.r.o.text))
  }

  /** Whether or not the write succeeds, the target reader is started. */
  function DoOpenOkSend(c: Ctx, ok: bool): Eff {
    AgentSend(Keep(c).(r := c.r.(o := OpenDone, t := c.r.t.(pc := Checking))), ok, Frame(OPEN_OK, c.id, "ok"))
  }

  // ---- Agent::target_reader and Agent::handle_close ----------------------------------------------

  /** The exchange in `handle_close` and in the agent's `close_all_streams`. */
  function ClosedTarget(t: Target): Target {
    if t.closed then t else t.(closed := true, closes := t.closes + 1)
  }

  function DoTargetCheck(c: Ctx): Eff {
    var t := c.r.t;
    SetTarget(c, t.(pc := if !t.closed && c.g.connected then Reading else TargetClosing(Finding)))
  }

  function DoTargetRead(c: Ctx, bytes: string): Eff {
    SetTarget(c, c.r.t.(pc := Forwarding(bytes), read := c.r.t.read + bytes))
  }

  function DoTargetEof(c: Ctx): Eff {
    SetTarget(c, c.r.t.(pc := TargetClosing(Finding)))
  }

  function DoTargetForward(c: Ctx, ok: bool): Eff
    requires c.r.t.pc.Forwarding?
  {
    var t := c.r.t;
    AgentSend(SetTarget(c, t.(pc := if ok then Checking else TargetClosing(Finding))), ok,
              Frame(DATA, c.id, t.pc.data))
  }

  function DoTargetFind(c: Ctx): Eff {
    SetTarget(c, c.r.t.(pc := if c.r.t.inTable then TargetClosing(Exchanging) else ReaderDone))
  }

  function DoTargetExchange(c: Ctx): Eff {
    SetTarget(c, ClosedTarget(c.r.t).(pc := if c.r.t.closed then ReaderDone else TargetClosing(Removing)))
  }

  function DoTargetRemove(c: Ctx): Eff {
    SetTarget(c, c.r.t.(inTable := false, pc := TargetClosing(Notifying)))
  }

  function DoTargetNotify(c: Ctx, ok: bool): Eff {
    AgentSend(SetTarget(c, c.r.t.(pc := ReaderDone, eofClose := ok)), ok, CloseFrame(c.id))
  }

  function DoAgentDrain(c: Ctx): Eff {
    SetTarget(c, ClosedTarget(c.r.t).(draining := false))
  }

  // ---- Agent::session_loop: handle_data and handle_close -----------------------------------------

  function DoLoopWrite(c: Ctx): Eff
    requires c.lp.LoopWriting?
  {
    SetTarget(c, c.r.t.(written := c.r.t.written + c.lp.frame.payload)).(lp := LoopIdle)
  }

  /** `send_all` to the target fails after `k` bytes. */
  function DoLoopWriteFail(c: Ctx, k: nat): Eff
    requires c.lp.LoopWriting? && k <= |c.lp.frame.payload|
  {
    SetTarget(c, c.r.t.(written := c.r.t.written + c.lp.frame.payload[..k])).(lp := LoopClosing(c.id, Finding))
  }

  function DoLoopRefuse(c: Ctx, ok: bool): Eff {
    AgentSend(Keep(c).(lp := LoopIdle), ok, Frame(ERROR, c.id, "unknown stream"))
  }

  function DoLoopFind(c: Ctx): Eff {
    Keep(c).(lp := if c.r.t.inTable then LoopClosing(c.id, Exchanging) else LoopIdle)
  }

  function DoLoopExchange(c: Ctx): Eff {
    SetTarget(c, ClosedTarget(c.r.t)).(lp := if c.r.t.closed then LoopIdle else LoopClosing(c.id, Removing))
  }

  function DoLoopRemove(c: Ctx): Eff {
    SetTarget(c, c.r.t.(inTable := false)).(lp := LoopClosing(c.id, Notifying))
  }

  function DoLoopNotify(c: Ctx, ok: bool): Eff {
    AgentSend(Keep(c).(lp := LoopIdle), ok, CloseFrame(c.id))
  }

  // ---- all steps ---------------------------------------------------------------------------------

  function HandlerDo(a: Act, c: Ctx): Eff
    requires HandlerAct(a) && HandlerCan(a, c)
  {
    match a
    case Register => DoRegister(c)
    case SendCheck => DoSendCheck(c)
    case SendOk => DoSendOk(c)
    case SendFail => DoSendFail(c)
    case WaitReturn => DoWaitReturn(c)
    case Reply(ok) => DoReply(c, ok)
    case ClientRead(bytes) => DoClientRead(c, bytes)
    case ClientEof => DoClientEof(c)
    case Unregister => DoUnregister(c)
    case CloseClient => DoCloseClient(c)
    case DrainFlag(reason) => DoDrainFlag(c, reason)
    case DrainClient => DoDrainClient(c)
  }

  function ReaderDo(a: Act, c: Ctx): Eff
    requires ReaderAct(a) && ReaderCan(a, c)
  {
    match a
    case TakeOpenOk => DoTakeOpenOk(c)
    case TakeError => DoTakeError(c)
    case ErrorCloseClient => DoReaderCloses(c)
    case TakeData => DoTakeData(c)
    case TakeDataFail(k) => DoTakeDataFail(c, k)
    case ReaderSendCheck => DoReaderSendCheck(c)
    case ReaderSend(ok) => DoReaderSend(c, ok)
    case TakeClose => DoTakeClose(c)
    case ReaderUnregister => DoReaderUnregister(c)
    case ReaderCloseClient => DoReaderCloses(c)
  }

  function TargetDo(a: Act, c: Ctx): Eff
    requires TargetAct(a) && TargetCan(a, c)
  {
    match a
    case OpenReject(error) => DoOpenReject(c, error)
    case OpenConnect => DoOpenConnect(c)
    case OpenAdd => DoOpenAdd(c)
    case OpenErrorSend(ok) => DoOpenErrorSend(c, ok)
    case OpenOkSend(ok) => DoOpenOkSend(c, ok)
    case TargetCheck => DoTargetCheck(c)
    case TargetRead(bytes) => DoTargetRead(c, bytes)
    case TargetEof => DoTargetEof(c)
    case TargetForward(ok) => DoTargetForward(c, ok)
    case TargetFind => DoTargetFind(c)
    case TargetExchange => DoTargetExchange(c)
    case TargetRemove => DoTargetRemove(c)
    case TargetNotify(ok) => DoTargetNotify(c, ok)
  }

  function LoopDo(a: Act, c: Ctx): Eff
    requires LoopAct(a) && LoopCan(a, c)
  {
    match a
    case LoopWrite => DoLoopWrite(c)
    case LoopWriteFail(k) => DoLoopWriteFail(c, k)
    case LoopRefuse(ok) => DoLoopRefuse(c, ok)
    case LoopFind => DoLoopFind(c)
    case LoopExchange => DoLoopExchange(c)
    case LoopRemove => DoLoopRemove(c)
    case LoopNotify(ok) => DoLoopNotify(c, ok)
    case AgentDrain => DoAgentDrain(c)
  }

  function Do(a: Act, c: Ctx): Eff
    requires Enabled(a, c)
  {
    if HandlerAct(a) then HandlerDo(a, c)
    else if ReaderAct(a) then ReaderDo(a, c)
    else if TargetAct(a) then TargetDo(a, c)
    else LoopDo(a, c)
  }

  // ---- one group at a time -----------------------------------------------------------------------

  lemma HandlerSteps(a: Act, c: Ctx)
    requires HandlerAct(a) && HandlerCan(a, c)
    ensures Enabled(a, c) && Do(a, c) == HandlerDo(a, c)
  {
  }

  lemma ReaderSteps(a: Act, c: Ctx)
    requires ReaderAct(a) && ReaderCan(a, c)
    ensures Enabled(a, c) && Do(a, c) == ReaderDo(a, c)
  {
  }

  lemma TargetSteps(a: Act, c: Ctx)
    requires TargetAct(a) && TargetCan(a, c)
    ensures Enabled(a, c) && Do(a, c) == TargetDo(a, c)
  {
  }

  lemma LoopSteps(a: Act, c: Ctx)
    requires LoopAct(a) && LoopCan(a, c)
    ensures Enabled(a, c) && Do(a, c) == LoopDo(a, c)
  {
  }
}
