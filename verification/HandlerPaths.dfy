/**
 Paths of a proxy handler through the atomic steps of module `Streams`
 (`handle_proxy_client` and `AgentSession::send` in agent/src/tunnel/main.cpp).
 */
module HandlerPaths {
  import opened Text
  import opened Endpoints
  import opened Frames
  import opened Streams
  import opened TunnelSession

  lemma {:induction false} PathJoin(c: Ctx, acts: seq<Act>, mid: Ctx, w: seq<Frame>, acts': seq<Act>, end: Ctx, w': seq<Frame>)
    requires Path(c, acts, mid, w) && Path(mid, acts', end, w')
    ensures Path(c, acts + acts', end, w + w')
    decreases |acts|
  {
    hide Do, Enabled;
    if acts == [] {
      assert acts + acts' == acts' && w + w' == w';
    } else {
      PathHead(c, acts, mid, w);
      var e := Do(acts[0], c);
      var first := e.toAgent + e.toTunnel;
      var later := w[|first|..];
      hide Path;
      PathJoin(Then(c, e), acts[1..], mid, later, acts', end, w');
      PathCons(c, acts[0], acts[1..] + acts', end, later + w');
      Reassemble(first, w, w');
      assert [acts[0]] + (acts[1..] + acts') == acts + acts';
    }
  }

  lemma PathHead(c: Ctx, acts: seq<Act>, c': Ctx, w: seq<Frame>)
    requires acts != [] && Path(c, acts, c', w)
    ensures Enabled(acts[0], c)
    ensures
      var e := Do(acts[0], c);
      var first := e.toAgent + e.toTunnel;
      first <= w && Path(Then(c, e), acts[1..], c', w[|first|..])
  {
    hide Do, Enabled;
  }

  lemma Reassemble(first: seq<Frame>, w: seq<Frame>, w': seq<Frame>)
    requires first <= w
    ensures first + (w[|first|..] + w') == w + w'
  {
  }

  lemma PathNone(c: Ctx)
    ensures Path(c, [], c, [])
  {
  }

  /** A path goes on with one step of the handler. */
  lemma HandlerNext(c: Ctx, acts: seq<Act>, at: Ctx, w: seq<Frame>, a: Act, all: seq<Frame>)
    requires Path(c, acts, at, w) && HandlerAct(a) && HandlerCan(a, at)
    requires HandlerDo(a, at).toTunnel == [] && all == w + HandlerDo(a, at).toAgent
    ensures Path(c, acts + [a], Then(at, HandlerDo(a, at)), all)
  {
    hide *;
    HandlerSteps(a, at);
    var next := Then(at, HandlerDo(a, at));
    PathNone(next);
    PathCons(at, a, [], next, []);
    assert [a] + [] == [a];
    PathJoin(c, acts, at, w, [a], next, HandlerDo(a, at).toAgent + HandlerDo(a, at).toTunnel + []);
    assert w + (HandlerDo(a, at).toAgent + [] + []) == all;
  }

  /** `AgentSession::send` from a handler, with no other thread in between. */
  function Sent(at: Ctx, ok: bool): Eff
    requires at.r.h.pc.Sending?
  {
    if !at.g.alive then DoSendCheck(at)
    else
      var checked := Then(at, DoSendCheck(at));
      if ok && !at.g.tunnelBroken then DoSendOk(checked) else DoSendFail(checked)
  }

  lemma SendNext(c: Ctx, acts: seq<Act>, at: Ctx, w: seq<Frame>, ok: bool, all: seq<Frame>) returns (acts': seq<Act>)
    requires Path(c, acts, at, w) && at.r.h.pc.Sending? && all == w + Sent(at, ok).toAgent
    ensures Path(c, acts', Then(at, Sent(at, ok)), all)
  {
    hide Path;
    HandlerNext(c, acts, at, w, SendCheck, w);
    acts' := acts + [SendCheck];
    if at.g.alive {
      var checked := Then(at, DoSendCheck(at));
      if ok && !at.g.tunnelBroken {
        HandlerNext(c, acts', checked, w, SendOk, all);
        acts' := acts' + [SendOk];
      } else {
        HandlerNext(c, acts', checked, w, SendFail, all);
        acts' := acts' + [SendFail];
      }
    }
  }

  /** Only the handler's own fields and the flags have changed. */
  predicate Kept(c: Ctx, c': Ctx) {
    c' == c.(g := c'.g, r := c.r.(h := c'.r.h))
  }

  /** One chunk of the relay loop: read, and sent or not. */
  lemma ChunkNext(c: Ctx, acts: seq<Act>, at: Ctx, w: seq<Frame>, chunk: string, ok: bool, all: seq<Frame>)
    returns (acts': seq<Act>, at': Ctx)
    requires Path(c, acts, at, w) && at.r.h.pc.Relaying? && 1 <= |chunk| <= RELAY_CHUNK
    requires var sent := at.g.alive && !at.g.tunnelBroken && ok;
             all == w + if sent then [Frame(DATA, at.id, chunk)] else []
    ensures Path(c, acts', at', all) && Kept(at, at')
    ensures var sent := at.g.alive && !at.g.tunnelBroken && ok;
            && at'.g == (if at.g.alive && !sent then SessionLost(at.g) else at.g)
            && at'.r.h.pc == (if sent then Relaying else Sending(CloseSite, CloseFrame(at.id)))
  {
    hide Path;
    HandlerNext(c, acts, at, w, ClientRead(chunk), w);
    var read := Then(at, DoClientRead(at, chunk));
    acts' := SendNext(c, acts + [ClientRead(chunk)], read, w, ok, all);
    at' := Then(read, Sent(read, ok));
  }

  /** The end of the client's bytes. */
  lemma EofNext(c: Ctx, acts: seq<Act>, at: Ctx, w: seq<Frame>) returns (acts': seq<Act>, at': Ctx)
    requires Path(c, acts, at, w) && at.r.h.pc.Relaying?
    ensures Path(c, acts', at', w) && Kept(at, at') && at'.g == at.g
    ensures at'.r.h.pc == Sending(CloseSite, CloseFrame(at.id))
  {
    hide Path;
    HandlerNext(c, acts, at, w, ClientEof, w);
    acts', at' := acts + [ClientEof], Then(at, DoClientEof(at));
  }

  /** The CLOSE at the end. */
  lemma CloseNext(c: Ctx, acts: seq<Act>, at: Ctx, w: seq<Frame>, ok: bool, all: seq<Frame>) returns (acts': seq<Act>, at': Ctx)
    requires Path(c, acts, at, w) && at.r.h.pc == Sending(CloseSite, CloseFrame(at.id))
    requires var sent := at.g.alive && !at.g.tunnelBroken && ok;
             all == w + if sent then [CloseFrame(at.id)] else []
    ensures Path(c, acts', at', all) && Kept(at, at') && at'.r.h.pc.Unregistering?
    ensures var sent := at.g.alive && !at.g.tunnelBroken && ok;
            at'.g == (if at.g.alive && !sent then SessionLost(at.g) else at.g)
  {
    hide Path;
    acts' := SendNext(c, acts, at, w, ok, all);
    at' := Then(at, Sent(at, ok));
  }

  /** `unregister_stream` and `close_proxy_client`. */
  lemma LeaveNext(c: Ctx, acts: seq<Act>, at: Ctx, w: seq<Frame>) returns (acts': seq<Act>, at': Ctx)
    requires Path(c, acts, at, w) && at.r.h.pc.Unregistering?
    ensures Path(c, acts', at', w) && at'.g == at.g && at'.r.h.pc.Returned?
    ensures at'.r.p == ClosedClient(at.r.p.(registered := false))
  {
    hide Path;
    HandlerNext(c, acts, at, w, Unregister, w);
    var left := Then(at, DoUnregister(at));
    HandlerNext(c, acts + [Unregister], left, w, CloseClient, w);
    acts', at' := acts + [Unregister] + [CloseClient], Then(left, DoCloseClient(left));
  }

  /** `register_stream` and the OPEN. */
  lemma OpenNext(c: Ctx, ok: bool, all: seq<Frame>) returns (acts: seq<Act>, at: Ctx)
    requires c.r.h.pc.Taken?
    requires var sent := c.g.alive && !c.g.tunnelBroken && ok; all == if sent then [OpenFrame(c.id, c.r.h)] else []
    ensures Path(c, acts, at, all)
    ensures var sent := c.g.alive && !c.g.tunnelBroken && ok;
            && at.g == (if c.g.alive && !sent then SessionLost(c.g) else c.g)
            && at == c.(g := at.g, r := c.r.(h := c.r.h.(pc := at.r.h.pc), p := c.r.p.(registered := true)))
            && (if sent then at.r.h.pc.Waiting? else at.r.h.pc.Unregistering?)
  {
    hide Path;
    PathNone(c);
    HandlerNext(c, [], c, [], Register, []);
    var registered := Then(c, DoRegister(c));
    acts := SendNext(c, [] + [Register], registered, [], ok, all);
    at := Then(registered, Sent(registered, ok));
  }

  /** The return of the wait. */
  lemma WakeNext(c: Ctx) returns (acts: seq<Act>, at: Ctx)
    requires c.r.h.pc.Waiting?
    ensures Path(c, acts, at, []) && Kept(c, at) && at.g == c.g
    ensures at == Then(c, DoWaitReturn(c))
  {
    hide Path;
    PathNone(c);
    HandlerNext(c, [], c, [], WaitReturn, []);
    acts, at := [] + [WaitReturn], Then(c, DoWaitReturn(c));
  }

  /** The answer to a CONNECT. */
  lemma ReplyNext(c: Ctx, acts: seq<Act>, at: Ctx, w: seq<Frame>, ok: bool) returns (acts': seq<Act>, at': Ctx)
    requires Path(c, acts, at, w) && at.r.h.pc.Replying?
    ensures Path(c, acts', at', w) && Kept(at, at') && at'.g == at.g
    ensures at'.r.h.pc == if ok then Relaying else Sending(CloseSite, CloseFrame(at.id))
  {
    hide Path;
    HandlerNext(c, acts, at, w, Reply(ok), w);
    acts', at' := acts + [Reply(ok)], Then(at, DoReply(at, ok));
  }

  /** The rewritten request. */
  lemma InitialNext(c: Ctx, acts: seq<Act>, at: Ctx, w: seq<Frame>, ok: bool, all: seq<Frame>) returns (acts': seq<Act>, at': Ctx)
    requires Path(c, acts, at, w) && at.r.h.pc.Sending? && at.r.h.pc.site == InitialSite
    requires var sent := at.g.alive && !at.g.tunnelBroken && ok;
             all == w + if sent then [at.r.h.pc.frame] else []
    ensures Path(c, acts', at', all) && Kept(at, at')
    ensures var sent := at.g.alive && !at.g.tunnelBroken && ok;
            && at'.g == (if at.g.alive && !sent then SessionLost(at.g) else at.g)
            && (if sent then at'.r.h.pc.Relaying? else at'.r.h.pc.Unregistering?)
  {
    hide Path;
    acts' := SendNext(c, acts, at, w, ok, all);
    at' := Then(at, Sent(at, ok));
  }

  // ---- from one point of the handler to another, with only its own fields changed -----------------

  predicate Leads(c: Ctx, acts: seq<Act>, at: Ctx, w: seq<Frame>) {
    Path(c, acts, at, w) && Kept(c, at)
  }

  /** The flags after a `send` that began with `g`. */
  function FlagsAfter(g: Globals, sent: bool): Globals {
    if g.alive && !sent then SessionLost(g) else g
  }

  predicate Sends(g: Globals, ok: bool) {
    g.alive && !g.tunnelBroken && ok
  }

  lemma LeadsNowhere(c: Ctx)
    ensures Leads(c, [], c, [])
  {
  }

  lemma LeadsOn(c: Ctx, acts: seq<Act>, at: Ctx, w: seq<Frame>, acts': seq<Act>, at': Ctx, w': seq<Frame>)
    requires Leads(c, acts, at, w) && Leads(at, acts', at', w')
    ensures Leads(c, acts + acts', at', w + w')
  {
    hide Path;
    PathJoin(c, acts, at, w, acts', at', w');
  }

  lemma ChunkLeads(c: Ctx, acts: seq<Act>, at: Ctx, w: seq<Frame>, chunk: string, ok: bool)
    returns (acts': seq<Act>, at': Ctx)
    requires Leads(c, acts, at, w) && at.r.h.pc.Relaying? && 1 <= |chunk| <= RELAY_CHUNK
    ensures Leads(c, acts', at', w + if Sends(at.g, ok) then [Frame(DATA, at.id, chunk)] else [])
    ensures at'.id == at.id && at'.g == FlagsAfter(at.g, Sends(at.g, ok))
    ensures at'.r.h.pc == if Sends(at.g, ok) then Relaying else Sending(CloseSite, CloseFrame(at.id))
  {
    hide Path;
    acts', at' := ChunkNext(c, acts, at, w, chunk, ok, w + if Sends(at.g, ok) then [Frame(DATA, at.id, chunk)] else []);
  }

  lemma EofLeads(c: Ctx, acts: seq<Act>, at: Ctx, w: seq<Frame>) returns (acts': seq<Act>, at': Ctx)
    requires Leads(c, acts, at, w) && at.r.h.pc.Relaying?
    ensures Leads(c, acts', at', w) && at'.id == at.id && at'.g == at.g
    ensures at'.r.h.pc == Sending(CloseSite, CloseFrame(at.id))
  {
    hide Path;
    acts', at' := EofNext(c, acts, at, w);
  }

  lemma CloseLeads(at: Ctx, ok: bool) returns (acts: seq<Act>, at': Ctx)
    requires at.r.h.pc == Sending(CloseSite, CloseFrame(at.id))
    ensures Leads(at, acts, at', if Sends(at.g, ok) then [CloseFrame(at.id)] else [])
    ensures at'.r.h.pc.Unregistering? && at'.g == FlagsAfter(at.g, Sends(at.g, ok))
  {
    hide Path;
    PathNone(at);
    var w := if Sends(at.g, ok) then [CloseFrame(at.id)] else [];
    assert [] + w == w;
    acts, at' := CloseNext(at, [], at, [], ok, w);
  }

  lemma InitialLeads(at: Ctx, ok: bool) returns (acts: seq<Act>, at': Ctx)
    requires at.r.h.pc.Sending? && at.r.h.pc.site == InitialSite
    ensures Leads(at, acts, at', if Sends(at.g, ok) then [at.r.h.pc.frame] else [])
    ensures at'.id == at.id && at'.g == FlagsAfter(at.g, Sends(at.g, ok))
    ensures if Sends(at.g, ok) then at'.r.h.pc.Relaying? else at'.r.h.pc.Unregistering?
  {
    hide Path;
    PathNone(at);
    var w := if Sends(at.g, ok) then [at.r.h.pc.frame] else [];
    assert [] + w == w;
    acts, at' := InitialNext(at, [], at, [], ok, w);
  }

  lemma ReplyLeads(at: Ctx, ok: bool) returns (acts: seq<Act>, at': Ctx)
    requires at.r.h.pc.Replying?
    ensures Leads(at, acts, at', []) && at'.id == at.id && at'.g == at.g
    ensures at'.r.h.pc == if ok then Relaying else Sending(CloseSite, CloseFrame(at.id))
  {
    hide Path;
    PathNone(at);
    acts, at' := ReplyNext(at, [], at, [], ok);
  }

  // ---- the whole handler --------------------------------------------------------------------------

  /** What `read_loop` and `close_all_streams` have made of the stream when the wait for it ends. */
  datatype Wake = Wake(isOpen: bool, error: string, closed: bool)

  function Woken(c: Ctx, wake: Wake): Ctx {
    c.(r := c.r.(p := c.r.p.(isOpen := wake.isOpen, error := wake.error, closed := wake.closed)))
  }

  /** A handler's steps up to its wait, and after it; `parked` is where it waits, or its end if it does
      not get there. */
  datatype Trace = Trace(begin: seq<Act>, parked: Ctx, resume: seq<Act>, end: Ctx)

  predicate Follows(t: Trace, c: Ctx, wake: Wake, frames: seq<Frame>) {
    if t.parked.r.h.pc.Waiting? then
      && frames != [] && Path(c, t.begin, t.parked, frames[..1])
      && Path(Woken(t.parked, wake), t.resume, t.end, frames[1..]) && t.end.r.h.pc.Returned?
    else
      frames == [] && Path(c, t.begin, t.parked, []) && t.end == t.parked && t.resume == [] && t.end.r.h.pc.Returned?
  }

  /** What a handler has to start with. */
  function Beginning(id: nat, isConnect: bool, initial: string, host: string, port: nat, g: Globals): Ctx {
    Ctx(id, BLANK.(h := BLANK.h.(pc := Taken, isConnect := isConnect, initial := initial, host := host, port := port)),
        g, ReaderIdle, LoopIdle)
  }

  /** A handler whose OPEN cannot be sent. */
  lemma OpenFails(c: Ctx, wake: Wake, ok: bool) returns (t: Trace)
    requires c.r.h.pc.Taken? && !Sends(c.g, ok)
    ensures Follows(t, c, wake, []) && t.end.g == FlagsAfter(c.g, false)
    ensures t.end.r.p == ClosedClient(c.r.p.(registered := false))
  {
    hide Path;
    var acts, at := OpenNext(c, ok, []);
    acts, at := LeaveNext(c, acts, at, []);
    t := Trace(acts, at, [], at);
  }

  /** One whose OPEN is sent and refused, or not answered. */
  lemma OpenIsRefused(c: Ctx, wake: Wake, ok: bool) returns (t: Trace)
    requires c.r.h.pc.Taken? && Sends(c.g, ok) && (!wake.isOpen || wake.error != "")
    ensures Follows(t, c, wake, [OpenFrame(c.id, c.r.h)]) && t.end.g == c.g
    ensures t.end.r.p == ClosedClient(Woken(t.parked, wake).r.p.(registered := false))
  {
    hide Path;
    var open := [OpenFrame(c.id, c.r.h)];
    var acts, parked := OpenNext(c, ok, open);
    var resume, at := WakeNext(Woken(parked, wake));
    resume, at := LeaveNext(Woken(parked, wake), resume, at, []);
    t := Trace(acts, parked, resume, at);
    assert open[..1] == open && open[1..] == [];
  }

  /** One whose target is open, given what it does from the wait on until it leaves. */
  lemma OpenIsServed(c: Ctx, wake: Wake, ok: bool, parked: Ctx, begin: seq<Act>, acts: seq<Act>, at: Ctx, frames: seq<Frame>)
    returns (t: Trace)
    requires parked.r.h.pc.Waiting? && Path(c, begin, parked, [OpenFrame(c.id, c.r.h)])
    requires Leads(Woken(parked, wake), acts, at, frames) && at.r.h.pc.Unregistering?
    ensures Follows(t, c, wake, [OpenFrame(c.id, c.r.h)] + frames) && t.end.g == at.g
    ensures t.end.r.p == ClosedClient(Woken(parked, wake).r.p.(registered := false))
  {
    hide Path;
    var resume, end := LeaveNext(Woken(parked, wake), acts, at, frames);
    t := Trace(begin, parked, resume, end);
    var all := [OpenFrame(c.id, c.r.h)] + frames;
    assert all[..1] == [OpenFrame(c.id, c.r.h)] && all[1..] == frames;
  }
}
