/**
 What the functions of the agent amount to when no other thread interferes, and that each is a path of
 the atomic steps of module `Streams` (agent/src/agent/main.cpp).
 */
module AgentPaths {
  import opened Text
  import opened Endpoints
  import opened Frames
  import opened Streams
  import opened StreamInvariant
  import opened TunnelSession

  // ---- handle_close -------------------------------------------------------------------------------

  /** `handle_close` on the session loop, from the lookup on; `ok` is the fate of the CLOSE. */
  function LoopClosed(c: Ctx, ok: bool): Eff {
    var found := Then(c, DoLoopFind(c));
    if found.lp.LoopIdle? then DoLoopFind(c)
    else
      var taken := Then(found, DoLoopExchange(found));
      if taken.lp.LoopIdle? then DoLoopExchange(found)
      else
        var removed := Then(taken, DoLoopRemove(taken));
        DoLoopNotify(removed, ok)
  }

  /** The same on a target reader. */
  function ReaderClosed(c: Ctx, ok: bool): Eff {
    var found := Then(c, DoTargetFind(c));
    if found.r.t.pc.ReaderDone? then DoTargetFind(c)
    else
      var taken := Then(found, DoTargetExchange(found));
      if taken.r.t.pc.ReaderDone? then DoTargetExchange(found)
      else
        var removed := Then(taken, DoTargetRemove(taken));
        DoTargetNotify(removed, ok)
  }

  /** What the two have in common: everything but where the thread is. */
  lemma SameClose(c: Ctx, ok: bool, c': Ctx)
    requires c'.id == c.id && c'.g == c.g && c'.r == c.r.(t := c.r.t.(pc := c'.r.t.pc, eofClose := c'.r.t.eofClose))
    ensures
      var e, e' := LoopClosed(c, ok), ReaderClosed(c', ok);
      && e.g == e'.g && e.toTunnel == e'.toTunnel
      && e.r.t.(pc := e'.r.t.pc, eofClose := e'.r.t.eofClose) == e'.r.t
  {
  }

  lemma PathNone(c: Ctx)
    ensures Path(c, [], c, [])
  {
  }

  /** A path begins with one step of the session loop. */
  lemma LoopFirst(c: Ctx, a: Act, acts: seq<Act>, c': Ctx, written: seq<Frame>, all: seq<Frame>)
    requires LoopAct(a) && LoopCan(a, c) && LoopDo(a, c).toAgent == []
    requires Path(Then(c, LoopDo(a, c)), acts, c', written) && all == LoopDo(a, c).toTunnel + written
    ensures Path(c, [a] + acts, c', all)
  {
    hide *;
    LoopSteps(a, c);
    PathCons(c, a, acts, c', written);
    assert [] + LoopDo(a, c).toTunnel + written == all;
  }

  /** Or with one of an open thread or a target reader. */
  lemma TargetFirst(c: Ctx, a: Act, acts: seq<Act>, c': Ctx, written: seq<Frame>, all: seq<Frame>)
    requires TargetAct(a) && TargetCan(a, c) && TargetDo(a, c).toAgent == []
    requires Path(Then(c, TargetDo(a, c)), acts, c', written) && all == TargetDo(a, c).toTunnel + written
    ensures Path(c, [a] + acts, c', all)
  {
    hide *;
    TargetSteps(a, c);
    PathCons(c, a, acts, c', written);
    assert [] + TargetDo(a, c).toTunnel + written == all;
  }

  lemma LoopClosedIsPath(c: Ctx, ok: bool) returns (acts: seq<Act>)
    requires LoopAt(c, Finding) && CanSend(ok, c.g.agentBroken)
    ensures Path(c, acts, Then(c, LoopClosed(c, ok)), LoopClosed(c, ok).toTunnel)
  {
    hide Path;
    var end, sent := Then(c, LoopClosed(c, ok)), LoopClosed(c, ok).toTunnel;
    var found := Then(c, DoLoopFind(c));
    PathNone(end);
    acts := [];
    if !found.lp.LoopIdle? {
      var taken := Then(found, DoLoopExchange(found));
      if !taken.lp.LoopIdle? {
        var removed := Then(taken, DoLoopRemove(taken));
        LoopFirst(removed, LoopNotify(ok), [], end, [], sent);
        acts := [LoopNotify(ok)] + acts;
        LoopFirst(taken, LoopRemove, acts, end, sent, sent);
        acts := [LoopRemove] + acts;
      }
      LoopFirst(found, LoopExchange, acts, end, sent, sent);
      acts := [LoopExchange] + acts;
    }
    LoopFirst(c, LoopFind, acts, end, sent, sent);
    acts := [LoopFind] + acts;
  }

  /** The steps of `handle_close` on a target reader. */
  predicate ReaderCloses(a: Act) {
    a.TargetFind? || a.TargetExchange? || a.TargetRemove? || a.TargetNotify?
  }

  function ReaderClose(a: Act, c: Ctx): Eff
    requires ReaderCloses(a)
  {
    match a
    case TargetFind => DoTargetFind(c)
    case TargetExchange => DoTargetExchange(c)
    case TargetRemove => DoTargetRemove(c)
    case TargetNotify(ok) => DoTargetNotify(c, ok)
  }

  predicate ReaderMayClose(a: Act, c: Ctx)
    requires ReaderCloses(a)
  {
    match a
    case TargetFind => c.r.t.pc == TargetClosing(Finding)
    case TargetExchange => c.r.t.pc == TargetClosing(Exchanging)
    case TargetRemove => c.r.t.pc == TargetClosing(Removing)
    case TargetNotify(ok) => c.r.t.pc == TargetClosing(Notifying) && CanSend(ok, c.g.agentBroken)
  }

  lemma CloseFirst(c: Ctx, a: Act, acts: seq<Act>, c': Ctx, written: seq<Frame>, all: seq<Frame>)
    requires ReaderCloses(a) && ReaderMayClose(a, c)
    requires Path(Then(c, ReaderClose(a, c)), acts, c', written) && all == ReaderClose(a, c).toTunnel + written
    ensures Path(c, [a] + acts, c', all)
  {
    hide Path;
    TargetFirst(c, a, acts, c', written, all);
  }

  lemma ReaderClosedIsPath(c: Ctx, ok: bool) returns (acts: seq<Act>)
    requires c.r.t.pc == TargetClosing(Finding) && CanSend(ok, c.g.agentBroken)
    ensures Path(c, acts, Then(c, ReaderClosed(c, ok)), ReaderClosed(c, ok).toTunnel)
  {
    hide Path, TargetDo, TargetCan;
    var end, sent := Then(c, ReaderClosed(c, ok)), ReaderClosed(c, ok).toTunnel;
    var found := Then(c, DoTargetFind(c));
    PathNone(end);
    acts := [];
    if !found.r.t.pc.ReaderDone? {
      var taken := Then(found, DoTargetExchange(found));
      if !taken.r.t.pc.ReaderDone? {
        var removed := Then(taken, DoTargetRemove(taken));
        CloseFirst(removed, TargetNotify(ok), [], end, [], sent);
        acts := [TargetNotify(ok)] + acts;
        CloseFirst(taken, TargetRemove, acts, end, sent, sent);
        acts := [TargetRemove] + acts;
      }
      CloseFirst(found, TargetExchange, acts, end, sent, sent);
      acts := [TargetExchange] + acts;
    }
    CloseFirst(c, TargetFind, acts, end, sent, sent);
    acts := [TargetFind] + acts;
  }

  // ---- handle_data ----------------------------------------------------------------------------------

  /** `handle_data` on a DATA frame, from the dispatch on. */
  function DataHandled(c: Ctx, f: Frame, d: Delivery, ok: bool): Eff
    requires f.tag == DATA && (d.FailedAfter? ==> d.k <= |f.payload|)
  {
    var at := c.(lp := Dispatched(f, c.r));
    if at.lp.LoopRefusing? then DoLoopRefuse(at, ok)
    else if d.Delivered? then DoLoopWrite(at)
    else LoopClosed(Then(at, DoLoopWriteFail(at, d.k)), ok)
  }

  lemma DataHandledIsPath(c: Ctx, f: Frame, d: Delivery, ok: bool) returns (acts: seq<Act>)
    requires f.tag == DATA && f.id == c.id && (d.FailedAfter? ==> d.k <= |f.payload|) && CanSend(ok, c.g.agentBroken)
    ensures
      var e := DataHandled(c, f, d, ok);
      Path(c.(lp := Dispatched(f, c.r)), acts, Then(c, e), e.toTunnel)
  {
    hide Path, LoopClosed;
    var at, e := c.(lp := Dispatched(f, c.r)), DataHandled(c, f, d, ok);
    PathNone(Then(c, e));
    if at.lp.LoopRefusing? {
      acts := [LoopRefuse(ok)];
      LoopFirst(at, LoopRefuse(ok), [], Then(c, e), [], e.toTunnel);
    } else if d.Delivered? {
      acts := [LoopWrite];
      LoopFirst(at, LoopWrite, [], Then(c, e), [], e.toTunnel);
    } else {
      var failed := Then(at, DoLoopWriteFail(at, d.k));
      acts := LoopClosedIsPath(failed, ok);
      LoopFirst(at, LoopWriteFail(d.k), acts, Then(c, e), e.toTunnel, e.toTunnel);
      acts := [LoopWriteFail(d.k)] + acts;
    }
    assert acts + [] == acts;
  }

  // ---- handle_open ----------------------------------------------------------------------------------

  /** `handle_open` on the payload of an OPEN frame; `error` is the kernel's answer and `ok` the fate of
      the reply. */
  function OpenHandled(c: Ctx, error: Option<string>, ok: bool): Eff
    requires c.r.o.OpenStarted?
  {
    if Allowed(c.r.o.payload, c.g.allow) && error.None? then
      var connected := Then(c, DoOpenConnect(c));
      var added := Then(connected, DoOpenAdd(connected));
      DoOpenOkSend(added, ok)
    else
      var rejected := Then(c, DoOpenReject(c, if error.Some? then error.value else ""));
      DoOpenErrorSend(rejected, ok)
  }

  lemma OpenHandledIsPath(c: Ctx, error: Option<string>, ok: bool) returns (acts: seq<Act>)
    requires c.r.o.OpenStarted? && CanSend(ok, c.g.agentBroken)
    ensures Path(c, acts, Then(c, OpenHandled(c, error, ok)), OpenHandled(c, error, ok).toTunnel)
  {
    hide Path, Allowed, RejectText;
    var end, sent := Then(c, OpenHandled(c, error, ok)), OpenHandled(c, error, ok).toTunnel;
    PathNone(end);
    if Allowed(c.r.o.payload, c.g.allow) && error.None? {
      var connected := Then(c, DoOpenConnect(c));
      var added := Then(connected, DoOpenAdd(connected));
      TargetFirst(added, OpenOkSend(ok), [], end, [], sent);
      acts := [OpenOkSend(ok)] + [];
      TargetFirst(connected, OpenAdd, acts, end, sent, sent);
      acts := [OpenAdd] + acts;
      TargetFirst(c, OpenConnect, acts, end, sent, sent);
      acts := [OpenConnect] + acts;
    } else {
      var text := if error.Some? then error.value else "";
      var rejected := Then(c, DoOpenReject(c, text));
      TargetFirst(rejected, OpenErrorSend(ok), [], end, [], sent);
      acts := [OpenErrorSend(ok)] + [];
      TargetFirst(c, OpenReject(text), acts, end, sent, sent);
      acts := [OpenReject(text)] + acts;
    }
  }

  // ---- target_reader ----------------------------------------------------------------------------------

  /** What the target reader writes to a channel that takes `budget` more frames, when `chunks` is what
      the target sends before it closes. */
  function Relayed(id: nat, chunks: seq<string>, budget: nat): seq<Frame> {
    if budget == 0 then []
    else if chunks == [] then [CloseFrame(id)]
    else [Frame(DATA, id, chunks[0])] + Relayed(id, chunks[1..], budget - 1)
  }

  function Joined(chunks: seq<string>): string {
    if chunks == [] then "" else chunks[0] + Joined(chunks[1..])
  }

  /** What it reads: one chunk more than it can send, if there is one. */
  function ReadUp(chunks: seq<string>, budget: nat): string {
    if chunks == [] then ""
    else if budget == 0 then chunks[0]
    else chunks[0] + ReadUp(chunks[1..], budget - 1)
  }

  /** The whole of `target_reader`. */
  function ReaderRun(c: Ctx, chunks: seq<string>, budget: nat): Ctx
    decreases |chunks|
  {
    if chunks == [] then
      var at := c.(r := c.r.(t := c.r.t.(pc := TargetClosing(Finding))));
      Then(at, ReaderClosed(at, budget > 0))
    else
      var read := c.(r := c.r.(t := c.r.t.(read := c.r.t.read + chunks[0])));
      if budget == 0 then
        var at := read.(r := read.r.(t := read.r.t.(pc := TargetClosing(Finding))),
                        g := read.g.(connected := false, agentBroken := true));
        Then(at, ReaderClosed(at, false))
      else ReaderRun(read, chunks[1..], budget - 1)
  }

  /** One round of its loop: the test, a chunk, and the frame for it. */
  lemma ChunkIsPath(c: Ctx, chunk: string, ok: bool, acts: seq<Act>, end: Ctx, written: seq<Frame>, all: seq<Frame>)
    returns (acts': seq<Act>)
    requires c.r.t.pc.Checking? && !c.r.t.closed && c.g.connected && 1 <= |chunk| <= RELAY_CHUNK && CanSend(ok, c.g.agentBroken)
    requires
      var t := c.r.t.(read := c.r.t.read + chunk);
      Path(if ok then c.(r := c.r.(t := t))
           else c.(r := c.r.(t := t.(pc := TargetClosing(Finding))), g := c.g.(connected := false, agentBroken := true)),
           acts, end, written)
    requires all == (if ok then [Frame(DATA, c.id, chunk)] else []) + written
    ensures Path(c, acts', end, all)
  {
    hide Path;
    var reading := Then(c, DoTargetCheck(c));
    var held := Then(reading, DoTargetRead(reading, chunk));
    TargetFirst(held, TargetForward(ok), acts, end, written, all);
    acts' := [TargetForward(ok)] + acts;
    TargetFirst(reading, TargetRead(chunk), acts', end, all, all);
    acts' := [TargetRead(chunk)] + acts';
    TargetFirst(c, TargetCheck, acts', end, all, all);
    acts' := [TargetCheck] + acts';
  }

  lemma EndIsPath(c: Ctx, ok: bool) returns (acts: seq<Act>)
    requires c.r.t.pc.Checking? && !c.r.t.closed && c.g.connected && CanSend(ok, c.g.agentBroken)
    ensures
      var at := c.(r := c.r.(t := c.r.t.(pc := TargetClosing(Finding))));
      Path(c, acts, Then(at, ReaderClosed(at, ok)), ReaderClosed(at, ok).toTunnel)
  {
    hide Path, ReaderClosed;
    var reading := Then(c, DoTargetCheck(c));
    var at := Then(reading, DoTargetEof(reading));
    var e := ReaderClosed(at, ok);
    acts := ReaderClosedIsPath(at, ok);
    TargetFirst(reading, TargetEof, acts, Then(at, e), e.toTunnel, e.toTunnel);
    acts := [TargetEof] + acts;
    TargetFirst(c, TargetCheck, acts, Then(at, e), e.toTunnel, e.toTunnel);
    acts := [TargetCheck] + acts;
  }

  lemma {:induction false} ReaderRunIsPath(c: Ctx, chunks: seq<string>, budget: nat) returns (acts: seq<Act>)
    requires c.r.t.pc.Checking? && c.r.t.inTable && !c.r.t.closed && c.g.connected && !c.g.agentBroken
    requires forall i :: 0 <= i < |chunks| ==> 1 <= |chunks[i]| <= RELAY_CHUNK
    ensures Path(c, acts, ReaderRun(c, chunks, budget), Relayed(c.id, chunks, budget))
    decreases |chunks|
  {
    hide Path;
    var end, sent := ReaderRun(c, chunks, budget), Relayed(c.id, chunks, budget);
    if chunks == [] {
      acts := EndIsPath(c, budget > 0);
    } else if budget == 0 {
      var at := c.(r := c.r.(t := c.r.t.(read := c.r.t.read + chunks[0], pc := TargetClosing(Finding))),
                   g := c.g.(connected := false, agentBroken := true));
      acts := ReaderClosedIsPath(at, false);
      acts := ChunkIsPath(c, chunks[0], false, acts, end, [], sent);
    } else {
      var next := c.(r := c.r.(t := c.r.t.(read := c.r.t.read + chunks[0])));
      acts := ReaderRunIsPath(next, chunks[1..], budget - 1);
      acts := ChunkIsPath(c, chunks[0], true, acts, end, Relayed(c.id, chunks[1..], budget - 1), sent);
    }
  }

  /** How a target reader leaves its stream: closed and out of the table, after reading one chunk more
      than it could send, if there was one. */
  lemma {:induction false} ReaderRunEnds(c: Ctx, chunks: seq<string>, budget: nat)
    requires c.r.t.pc.Checking? && c.r.t.inTable && !c.r.t.closed && c.g.connected && !c.g.agentBroken
    ensures
      var end := ReaderRun(c, chunks, budget);
      && end.r.t.pc.ReaderDone? && end.r.t.closed && end.r.t.closes == c.r.t.closes + 1 && !end.r.t.inTable
      && end.r.t.read == c.r.t.read + ReadUp(chunks, budget) && end.r.t.written == c.r.t.written
      && end.g.connected == (budget > |chunks|) && end.g.agentBroken == !end.g.connected
    decreases |chunks|
  {
    if chunks != [] && budget > 0 {
      ReaderRunEnds(c.(r := c.r.(t := c.r.t.(read := c.r.t.read + chunks[0]))), chunks[1..], budget - 1);
    }
  }
}
