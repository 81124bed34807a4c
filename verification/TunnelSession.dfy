/**
 The objects of the tunnel's side of a session: `ProxyStream` and `AgentSession`
 (agent/src/tunnel/main.cpp).

 The methods are the code between two waits of one thread, run without interference.  What an iteration
 of `read_loop` and a sweep do to a stream is a path of the steps of module `Streams`
 (`HandledIsPath`, `DrainedIsPath`), of which module `Mux` takes any interleaving.
 */
module TunnelSession {
  import opened Text
  import opened Frames
  import opened Streams

  /** `clientCloses`, `toClient` and `closeTaken` record what has been done to the client socket. */
  class ProxyStream {
    const id: nat
    var clientClosed: bool
    var isOpen: bool
    var closed: bool
    var error: string
    var clientCloses: nat
    var toClient: string
    var closeTaken: bool

    constructor (id: nat)
      ensures this.id == id && Value(false) == BLANK.p
    {
      this.id := id;
      clientClosed, isOpen, closed, error := false, false, false, "";
      clientCloses, toClient, closeTaken := 0, "", false;
    }

    ghost function Value(registered: bool): Proxy
      reads this
    {
      Proxy(registered, false, false, isOpen, closed, error, clientClosed, clientCloses, toClient, closeTaken)
    }

    /** The body of the loop of `close_all_streams`. */
    method Drain(reason: string)
      modifies this`error, this`closed, this`clientClosed, this`clientCloses
      ensures error == reason && closed && clientClosed
      ensures clientCloses == old(clientCloses) + (if old(clientClosed) then 0 else 1)
      ensures forall registered :: Value(false) == Drained(old(Value(registered)), reason)
    {
      error := reason;
      closed := true;
      CloseClient();
    }

    /** `close_proxy_client` */
    method CloseClient()
      modifies this`clientClosed, this`clientCloses
      ensures clientCloses == old(clientCloses) + (if old(clientClosed) then 0 else 1)
      ensures clientClosed && forall registered :: Value(registered) == ClosedClient(old(Value(registered)))
    {
      var wasClosed := clientClosed;
      clientClosed := true;
      if !wasClosed {
        clientCloses := clientCloses + 1;
      }
    }
  }

  /** A stream after a whole `close_all_streams` has gone through it. */
  function Drained(p: Proxy, reason: string): Proxy {
    ClosedClient(p.(registered := false, error := reason, closed := true))
  }

  // ---- what one iteration of read_loop amounts to -------------------------------------------------

  function Then(c: Ctx, e: Eff): Ctx {
    c.(r := e.r, g := e.g, rd := e.rd, lp := e.lp)
  }

  /** The kernel's answer to a `send_all` of a payload: everything, or a failure after `k` bytes. */
  datatype Delivery = Delivered | FailedAfter(k: nat)

  /** From a failed client write or a CLOSE to the end of the iteration. */
  function Dropped(c: Ctx): Eff {
    DoReaderCloses(Then(c, DoReaderUnregister(c)))
  }

  /** The steps `read_loop` takes on a frame whose stream it has found, with no other thread in
      between: `d` is the fate of a client write and `sendOk` that of a CLOSE sent back. */
  function Handled(c: Ctx, d: Delivery, sendOk: bool): Eff
    requires c.rd.ReaderFound?
    requires d.FailedAfter? ==> d.k <= |c.rd.frame.payload|
  {
    var f := c.rd.frame;
    if f.tag == OPEN_OK then DoTakeOpenOk(c)
    else if f.tag == ERROR then
      var e := DoTakeError(c);
      if e.rd.ReaderErrorClosing? then DoReaderCloses(Then(c, e)) else e
    else if f.tag == DATA then
      if d.Delivered? then DoTakeData(c)
      else
        var failed := Then(c, DoTakeDataFail(c, d.k));
        var checked := Then(failed, DoReaderSendCheck(failed));
        if checked.rd.ReaderChecked? then
          var sent := DoReaderSend(checked, sendOk);
          Dropped(Then(checked, sent)).(toAgent := sent.toAgent)
        else Dropped(checked)
    else if f.tag == CLOSE then Dropped(Then(c, DoTakeClose(c)))
    else Keep(c).(rd := ReaderIdle)
  }

  /** Acts taken one after the other by threads of stream `c.id`, and what they write. */
  predicate Path(c: Ctx, acts: seq<Act>, c': Ctx, written: seq<Frame>)
    decreases |acts|
  {
    if acts == [] then c' == c && written == []
    else
      Enabled(acts[0], c) &&
      var e := Do(acts[0], c);
      e.toAgent + e.toTunnel <= written &&
      Path(Then(c, e), acts[1..], c', written[|e.toAgent| + |e.toTunnel|..])
  }

  lemma PathCons(c: Ctx, a: Act, acts: seq<Act>, c': Ctx, written: seq<Frame>)
    requires Enabled(a, c) && Path(Then(c, Do(a, c)), acts, c', written)
    ensures Path(c, [a] + acts, c', Do(a, c).toAgent + Do(a, c).toTunnel + written)
  {
    hide Do, Enabled;
    assert ([a] + acts)[1..] == acts;
    var e := Do(a, c);
    assert (e.toAgent + e.toTunnel + written)[|e.toAgent| + |e.toTunnel|..] == written;
  }

  /** A path begins with one step of `read_loop`. */
  lemma ReaderFirst(c: Ctx, a: Act, acts: seq<Act>, c': Ctx, written: seq<Frame>, all: seq<Frame>)
    requires ReaderAct(a) && ReaderCan(a, c) && ReaderDo(a, c).toTunnel == []
    requires Path(Then(c, ReaderDo(a, c)), acts, c', written) && all == ReaderDo(a, c).toAgent + written
    ensures Path(c, [a] + acts, c', all)
  {
    hide *;
    ReaderSteps(a, c);
    PathCons(c, a, acts, c', written);
    assert ReaderDo(a, c).toAgent + [] + written == all;
  }

  lemma NoSteps(c: Ctx)
    ensures Path(c, [], c, [])
  {
  }

  lemma DroppedIsPath(c: Ctx) returns (acts: seq<Act>)
    requires OnReader(c) && c.rd.ReaderUnregistering?
    ensures Path(c, acts, Then(c, Dropped(c)), [])
  {
    hide Path;
    var c1 := Then(c, DoReaderUnregister(c));
    var c2 := Then(c1, DoReaderCloses(c1));
    NoSteps(c2);
    ReaderFirst(c1, ReaderCloseClient, [], c2, [], []);
    acts := [ReaderCloseClient] + [];
    ReaderFirst(c, ReaderUnregister, acts, c2, [], []);
    acts := [ReaderUnregister] + acts;
  }

  lemma FailedDataIsPath(c: Ctx, k: nat, sendOk: bool) returns (acts: seq<Act>)
    requires Found(c, DATA) && k <= |c.rd.frame.payload| && CanSend(sendOk, c.g.tunnelBroken)
    ensures
      var e := Handled(c, FailedAfter(k), sendOk);
      Path(c, acts, Then(c, e), e.toAgent)
  {
    hide Path;
    var e := Handled(c, FailedAfter(k), sendOk);
    var end := Then(c, e);
    var failed := Then(c, DoTakeDataFail(c, k));
    var checked := Then(failed, DoReaderSendCheck(failed));
    if checked.rd.ReaderChecked? {
      var sent := Then(checked, DoReaderSend(checked, sendOk));
      acts := DroppedIsPath(sent);
      ReaderFirst(checked, ReaderSend(sendOk), acts, end, [], e.toAgent);
      acts := [ReaderSend(sendOk)] + acts;
    } else {
      acts := DroppedIsPath(checked);
    }
    ReaderFirst(failed, ReaderSendCheck, acts, end, e.toAgent, e.toAgent);
    acts := [ReaderSendCheck] + acts;
    ReaderFirst(c, TakeDataFail(k), acts, end, e.toAgent, e.toAgent);
    acts := [TakeDataFail(k)] + acts;
  }

  lemma ErrorIsPath(c: Ctx, d: Delivery, sendOk: bool) returns (acts: seq<Act>)
    requires Found(c, ERROR)
    requires d.FailedAfter? ==> d.k <= |c.rd.frame.payload|
    ensures Path(c, acts, Then(c, Handled(c, d, sendOk)), [])
  {
    hide Path;
    var end := Then(c, Handled(c, d, sendOk));
    var told := Then(c, DoTakeError(c));
    NoSteps(end);
    acts := [];
    if told.rd.ReaderErrorClosing? {
      ReaderFirst(told, ErrorCloseClient, [], end, [], []);
      acts := [ErrorCloseClient] + acts;
    }
    ReaderFirst(c, TakeError, acts, end, [], []);
    acts := [TakeError] + acts;
  }

  /** What one iteration of `read_loop` does without interference is one of the paths of its atomic
      steps: what module `Mux` proves of every interleaving holds of it. */
  lemma HandledIsPath(c: Ctx, d: Delivery, sendOk: bool) returns (acts: seq<Act>)
    requires OnReader(c) && c.rd.ReaderFound? && Answer(c.rd.frame.tag)
    requires d.FailedAfter? ==> d.k <= |c.rd.frame.payload|
    requires CanSend(sendOk, c.g.tunnelBroken)
    ensures
      var e := Handled(c, d, sendOk);
      Path(c, acts, Then(c, e), e.toAgent)
  {
    hide Path, Dropped;
    var end, tag := Then(c, Handled(c, d, sendOk)), c.rd.frame.tag;
    NoSteps(end);
    if tag == OPEN_OK {
      ReaderFirst(c, TakeOpenOk, [], end, [], []);
      acts := [TakeOpenOk] + [];
    } else if tag == ERROR {
      acts := ErrorIsPath(c, d, sendOk);
    } else if tag == DATA && d.Delivered? {
      ReaderFirst(c, TakeData, [], end, [], []);
      acts := [TakeData] + [];
    } else if tag == DATA {
      acts := FailedDataIsPath(c, d.k, sendOk);
    } else {
      acts := DroppedIsPath(Then(c, DoTakeClose(c)));
      DroppedWritesNothing(Then(c, DoTakeClose(c)));
      ReaderFirst(c, TakeClose, acts, end, [], []);
      acts := [TakeClose] + acts;
    }
  }

  lemma DroppedWritesNothing(c: Ctx)
    ensures Dropped(c).toAgent == []
  {
  }

  predicate Answer(tag: nat) {
    tag == OPEN_OK || tag == ERROR || tag == DATA || tag == CLOSE
  }

  /** The part of `close_all_streams` that is about one stream is the path of its two steps. */
  lemma DrainedIsPath(c: Ctx, reason: string)
    requires c.r.p.drainFlag && !c.r.p.registered && !c.r.p.drainClient
    ensures
      var drained := c.(r := c.r.(p := Drained(c.r.p, reason).(drainFlag := false)));
      Path(c, [DrainFlag(reason), DrainClient], drained, [])
  {
    hide Path;
    var flagged := Then(c, DoDrainFlag(c, reason));
    var drained := Then(flagged, DoDrainClient(flagged));
    assert drained == c.(r := c.r.(p := Drained(c.r.p, reason).(drainFlag := false)));
    NoSteps(drained);
    HandlerFirst(flagged, DrainClient, [], drained);
    assert [DrainClient] + [] == [DrainClient];
    HandlerFirst(c, DrainFlag(reason), [DrainClient], drained);
    assert [DrainFlag(reason)] + [DrainClient] == [DrainFlag(reason), DrainClient];
  }

  lemma HandlerFirst(c: Ctx, a: Act, acts: seq<Act>, c': Ctx)
    requires HandlerAct(a) && HandlerCan(a, c) && HandlerDo(a, c).toAgent == [] && HandlerDo(a, c).toTunnel == []
    requires Path(Then(c, HandlerDo(a, c)), acts, c', [])
    ensures Path(c, [a] + acts, c', [])
  {
    hide *;
    HandlerSteps(a, c);
    PathCons(c, a, acts, c', []);
    var none: seq<Frame> := [];
    assert none + none + none == none;
  }

  /** `channelOk` answers each write to the channel; once it has refused one it refuses all. */
  class AgentSession {
    var alive: bool
    var broken: bool
    var wire: seq<Frame>
    var streams: map<nat, ProxyStream>

    constructor ()
      ensures Valid() && alive && !broken && wire == [] && streams == map[]
    {
      alive, broken, wire, streams := true, false, [], map[];
    }

    ghost predicate Valid()
      reads this
    {
      forall id :: id in streams ==> streams[id].id == id
    }

    ghost function Flags(): Globals
      reads this
    {
      Globals(alive, broken, false, true, false, {})
    }

    ghost function Context(stream: ProxyStream, rd: ReaderPc): Ctx
      reads this, stream
    {
      Ctx(stream.id, BLANK.(p := stream.Value(stream.id in streams)), Flags(), rd, LoopIdle)
    }

    /** `send`: the test of `alive_`, then the write; a failed write ends the session. */
    method Send(frame: Frame, channelOk: bool) returns (ok: bool)
      modifies this`alive, this`broken, this`wire
      ensures ok == (old(alive) && !old(broken) && channelOk)
      ensures wire == if ok then old(wire) + [frame] else old(wire)
      ensures Flags() == if old(alive) && !ok then SessionLost(old(Flags())) else old(Flags())
    {
      if !alive {
        return false;
      }
      if broken || !channelOk {
        broken := true;
        alive := false;
        return false;
      }
      wire := wire + [frame];
      return true;
    }

    method RegisterStream(stream: ProxyStream)
      requires Valid()
      modifies this`streams
      ensures Valid() && streams == old(streams)[stream.id := stream]
    {
      streams := streams[stream.id := stream];
    }

    method UnregisterStream(id: nat)
      requires Valid()
      modifies this`streams
      ensures Valid() && streams == old(streams) - {id}
    {
      streams := streams - {id};
    }

    method FindStream(id: nat) returns (stream: ProxyStream?)
      ensures stream == if id in streams then streams[id] else null
    {
      if id in streams {
        return streams[id];
      }
      return null;
    }

    /** `close_all_streams`: the table is emptied at once; then every stream that was in it is
        flagged and its client closed, each exactly as two drain steps would. */
    method CloseAllStreams(reason: string)
      requires Valid()
      modifies this`streams, streams.Values
      ensures Valid() && streams == map[]
      ensures forall id :: id in old(streams) ==>
                old(streams)[id].Value(false) == Drained(old(streams[id].Value(true)), reason)
      ensures forall id :: id in old(streams) ==>
                var stream := old(streams)[id];
                && stream.closed && stream.error == reason && stream.clientClosed && stream.isOpen == old(streams[id].isOpen)
                && stream.clientCloses == old(streams[id].clientCloses) + (if old(streams[id].clientClosed) then 0 else 1)
    {
      var copy := streams;
      streams := map[];
      var todo := copy.Keys;
      while todo != {}
        modifies copy.Values
        invariant todo <= copy.Keys && streams == map[]
        invariant forall id :: id in todo ==> copy[id].Value(true) == old(copy[id].Value(true))
        invariant forall id :: id in copy.Keys - todo ==>
                    copy[id].Value(false) == Drained(old(copy[id].Value(true)), reason)
        decreases todo
      {
        var id :| id in todo;
        copy[id].Drain(reason);
        todo := todo - {id};
      }
    }

    /** `close` */
    method Close()
      modifies this`alive, this`broken
      ensures !alive && (old(alive) ==> broken) && (!old(alive) ==> broken == old(broken))
    {
      var wasAlive := alive;
      alive := false;
      if wasAlive {
        broken := true;
      }
    }

    /** The DATA branch of `read_loop`. */
    method Deliver(stream: ProxyStream, f: Frame, d: Delivery, channelOk: bool)
      requires Valid() && f.tag == DATA && stream.id == f.id && f.id in streams
      requires d.FailedAfter? ==> d.k <= |f.payload|
      modifies this, stream
      ensures Valid()
      ensures streams == if d.Delivered? then old(streams) else old(streams) - {f.id}
      ensures d.FailedAfter? ==> stream.clientClosed
      ensures stream.toClient == old(stream.toClient) + (if d.Delivered? then f.payload else f.payload[..d.k])
      ensures stream.isOpen == old(stream.isOpen) && stream.closed == old(stream.closed) && stream.error == old(stream.error)
      ensures d.Delivered? ==> stream.clientClosed == old(stream.clientClosed) && wire == old(wire) && alive == old(alive)
      ensures d.FailedAfter? ==>
                wire == old(wire) + if old(alive) && !old(broken) && channelOk then [CloseFrame(f.id)] else []
      ensures
        var e := Handled(old(Context(stream, ReaderFound(f))), d, channelOk && !old(broken));
        stream.Value(f.id in streams) == e.r.p && Flags() == e.g && wire == old(wire) + e.toAgent
    {
      if d.Delivered? {
        stream.toClient := stream.toClient + f.payload;
        return;
      }
      stream.toClient := stream.toClient + f.payload[..d.k];
      var _ := Send(CloseFrame(f.id), channelOk);
      UnregisterStream(f.id);
      stream.CloseClient();
    }

    /** One iteration of `read_loop` on a received frame.  On a stream that is not in the table it
        does nothing; on one that is, it does exactly the steps of `Handled`. */
    method HandleFrame(f: Frame, d: Delivery, channelOk: bool)
      requires Valid()
      requires d.FailedAfter? ==> d.k <= |f.payload|
      modifies this, streams.Values
      ensures Valid()
      ensures forall id :: id in old(streams) && id != f.id ==>
                id in streams && streams[id] == old(streams)[id] && unchanged(old(streams)[id])
      ensures forall id :: id in streams ==> id in old(streams) && streams[id] == old(streams)[id]
      ensures f.id in old(streams) && f.id !in streams ==> old(streams)[f.id].clientClosed
      ensures f.id !in old(streams) ==> alive == old(alive) && broken == old(broken) && wire == old(wire)
      ensures f.id in old(streams) ==>
                var stream := old(streams)[f.id];
                var e := Handled(old(Context(streams[f.id], ReaderFound(f))), d, channelOk && !old(broken));
                stream.Value(f.id in streams) == e.r.p && Flags() == e.g && wire == old(wire) + e.toAgent
      // the same in the stream's own fields
      ensures f.id in old(streams) ==>
                var stream := old(streams)[f.id];
                && (f.id in streams <==> f.tag != CLOSE && (f.tag != DATA || d.Delivered?))
                && stream.isOpen == (old(streams[f.id].isOpen) || f.tag == OPEN_OK)
                && stream.closed == (old(streams[f.id].closed) || f.tag == ERROR || f.tag == CLOSE)
                && stream.error == (if f.tag == ERROR then f.payload else old(streams[f.id].error))
                && stream.toClient == old(streams[f.id].toClient) + Handed(f, d)
                && (f.tag == ERROR && old(streams[f.id].isOpen) ==> stream.clientClosed)
                && (f.tag != DATA || d.Delivered? ==> wire == old(wire) && alive == old(alive))
                && (f.tag == DATA && d.FailedAfter? ==>
                      wire == old(wire) + if old(alive) && !old(broken) && channelOk then [CloseFrame(f.id)] else [])
    {
      var stream := FindStream(f.id);
      if stream == null {
        return;
      }
      hide Handled;
      if f.tag == DATA {
        Deliver(stream, f, d, channelOk);
      } else {
        Tell(stream, f, d, channelOk);
      }
    }

    /** The branches of `read_loop` for the other types. */
    method Tell(stream: ProxyStream, f: Frame, d: Delivery, channelOk: bool)
      requires Valid() && f.tag != DATA && stream.id == f.id && f.id in streams
      requires d.FailedAfter? ==> d.k <= |f.payload|
      modifies this`streams, stream
      ensures Valid()
      ensures streams == if f.tag == CLOSE then old(streams) - {f.id} else old(streams)
      ensures f.tag == CLOSE ==> stream.clientClosed
      ensures stream.isOpen == (old(stream.isOpen) || f.tag == OPEN_OK)
      ensures stream.closed == (old(stream.closed) || f.tag == ERROR || f.tag == CLOSE)
      ensures stream.error == if f.tag == ERROR then f.payload else old(stream.error)
      ensures stream.clientClosed == (old(stream.clientClosed) || f.tag == CLOSE || (f.tag == ERROR && old(stream.isOpen)))
      ensures stream.toClient == old(stream.toClient)
      ensures
        var e := Handled(old(Context(stream, ReaderFound(f))), d, channelOk && !old(broken));
        stream.Value(f.id in streams) == e.r.p && Flags() == e.g && e.toAgent == []
    {
      if f.tag == OPEN_OK {
        stream.isOpen := true;
        return;
      }
      if f.tag == ERROR {
        stream.error := f.payload;
        var closeClient := stream.isOpen;
        stream.closed := true;
        if closeClient {
          stream.CloseClient();
        }
        return;
      }
      if f.tag == CLOSE {
        stream.closed := true;
        stream.closeTaken := true;
        UnregisterStream(f.id);
        stream.CloseClient();
      }
    }

    /** `read_loop` on the frames that arrive before the channel fails, each with the fate of its writes:
        when it is over the session is dead, its table empty, and every client it knew closed. */
    method ReadLoop(frames: seq<Frame>, fates: seq<Fate>, reason: string)
      requires Valid() && |fates| == |frames|
      requires forall i :: 0 <= i < |frames| && fates[i].delivery.FailedAfter? ==> fates[i].delivery.k <= |frames[i].payload|
      modifies this, streams.Values
      ensures Valid() && !alive && streams == map[]
      ensures forall id :: id in old(streams) ==> old(streams)[id].clientClosed
    {
      hide Handled;
      ghost var known := streams;
      var i := 0;
      while alive && i < |frames|
        modifies this, known.Values
        invariant 0 <= i <= |frames| && Valid()
        invariant forall id :: id in streams ==> id in known && streams[id] == known[id]
        invariant forall id :: id in known ==> id in streams || known[id].clientClosed
      {
        HandleFrame(frames[i], fates[i].delivery, fates[i].closeOk);
        i := i + 1;
      }
      alive := false;
      CloseAllStreams(reason);
    }
  }

  /** The bytes of a frame the client has been handed. */
  function Handed(f: Frame, d: Delivery): string
    requires d.FailedAfter? ==> d.k <= |f.payload|
  {
    if f.tag != DATA then "" else if d.Delivered? then f.payload else f.payload[..d.k]
  }

  /** What becomes of a payload handed to the client, and of the CLOSE sent back if that fails. */
  datatype Fate = Fate(delivery: Delivery, closeOk: bool)
}
