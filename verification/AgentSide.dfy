/**
 The objects of the agent's side of a session: `TargetStream` and `Agent`
 (agent/src/agent/main.cpp).

 The methods are one thread's code without interference; their contracts give its effect as module
 `AgentPaths` composes it of the steps of module `Streams`, and proves to be a path of them.
 */
module AgentSide {
  import opened Text
  import opened Endpoints
  import opened Frames
  import opened Streams
  import opened TunnelSession
  import opened AgentPaths

  /** `closes`, `read` and `written` record what has been done to the target socket. */
  class TargetStream {
    const id: nat
    const host: string
    const port: nat
    var closed: bool
    var closes: nat
    var read: string
    var written: string

    constructor (id: nat, host: string, port: nat)
      ensures this.id == id && this.host == host && this.port == port
      ensures !closed && closes == 0 && read == "" && written == ""
    {
      this.id, this.host, this.port := id, host, port;
      closed, closes, read, written := false, 0, "", "";
    }

    ghost function Value(inTable: bool): Target
      reads this
    {
      Target(true, host, port, NoReader, inTable, false, closed, closes, read, written, false)
    }

    /** `closed.exchange(true)`, and the socket is closed by whoever finds it open. */
    method Close() returns (won: bool)
      modifies this`closed, this`closes
      ensures won == !old(closed) && closed && closes == old(closes) + (if won then 1 else 0)
      ensures forall inTable :: Value(inTable) == ClosedTarget(old(Value(inTable)))
    {
      won := !closed;
      closed := true;
      if won {
        closes := closes + 1;
      }
    }
  }

  /** `budget`: how many more writes the channel accepts; `broken`: it has refused one. */
  class Agent {
    const allow: set<string>
    var connected: bool
    var broken: bool
    var budget: nat
    var wire: seq<Frame>
    var streams: map<nat, TargetStream>

    constructor (allow: set<string>, budget: nat)
      ensures this.allow == allow && this.budget == budget
      ensures Valid() && connected && !broken && wire == [] && streams == map[]
    {
      this.allow, this.budget := allow, budget;
      connected, broken, wire, streams := true, false, [], map[];
    }

    ghost predicate Valid()
      reads this
    {
      (broken ==> budget == 0 && !connected) && forall id :: id in streams ==> streams[id].id == id
    }

    ghost function Flags(): Globals
      reads this
    {
      Globals(true, false, false, connected, broken, allow)
    }

    /** What a thread sees of stream `id`, `lp` being where the session loop is. */
    ghost function Context(id: nat, lp: LoopPc): Ctx
      reads this, streams.Values
    {
      Ctx(id, if id in streams then BLANK.(o := OpenDone, t := streams[id].Value(true)) else BLANK, Flags(), ReaderIdle, lp)
    }

    /** A stream, its table entry, the flags and the wire are as `e` leaves them. */
    ghost predicate After(stream: TargetStream, e: Eff, wire: seq<Frame>)
      reads this, stream
    {
      stream.Value(stream.id in streams) == e.r.t && Flags() == e.g && this.wire == wire + e.toTunnel
    }

    method Send(frame: Frame) returns (ok: bool)
      modifies this`connected, this`broken, this`budget, this`wire
      ensures Flags() == if ok then old(Flags()) else old(Flags()).(connected := false, agentBroken := true)
      ensures ok == (old(budget) > 0)
      ensures ok ==> wire == old(wire) + [frame] && budget == old(budget) - 1 && connected == old(connected)
      ensures !ok ==> wire == old(wire) && budget == 0 && !connected
    {
      if budget == 0 {
        connected, broken := false, true;
        return false;
      }
      wire, budget := wire + [frame], budget - 1;
      return true;
    }

    method FindStream(id: nat) returns (stream: TargetStream?)
      ensures stream == if id in streams then streams[id] else null
    {
      if id in streams {
        return streams[id];
      }
      return null;
    }

    method AddStream(stream: TargetStream)
      requires Valid()
      modifies this`streams
      ensures Valid() && streams == old(streams)[stream.id := stream]
    {
      streams := streams[stream.id := stream];
    }

    method RemoveStream(id: nat)
      requires Valid()
      modifies this`streams
      ensures Valid() && streams == old(streams) - {id}
    {
      streams := streams - {id};
    }

    /** `handle_open`: refuse with the text of `RejectText`, or connect, add the stream to the table
        and only then answer OPEN_OK.  `connectError` is the resolver's or the kernel's answer. */
    method HandleOpen(f: Frame, connectError: Option<string>) returns (stream: TargetStream?)
      requires Valid()
      modifies this
      ensures Valid()
      ensures stream == null ==> streams == old(streams)
      ensures stream != null <==> Allowed(f.payload, allow) && connectError.None?
      ensures stream != null ==>
                fresh(stream) && streams == old(streams)[f.id := stream] &&
                stream.Value(true) == Connected(f)
      ensures var answer :=
                if stream != null then Frame(OPEN_OK, f.id, "ok")
                else Frame(ERROR, f.id, RejectText(f.payload, allow, if connectError.Some? then connectError.value else ""));
              wire == if old(budget) > 0 then old(wire) + [answer] else old(wire)
      ensures
        var endpoint := ParseOpenPayload(f.payload);
        var answer :=
          if endpoint.None? then Frame(ERROR, f.id, "invalid OPEN payload")
          else
            var text := EndpointToString(endpoint.value.host, endpoint.value.port);
            if text !in allow then Frame(ERROR, f.id, "target not allowed: " + text)
            else if connectError.Some? then Frame(ERROR, f.id, "target connect failed: " + connectError.value)
            else Frame(OPEN_OK, f.id, "ok");
        && wire == old(wire) + (if old(budget) > 0 then [answer] else [])
        && (stream != null <==> answer.tag == OPEN_OK)
        && (stream != null ==>
              stream.id == f.id && stream.host == endpoint.value.host && stream.port == endpoint.value.port && !stream.closed)
      ensures
        var c := Ctx(f.id, BLANK.(o := OpenStarted(f.payload)), old(Flags()), ReaderIdle, LoopIdle);
        var e := OpenHandled(c, connectError, old(budget) > 0);
        && Flags() == e.g && wire == old(wire) + e.toTunnel
        && (stream != null ==> stream.Value(true) == e.r.t.(pc := NoReader))
    {
      stream := null;
      var endpoint := ParseOpenPayload(f.payload);
      if endpoint.None? {
        var _ := Send(Frame(ERROR, f.id, "invalid OPEN payload"));
        return;
      }
      var e := endpoint.value;
      if EndpointToString(e.host, e.port) !in allow {
        var _ := Send(Frame(ERROR, f.id, "target not allowed: " + EndpointToString(e.host, e.port)));
        return;
      }
      if connectError.Some? {
        var _ := Send(Frame(ERROR, f.id, "target connect failed: " + connectError.value));
        return;
      }
      stream := new TargetStream(f.id, e.host, e.port);
      AddStream(stream);
      var _ := Send(Frame(OPEN_OK, f.id, "ok"));
    }

    /** `handle_close`, with notification: of several callers the one that finds the target open
        closes it, takes the stream out of the table and sends CLOSE; the others do nothing. */
    method HandleClose(id: nat)
      requires Valid()
      modifies this`streams, this`connected, this`broken, this`budget, this`wire, streams.Values
      ensures Valid()
      ensures
        var wins := id in old(streams) && !old(streams[id].closed);
        && streams == (if wins then old(streams) - {id} else old(streams))
        && wire == (if wins && old(budget) > 0 then old(wire) + [CloseFrame(id)] else old(wire))
        && (!wins ==> connected == old(connected) && budget == old(budget))
        && (wins && old(budget) == 0 ==> !connected && budget == 0)
        && (wins && old(budget) > 0 ==> connected == old(connected) && budget == old(budget) - 1)
      ensures id in old(streams) ==> old(streams)[id].Value(true) == ClosedTarget(old(streams[id].Value(true)))
      ensures id in old(streams) ==>
                var stream := old(streams)[id];
                && stream.closed && stream.closes == old(streams[id].closes) + (if old(streams[id].closed) then 0 else 1)
                && stream.read == old(streams[id].read) && stream.written == old(streams[id].written)
      ensures id in old(streams) ==>
                After(old(streams)[id], LoopClosed(old(Context(id, LoopClosing(id, Finding))), old(budget) > 0), old(wire))
      ensures forall j :: j in old(streams) && j != id ==> unchanged(old(streams)[j])
    {
      var stream := FindStream(id);
      if stream == null {
        return;
      }
      var won := stream.Close();
      if won {
        RemoveStream(id);
        var _ := Send(CloseFrame(id));
      }
    }

    /** `handle_data`: a stream that is unknown or closed is refused; a failed write closes it. */
    method HandleData(f: Frame, d: Delivery)
      requires Valid()
      requires d.FailedAfter? ==> d.k <= |f.payload|
      modifies this`streams, this`connected, this`broken, this`budget, this`wire, streams.Values
      ensures Valid()
      ensures forall j :: j in old(streams) && j != f.id ==> unchanged(old(streams)[j])
      ensures
        var known := f.id in old(streams) && !old(streams[f.id].closed);
        && (known ==> old(streams)[f.id].written == old(streams[f.id].written) + Accepted(f.payload, d))
        && (known ==> old(streams)[f.id].closed == d.FailedAfter?)
        && (!known && f.id in old(streams) ==> unchanged(old(streams)[f.id]))
        && streams == (if known && d.FailedAfter? then old(streams) - {f.id} else old(streams))
        && wire == (if old(budget) == 0 || (known && d.Delivered?) then old(wire)
                    else old(wire) + [if known then CloseFrame(f.id) else Frame(ERROR, f.id, "unknown stream")])
      ensures f.tag == DATA ==>
                var e := DataHandled(old(Context(f.id, LoopIdle)), f, d, old(budget) > 0);
                && Flags() == e.g && wire == old(wire) + e.toTunnel
                && (f.id in old(streams) ==> After(old(streams)[f.id], e, old(wire)))
    {
      var stream := FindStream(f.id);
      if stream == null || stream.closed {
        var _ := Send(Frame(ERROR, f.id, "unknown stream"));
        return;
      }
      if d.Delivered? {
        stream.written := stream.written + f.payload;
      } else {
        stream.written := stream.written + f.payload[..d.k];
        HandleClose(f.id);
      }
    }

    /** `close_all_streams`: the table is emptied, and every stream that was in it is closed. */
    method CloseAllStreams()
      requires Valid()
      modifies this`streams, streams.Values
      ensures Valid() && streams == map[]
      ensures forall id :: id in old(streams) ==>
                old(streams)[id].Value(false) == ClosedTarget(old(streams[id].Value(false)))
      ensures forall id :: id in old(streams) ==>
                && old(streams)[id].closed
                && old(streams)[id].closes == old(streams[id].closes) + (if old(streams[id].closed) then 0 else 1)
    {
      var copy := streams;
      streams := map[];
      var todo := copy.Keys;
      while todo != {}
        modifies copy.Values
        invariant todo <= copy.Keys && streams == map[]
        invariant forall id :: id in todo ==> copy[id].Value(false) == old(copy[id].Value(false))
        invariant forall id :: id in copy.Keys - todo ==> copy[id].Value(false) == ClosedTarget(old(copy[id].Value(false)))
        decreases todo
      {
        var id :| id in todo;
        var _ := copy[id].Close();
        todo := todo - {id};
      }
    }

    /** `target_reader`, when `chunks` is what the target sends before it closes and no other thread
        interferes: one DATA frame per chunk, in order, then CLOSE, as far as the channel goes. */
    method TargetReader(stream: TargetStream, chunks: seq<string>)
      requires Valid() && stream.id in streams && streams[stream.id] == stream
      requires !stream.closed && connected
      modifies this`streams, this`connected, this`broken, this`budget, this`wire, streams.Values
      ensures Valid() && stream.closed && stream.id !in streams
      ensures wire == old(wire) + Relayed(stream.id, chunks, old(budget))
      ensures connected == (old(budget) > |chunks|)
      ensures connected ==> stream.read == old(stream.read) + Joined(chunks)
      ensures
        var run := ReaderRun(old(Reading(stream)), chunks, old(budget));
        stream.Value(false) == run.r.t.(pc := NoReader, eofClose := false) && Flags() == run.g
    {
      hide ReaderRun, LoopClosed, ReaderClosed;
      var i := 0;
      ghost var at := Reading(stream);
      assert chunks[0..] == chunks;
      while !stream.closed && connected
        modifies this`connected, this`broken, this`budget, this`wire, stream`read
        invariant 0 <= i <= |chunks| && connected
        invariant Valid() && streams == old(streams) && !stream.closed
        invariant wire + Relayed(stream.id, chunks[i..], budget) == old(wire) + Relayed(stream.id, chunks, old(budget))
        invariant budget + i == old(budget)
        invariant stream.read + Joined(chunks[i..]) == old(stream.read) + Joined(chunks)
        invariant ReaderRun(Reading(stream), chunks[i..], budget) == ReaderRun(old(Reading(stream)), chunks, old(budget))
        decreases |chunks| - i
      {
        RunStep(Reading(stream), chunks[i..], budget);
        if i == |chunks| {
          at := Leaving(Reading(stream));
          break;
        }
        stream.read := stream.read + chunks[i];
        assert chunks[i..][0] == chunks[i] && chunks[i..][1..] == chunks[i + 1..];
        var ok := Send(Frame(DATA, stream.id, chunks[i]));
        if !ok {
          at := Leaving(Reading(stream));
          break;
        }
        i := i + 1;
      }
      ghost var c := Context(stream.id, LoopClosing(stream.id, Finding));
      SameClose(c, budget > 0, at);
      HandleClose(stream.id);
    }

    /** What the target reader sees at the top of its loop. */
    ghost function Reading(stream: TargetStream): Ctx
      reads this, streams.Values
    {
      var c := Context(stream.id, LoopIdle);
      c.(r := c.r.(t := c.r.t.(pc := Checking)))
    }
  }

  /** And when it has left the loop. */
  function Leaving(c: Ctx): Ctx {
    c.(r := c.r.(t := c.r.t.(pc := TargetClosing(Finding))))
  }

  lemma RunStep(c: Ctx, chunks: seq<string>, budget: nat)
    ensures
      ReaderRun(c, chunks, budget) ==
        if chunks == [] then Then(Leaving(c), ReaderClosed(Leaving(c), budget > 0))
        else
          var read := c.(r := c.r.(t := c.r.t.(read := c.r.t.read + chunks[0])));
          if budget == 0 then
            var at := Leaving(read.(g := read.g.(connected := false, agentBroken := true)));
            Then(at, ReaderClosed(at, false))
          else ReaderRun(read, chunks[1..], budget - 1)
  {
    hide ReaderClosed;
  }

  /** The part of a payload the kernel has taken. */
  function Accepted(payload: string, d: Delivery): string
    requires d.FailedAfter? ==> d.k <= |payload|
  {
    if d.Delivered? then payload else payload[..d.k]
  }

  ghost function Connected(f: Frame): Target
    requires ParseOpenPayload(f.payload).Some?
  {
    var e := ParseOpenPayload(f.payload).value;
    Target(true, e.host, e.port, NoReader, true, false, false, 0, "", "", false)
  }

  /** On a channel that lasts, every byte of the target goes out before the one CLOSE; on one that
      breaks, a prefix of them goes out and no CLOSE. */
  lemma {:induction false} RelayedBytes(id: nat, chunks: seq<string>, budget: nat)
    ensures DataBytes(Relayed(id, chunks, budget)) == BytesBeforeClose(Relayed(id, chunks, budget))
    ensures DataBytes(Relayed(id, chunks, budget)) <= Joined(chunks)
    ensures budget > |chunks| ==> DataBytes(Relayed(id, chunks, budget)) == Joined(chunks)
    ensures Closes(Relayed(id, chunks, budget)) == if budget > |chunks| then 1 else 0
  {
    if budget > 0 && chunks == [] {
      assert Relayed(id, chunks, budget)[1..] == [];
    } else if budget > 0 {
      RelayedBytes(id, chunks[1..], budget - 1);
      assert Relayed(id, chunks, budget)[1..] == Relayed(id, chunks[1..], budget - 1);
    }
  }
}
