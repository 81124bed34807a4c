/**
 One proxy client from its request to its end: `handle_proxy_client` in agent/src/tunnel/main.cpp,
 run by one thread on a client socket and a session.
 */
module ProxyHandler {
  import opened Text
  import opened Net
  import Endpoints
  import opened Frames
  import opened Streams
  import HttpHeader
  import ProxyRequest
  import opened TunnelSession
  import opened HandlerPaths

  /** How it ends.  The first five are answered with a status line (400, 503 or 502) or not at all. */
  datatype Handling =
    | NoHeader
    | BadRequest(error: string)
    | NoAgent
    | OpenFailed
    | OpenRefused(reason: string)
    | ReplyFailed
    | InitialFailed
    | Ended

  /** The bytes the target is to get: the rewritten request and what the client sends after the bytes
      that were read with it; after a CONNECT only the latter. */
  function Wanted(request: ProxyRequest.Parsed, later: string): string {
    if request.Forward? then request.initialData + later else later
  }

  /** DATA with something in it, or CLOSE. */
  predicate RelayFrame(f: Frame, id: nat) {
    f.id == id && ((f.tag == DATA && f.payload != "") || f.tag == CLOSE)
  }

  predicate AllRelay(frames: seq<Frame>, id: nat) {
    forall i :: 0 <= i < |frames| ==> RelayFrame(frames[i], id)
  }

  /** `frames` relay a prefix of `wanted`; if `whole`, all of it, and then one CLOSE. */
  predicate Serves(frames: seq<Frame>, id: nat, wanted: string, whole: bool) {
    && AllRelay(frames, id)
    && DataBytes(frames) <= wanted
    && (whole ==> frames != [] && frames[|frames| - 1] == CloseFrame(id) && DataBytes(frames) == wanted && Closes(frames) == 1)
  }

  lemma RelayAppend(frames: seq<Frame>, f: Frame, id: nat)
    requires AllRelay(frames, id) && RelayFrame(f, id)
    ensures AllRelay(frames + [f], id)
    ensures DataBytes(frames + [f]) == DataBytes(frames) + Carried(f)
    ensures Closes(frames + [f]) == Closes(frames) + (if f.tag == CLOSE then 1 else 0)
  {
    BytesAppend(frames, f);
    CountsAppend(frames, f);
    hide RelayFrame;
  }

  /** What one `recv_some` puts into the buffer: nothing at the end, or on a failure. */
  method ReadSome(client: Socket, buffer: array<char>) returns (data: string)
    requires buffer.Length == RELAY_CHUNK
    modifies client`inbox, client`script, buffer
    ensures old(client.inbox) == data + client.inbox && |data| <= RELAY_CHUNK
    ensures old(client.inbox) != "" && Lasting(old(client.script), 1) ==> data != ""
    ensures data != "" ==> old(client.script) != [] && client.script == old(client.script)[1..]
  {
    var got := client.Recv(buffer, 0, buffer.Length);
    if got <= 0 {
      return "";
    }
    assert buffer[..got] == buffer[..][..got];
    return buffer[..got];
  }

  /** The relay loop; `budget` is how many more writes the channel takes.  `acts` are its atomic steps,
      which lead from `c` to `at`. */
  method Relay(session: AgentSession, id: nat, client: Socket, budget: nat, ghost c: Ctx)
    returns (sent: nat, ghost frames: seq<Frame>, ghost acts: seq<Act>, ghost at: Ctx)
    requires c.id == id && c.g == session.Flags() && c.r.h.pc.Relaying?
    modifies session`alive, session`broken, session`wire, client`inbox, client`script
    ensures session.wire == old(session.wire) + frames && sent == |frames| <= budget
    ensures AllRelay(frames, id) && Closes(frames) == 0
    ensures DataBytes(frames) <= old(client.inbox) && |frames| <= |old(client.inbox)|
    ensures Lasting(old(client.script), |old(client.inbox)| + 1) && budget >= |old(client.inbox)|
            && old(session.alive) && !old(session.broken) ==>
              DataBytes(frames) == old(client.inbox) && session.alive && !session.broken
    ensures Leads(c, acts, at, frames) && at.id == id && at.g == session.Flags()
    ensures at.r.h.pc == Sending(CloseSite, CloseFrame(id))
  {
    hide AllRelay, DataBytes, Closes, Leads;
    ghost var bytes, script, up := client.inbox, client.script, session.alive && !session.broken;
    var buffer := new char[RELAY_CHUNK](_ => 0 as char);
    sent, frames, acts, at := 0, [], [], c;
    NothingRelayed(id);
    LeadsNowhere(c);
    while true
      invariant session.wire == old(session.wire) + frames && sent == |frames| <= budget
      invariant AllRelay(frames, id) && Closes(frames) == 0
      invariant bytes == DataBytes(frames) + client.inbox
      invariant sent <= |bytes| - |client.inbox|
      invariant sent <= |script| && client.script == script[sent..]
      invariant up ==> session.alive && !session.broken
      invariant Leads(c, acts, at, frames) && at.id == id && at.g == session.Flags() && at.r.h.pc.Relaying?
      decreases |client.inbox|
    {
      var data := ReadSome(client, buffer);
      if data == "" {
        acts, at := EofLeads(c, acts, at, frames);
        break;
      }
      acts, at := ChunkLeads(c, acts, at, frames, data, sent < budget);
      var ok := session.Send(Frame(DATA, id, data), sent < budget);
      if !ok {
        assert frames + [] == frames;
        break;
      }
      RelayAppend(frames, Frame(DATA, id, data), id);
      Regroup(DataBytes(frames), data, client.inbox);
      frames := frames + [Frame(DATA, id, data)];
      sent := sent + 1;
    }
  }

  lemma Regroup(a: string, b: string, c: string)
    ensures a + (b + c) == a + b + c
  {
  }

  lemma NothingRelayed(id: nat)
    ensures AllRelay([], id) && DataBytes([]) == "" && Closes([]) == 0
  {
  }

  /** What the client's bytes and its kernel make of the request. */
  function RequestOf(bytes: string, script: seq<nat>): Option<(ProxyRequest.Parsed, nat)> {
    match HttpHeader.ReadTo(0, |bytes|, HttpHeader.HeaderEnd(bytes), script)
    case None => None
    case Some(n) =>
      var end := HttpHeader.HeaderEnd(bytes);
      if end.None? || !(end.value <= n <= |bytes|) then None
      else Some((ProxyRequest.Parse(bytes[..end.value], bytes[end.value..n]), n))
  }

  lemma BytesAfter(f: Frame, frames: seq<Frame>)
    ensures DataBytes([f] + frames) == Carried(f) + DataBytes(frames)
    ensures Closes([f] + frames) == (if f.tag == CLOSE then 1 else 0) + Closes(frames)
  {
    assert ([f] + frames)[1..] == frames;
  }

  lemma RelayedThenClosed(relayed: seq<Frame>, closing: seq<Frame>, id: nat, wanted: string, whole: bool)
    requires AllRelay(relayed, id) && DataBytes(relayed) <= wanted && Closes(relayed) == 0
    requires closing == [] || closing == [CloseFrame(id)]
    requires whole ==> closing != [] && DataBytes(relayed) == wanted
    ensures Serves(relayed + closing, id, wanted, whole)
  {
    hide AllRelay, DataBytes, Closes;
    if closing == [] {
      assert relayed + closing == relayed;
    } else {
      RelayAppend(relayed, CloseFrame(id), id);
    }
  }

  lemma InitialFirst(initial: string, frames: seq<Frame>, id: nat, later: string, whole: bool)
    requires Serves(frames, id, later, whole) && initial != ""
    ensures Serves([Frame(DATA, id, initial)] + frames, id, initial + later, whole)
  {
    BytesAfter(Frame(DATA, id, initial), frames);
  }

  /** The CLOSE at the end, whose success nobody looks at. */
  method SayClose(session: AgentSession, id: nat, budget: nat, ghost c: Ctx)
    returns (ghost closing: seq<Frame>, ghost acts: seq<Act>, ghost at: Ctx)
    requires c.id == id && c.g == session.Flags() && c.r.h.pc == Sending(CloseSite, CloseFrame(id))
    modifies session`alive, session`broken, session`wire
    ensures session.wire == old(session.wire) + closing
    ensures closing == [] || closing == [CloseFrame(id)]
    ensures old(session.alive) && !old(session.broken) && budget > 0 ==> closing != []
    ensures Leads(c, acts, at, closing) && at.g == session.Flags() && at.r.h.pc.Unregistering?
  {
    acts, at := CloseLeads(c, budget > 0);
    var ok := session.Send(CloseFrame(id), budget > 0);
    closing := if ok then [CloseFrame(id)] else [];
  }

  /** The relay loop and CLOSE. */
  method RelayAndClose(session: AgentSession, id: nat, client: Socket, budget: nat, ghost c: Ctx)
    returns (ghost frames: seq<Frame>, ghost acts: seq<Act>, ghost at: Ctx)
    requires c.id == id && c.g == session.Flags() && c.r.h.pc.Relaying?
    modifies session`alive, session`broken, session`wire, client`inbox, client`script
    ensures session.wire == old(session.wire) + frames
    ensures Serves(frames, id, old(client.inbox),
                   old(session.alive) && !old(session.broken) && budget >= |old(client.inbox)| + 1
                   && Lasting(old(client.script), |old(client.inbox)| + 1))
    ensures Leads(c, acts, at, frames) && at.g == session.Flags() && at.r.h.pc.Unregistering?
  {
    hide Leads;
    var sent;
    ghost var relayed, relaying, between;
    sent, relayed, relaying, between := Relay(session, id, client, budget, c);
    ghost var closing, acts';
    closing, acts', at := SayClose(session, id, budget - sent, between);
    LeadsOn(c, relaying, between, relayed, acts', at, closing);
    frames, acts := relayed + closing, relaying + acts';
    RelayedThenClosed(relayed, closing, id, old(client.inbox),
                      old(session.alive) && !old(session.broken) && budget >= |old(client.inbox)| + 1
                      && Lasting(old(client.script), |old(client.inbox)| + 1));
  }

  /** Where a handler stands once its wait is over and its target open. */
  predicate Opened(c: Ctx, id: nat, initial: string) {
    && c.id == id
    && (if initial == "" then c.r.h.pc.Relaying?
        else c.r.h.pc == Sending(InitialSite, Frame(DATA, id, initial)))
  }

  /** From the first relayed byte on: the initial data, the relay loop and CLOSE. */
  method Serve(session: AgentSession, id: nat, client: Socket, initial: string, budget: nat, ghost c: Ctx)
    returns (r: Handling, ghost frames: seq<Frame>, ghost acts: seq<Act>, ghost at: Ctx)
    requires Opened(c, id, initial) && c.g == session.Flags()
    modifies session`alive, session`broken, session`wire, client`inbox, client`script
    ensures session.wire == old(session.wire) + frames && (r.Ended? || (r.InitialFailed? && frames == [] && initial != ""))
    ensures Serves(frames, id, initial + old(client.inbox),
                   old(session.alive) && !old(session.broken) && budget >= |old(client.inbox)| + 2
                   && Lasting(old(client.script), |old(client.inbox)| + 1))
    ensures old(session.alive) && !old(session.broken) && budget > 0 ==> r.Ended?
    ensures Leads(c, acts, at, frames) && at.g == session.Flags() && at.r.h.pc.Unregistering?
  {
    hide Serves, Lasting, Leads;
    if initial == "" {
      frames, acts, at := RelayAndClose(session, id, client, budget, c);
      assert initial + old(client.inbox) == old(client.inbox);
      ServesLess(frames, id, old(client.inbox),
                 old(session.alive) && !old(session.broken) && budget >= |old(client.inbox)| + 1
                 && Lasting(old(client.script), |old(client.inbox)| + 1),
                 old(session.alive) && !old(session.broken) && budget >= |old(client.inbox)| + 2
                 && Lasting(old(client.script), |old(client.inbox)| + 1));
      r := Ended;
      return;
    }
    ghost var first, between := InitialLeads(c, budget > 0);
    var ok := session.Send(Frame(DATA, id, initial), budget > 0);
    if !ok {
      ServesNothing(id, initial + old(client.inbox));
      return InitialFailed, [], first, between;
    }
    ghost var rest, later;
    rest, later, at := RelayAndClose(session, id, client, budget - 1, between);
    InitialFirst(initial, rest, id, old(client.inbox),
                 old(session.alive) && !old(session.broken) && budget >= |old(client.inbox)| + 2
                 && Lasting(old(client.script), |old(client.inbox)| + 1));
    LeadsOn(c, first, between, [Frame(DATA, id, initial)], later, at, rest);
    r, frames, acts := Ended, [Frame(DATA, id, initial)] + rest, first + later;
  }

  lemma ServesNothing(id: nat, wanted: string)
    ensures Serves([], id, wanted, false)
  {
  }

  lemma ServesLess(frames: seq<Frame>, id: nat, wanted: string, whole: bool, whole': bool)
    requires Serves(frames, id, wanted, whole) && (whole' ==> whole)
    ensures Serves(frames, id, wanted, whole')
  {
  }

  lemma ServesClose(id: nat, closing: seq<Frame>, wanted: string)
    requires closing == [] || closing == [CloseFrame(id)]
    ensures Serves(closing, id, wanted, false)
  {
  }

  /** The initial data of a request. */
  function InitialOf(request: ProxyRequest.Parsed): string {
    if request.Forward? then request.initialData else ""
  }

  /** Once the target is open: the answer to a CONNECT, or the rewritten request. */
  method ServeOpened(session: AgentSession, id: nat, client: Socket, request: ProxyRequest.Parsed, replyOk: bool,
                     budget: nat, ghost c: Ctx)
    returns (r: Handling, ghost frames: seq<Frame>, ghost acts: seq<Act>, ghost at: Ctx)
    requires !request.Rejected? && c.id == id && c.g == session.Flags()
    requires if request.Connect? then c.r.h.pc.Replying? else Opened(c, id, InitialOf(request))
    modifies session`alive, session`broken, session`wire, client`inbox, client`script
    ensures session.wire == old(session.wire) + frames
    ensures Serves(frames, id, Wanted(request, old(client.inbox)),
                   replyOk && old(session.alive) && !old(session.broken) && budget >= |old(client.inbox)| + 2
                   && Lasting(old(client.script), |old(client.inbox)| + 1))
    ensures replyOk && old(session.alive) && !old(session.broken) && budget > 0 ==> r.Ended?
    ensures r == (if request.Connect? && !replyOk then ReplyFailed else Ended)
            || (r.InitialFailed? && frames == [] && request.Forward?)
    ensures Leads(c, acts, at, frames) && at.g == session.Flags() && at.r.h.pc.Unregistering?
  {
    hide Serves, Lasting, Leads;
    ghost var wanted := Wanted(request, client.inbox);
    ghost var first: seq<Act>, between: Ctx := [], c;
    LeadsNowhere(c);
    if request.Connect? {
      first, between := ReplyLeads(c, replyOk);
    }
    ghost var later;
    if request.Connect? && !replyOk {
      frames, later, at := SayClose(session, id, budget, between);
      ServesClose(id, frames, wanted);
      r := ReplyFailed;
    } else {
      ghost var whole := session.alive && !session.broken && budget >= |client.inbox| + 2
                         && Lasting(client.script, |client.inbox| + 1);
      assert InitialOf(request) + client.inbox == wanted;
      r, frames, later, at := Serve(session, id, client, InitialOf(request), budget, between);
      ServesLess(frames, id, wanted, whole, replyOk && whole);
    }
    LeadsOn(c, first, between, [], later, at, frames);
    assert [] + frames == frames;
    acts := first + later;
  }

  /** What a handler with a session writes, given what its request wants relayed. */
  predicate Written(frames: seq<Frame>, id: nat, request: ProxyRequest.Parsed, later: string, whole: bool)
    requires !request.Rejected?
  {
    && (frames != [] ==> frames[0] == OpenFor(id, request) && Serves(frames[1..], id, Wanted(request, later), whole))
    && (whole ==> frames != [])
  }

  function OpenFor(id: nat, request: ProxyRequest.Parsed): Frame
    requires !request.Rejected?
  {
    Frame(OPEN, id, Endpoints.MakeOpenPayload(request.host, request.port))
  }

  lemma OpenAlone(id: nat, request: ProxyRequest.Parsed, later: string)
    requires !request.Rejected?
    ensures Written([OpenFor(id, request)], id, request, later, false) && Written([], id, request, later, false)
  {
    ServesNothing(id, Wanted(request, later));
    assert [OpenFor(id, request)][1..] == [];
  }

  lemma OpenThenServed(frames: seq<Frame>, id: nat, request: ProxyRequest.Parsed, later: string, whole: bool, whole': bool)
    requires !request.Rejected? && Serves(frames, id, Wanted(request, later), whole) && (whole' ==> whole)
    ensures Written([OpenFor(id, request)] + frames, id, request, later, whole')
  {
    assert ([OpenFor(id, request)] + frames)[1..] == frames;
  }

  /** How a handler that wrote `frames` ends, unless the initial data could not be sent. */
  function Outcome(frames: seq<Frame>, request: ProxyRequest.Parsed, wake: Wake, replyOk: bool): Handling {
    if frames == [] then OpenFailed
    else if wake.error != "" then OpenRefused(wake.error)
    else if !wake.isOpen then OpenRefused("agent open timeout")
    else if request.Connect? && !replyOk then ReplyFailed
    else Ended
  }

  /** How it may end: the initial data are sent right after OPEN and OPEN_OK, or that fails. */
  predicate Ends(r: Handling, frames: seq<Frame>, request: ProxyRequest.Parsed, wake: Wake, replyOk: bool) {
    || r == Outcome(frames, request, wake, replyOk)
    || (r.InitialFailed? && |frames| == 1 && request.Forward? && wake.isOpen && wake.error == "")
  }

  lemma EndsMeans(r: Handling, frames: seq<Frame>, request: ProxyRequest.Parsed, wake: Wake, replyOk: bool)
    requires Ends(r, frames, request, wake, replyOk) && !request.Rejected?
    ensures
      var ready := wake.isOpen && wake.error == "";
      && (r.OpenFailed? <==> frames == [])
      && (r.OpenRefused? <==> frames != [] && !ready)
      && (r.OpenRefused? ==> r.reason == if wake.error != "" then wake.error else "agent open timeout")
      && (r.ReplyFailed? <==> frames != [] && ready && request.Connect? && !replyOk)
      && (r.InitialFailed? ==> request.Forward? && |frames| == 1)
  {
  }

  /** Whether nothing stands in the way of relaying everything. */
  ghost predicate Unhindered(session: AgentSession, client: Socket, wake: Wake, replyOk: bool, budget: nat)
    reads session, client
  {
    && wake.isOpen && wake.error == "" && replyOk && session.alive && !session.broken
    && budget >= |client.inbox| + 3 && Lasting(client.script, |client.inbox| + 1)
  }

  /** Where a handler begins, as the atomic steps see it. */
  ghost function BeginningOf(id: nat, request: ProxyRequest.Parsed, g: Globals): Ctx
    requires !request.Rejected?
  {
    Beginning(id, request.Connect?, InitialOf(request), request.host, request.port, g)
  }

  /** The steps from the wait on, when it ends with an open target. */
  lemma WakesOpen(parked: Ctx, wake: Wake, request: ProxyRequest.Parsed, g: Globals)
    returns (acts: seq<Act>, at: Ctx)
    requires !request.Rejected? && parked.r.h == BeginningOf(parked.id, request, g).r.h.(pc := Waiting)
    requires wake.isOpen && wake.error == ""
    ensures Leads(Woken(parked, wake), acts, at, []) && at.id == parked.id && at.g == parked.g
    ensures if request.Connect? then at.r.h.pc.Replying? else Opened(at, parked.id, InitialOf(request))
  {
    acts, at := WakeNext(Woken(parked, wake));
  }

  /** The part of the handler that has a stream: from `register_stream` to `close_proxy_client`.  Its
      atomic steps are those of `trace`. */
  method ServeStream(session: AgentSession, id: nat, client: Socket, request: ProxyRequest.Parsed,
                     wake: Wake, replyOk: bool, budget: nat)
    returns (r: Handling, ghost frames: seq<Frame>, ghost trace: Trace)
    requires !request.Rejected? && session.Valid() && id !in session.streams
    modifies session, client`inbox, client`script
    ensures session.Valid() && session.streams == old(session.streams) && session.wire == old(session.wire) + frames
    ensures Written(frames, id, request, old(client.inbox), old(Unhindered(session, client, wake, replyOk, budget)))
    ensures Ends(r, frames, request, wake, replyOk)
    ensures |frames| > 1 || r.Ended? ==> wake.isOpen && wake.error == ""
    ensures old(Unhindered(session, client, wake, replyOk, budget)) ==> r.Ended?
    ensures Follows(trace, BeginningOf(id, request, old(session.Flags())), wake, frames)
    ensures trace.end.g == session.Flags()
  {
    hide Written, Follows, Ends, BeginningOf;
    var stream := new ProxyStream(id);
    session.RegisterStream(stream);
    r, frames, trace := Converse(session, id, stream, client, request, wake, replyOk, budget);
    session.UnregisterStream(id);
    stream.CloseClient();
  }

  /** What it does between registering the stream and leaving. */
  method Converse(session: AgentSession, id: nat, stream: ProxyStream, client: Socket, request: ProxyRequest.Parsed,
                  wake: Wake, replyOk: bool, budget: nat)
    returns (r: Handling, ghost frames: seq<Frame>, ghost trace: Trace)
    requires !request.Rejected?
    modifies session`alive, session`broken, session`wire, client`inbox, client`script
    modifies stream`isOpen, stream`error, stream`closed
    ensures session.wire == old(session.wire) + frames
    ensures Written(frames, id, request, old(client.inbox), old(Unhindered(session, client, wake, replyOk, budget)))
    ensures Ends(r, frames, request, wake, replyOk)
    ensures |frames| > 1 || r.Ended? ==> wake.isOpen && wake.error == ""
    ensures old(Unhindered(session, client, wake, replyOk, budget)) ==> r.Ended?
    ensures Follows(trace, BeginningOf(id, request, old(session.Flags())), wake, frames)
    ensures trace.end.g == session.Flags()
  {
    hide *;
    ghost var later, whole := client.inbox, Unhindered(session, client, wake, replyOk, budget);
    ghost var c, wire := BeginningOf(id, request, session.Flags()), session.wire;
    UnhinderedMeans(session, client, wake, replyOk, budget);
    BeginningIs(id, request, session.Flags());
    EndsEarly([], request, wake, replyOk);
    EndsEarly([OpenFor(id, request)], request, wake, replyOk);
    OpenAlone(id, request, later);
    var ok := SayOpen(session, id, request, budget, c);
    if !ok {
      trace := OpenFails(c, wake, budget > 0);
      return OpenFailed, [], trace;
    }
    stream.isOpen, stream.error, stream.closed := wake.isOpen, wake.error, wake.closed;
    if stream.error != "" || !stream.isOpen {
      trace := OpenIsRefused(c, wake, budget > 0);
      return OpenRefused(if stream.error == "" then "agent open timeout" else stream.error), [OpenFor(id, request)], trace;
    }
    r, frames, trace := ServeWoken(session, id, client, request, wake, replyOk, budget, c, whole);
    FirstWritten(wire, frames);
  }

  lemma UnhinderedMeans(session: AgentSession, client: Socket, wake: Wake, replyOk: bool, budget: nat)
    ensures Unhindered(session, client, wake, replyOk, budget) ==>
              && Sends(session.Flags(), budget > 0) && replyOk && wake.isOpen && wake.error == ""
              && budget >= |client.inbox| + 3 && Lasting(client.script, |client.inbox| + 1)
  {
  }

  lemma BeginningIs(id: nat, request: ProxyRequest.Parsed, g: Globals)
    requires !request.Rejected?
    ensures var c := BeginningOf(id, request, g);
            c.r.h.pc.Taken? && c.g == g && OpenFrame(c.id, c.r.h) == OpenFor(id, request)
  {
  }

  lemma EndsEarly(frames: seq<Frame>, request: ProxyRequest.Parsed, wake: Wake, replyOk: bool)
    ensures frames == [] ==> Ends(OpenFailed, frames, request, wake, replyOk)
    ensures frames != [] && (wake.error != "" || !wake.isOpen) ==>
              Ends(OpenRefused(if wake.error == "" then "agent open timeout" else wake.error), frames, request, wake, replyOk)
  {
  }

  lemma FirstWritten(wire: seq<Frame>, frames: seq<Frame>)
    requires frames != []
    ensures wire + [frames[0]] + frames[1..] == wire + frames
  {
  }

  /** The OPEN. */
  method SayOpen(session: AgentSession, id: nat, request: ProxyRequest.Parsed, budget: nat, ghost c: Ctx) returns (ok: bool)
    requires !request.Rejected? && c.g == session.Flags()
    modifies session`alive, session`broken, session`wire
    ensures ok == Sends(c.g, budget > 0) && (ok ==> budget > 0 && session.Flags() == c.g)
    ensures session.Flags() == FlagsAfter(c.g, ok)
    ensures session.wire == if ok then old(session.wire) + [OpenFor(id, request)] else old(session.wire)
  {
    ok := session.Send(OpenFor(id, request), budget > 0);
  }

  /** The rest of it, for a handler whose target is open. */
  method ServeWoken(session: AgentSession, id: nat, client: Socket, request: ProxyRequest.Parsed,
                    wake: Wake, replyOk: bool, budget: nat, ghost c: Ctx, ghost whole: bool)
    returns (r: Handling, ghost frames: seq<Frame>, ghost trace: Trace)
    requires !request.Rejected? && wake.isOpen && wake.error == "" && budget > 0
    requires c == BeginningOf(id, request, session.Flags()) && Sends(c.g, budget > 0)
    requires whole ==> replyOk && budget >= |client.inbox| + 3 && Lasting(client.script, |client.inbox| + 1)
    modifies session`alive, session`broken, session`wire, client`inbox, client`script
    ensures frames != [] && frames[0] == OpenFor(id, request) && session.wire == old(session.wire) + frames[1..]
    ensures Written(frames, id, request, old(client.inbox), whole)
    ensures Ends(r, frames, request, wake, replyOk)
    ensures whole ==> r.Ended?
    ensures Follows(trace, c, wake, frames) && trace.end.g == session.Flags()
  {
    hide Serves, Lasting, Wanted, Written, Follows, Leads, Path;
    ghost var later := client.inbox;
    ghost var begin, parked := OpenNext(c, true, [OpenFor(id, request)]);
    ghost var first, awake := WakesOpen(parked, wake, request, c.g);
    ghost var acts, at, sent;
    ghost var whole' := replyOk && session.alive && !session.broken && budget - 1 >= |later| + 2
                        && Lasting(client.script, |later| + 1);
    r, sent, acts, at := ServeOpened(session, id, client, request, replyOk, budget - 1, awake);
    OpenThenServed(sent, id, request, later, whole', whole);
    LeadsOn(Woken(parked, wake), first, awake, [], acts, at, sent);
    assert [] + sent == sent;
    trace := OpenIsServed(c, wake, true, parked, begin, first + acts, at, sent);
    frames := [OpenFor(id, request)] + sent;
    assert frames[1..] == sent;
  }

  /** Reading the header and parsing the request. */
  method ReadRequest(client: Socket) returns (request: Option<ProxyRequest.Parsed>)
    modifies client`inbox, client`script
    ensures
      match RequestOf(old(client.inbox), old(client.script))
      case None => request.None?
      case Some((parsed, n)) =>
        && request == Some(parsed) && n <= |old(client.inbox)| && client.inbox == old(client.inbox)[n..]
        && Used(old(client.script), client.script, n)
  {
    var read := HttpHeader.ReadHttpHeader(client);
    if read.None? {
      return None;
    }
    var parsed := ProxyRequest.ParseProxyRequest(read.value.0, read.value.1);
    return Some(parsed);
  }

  /** The handler of one client.  `wake` is the state of the stream when the wait ends and `replyOk` the
      fate of the answer to a CONNECT; the channel takes `budget` writes.  Whatever happens, the stream
      is out of the table in the end; what was written is OPEN and then, only if the target is open, a
      prefix of the wanted bytes; and all of them and one CLOSE if nothing fails. */
  method HandleProxyClient(client: Socket, session: AgentSession?, id: nat, wake: Wake, replyOk: bool, budget: nat)
    returns (r: Handling, ghost frames: seq<Frame>)
    requires session != null ==> session.Valid() && id !in session.streams
    modifies client`inbox, client`script
    modifies if session == null then {} else {session}
    ensures session != null ==>
              session.Valid() && session.streams == old(session.streams) && session.wire == old(session.wire) + frames
    ensures
      match RequestOf(old(client.inbox), old(client.script))
      case None => r == NoHeader && frames == []
      case Some((request, n)) =>
        if request.Rejected? then r == BadRequest(request.error) && frames == []
        else if session == null then r == NoAgent && frames == []
        else
          var ready := wake.isOpen && wake.error == "";
          && n <= |old(client.inbox)|
          && var later := old(client.inbox)[n..];
          var whole := ready && replyOk && old(session.alive) && !old(session.broken) && budget >= |later| + 3
                       && Lasting(old(client.script), |old(client.inbox)| + 1);
          && Written(frames, id, request, later, whole)
          && Ends(r, frames, request, wake, replyOk)
          && (r.OpenFailed? <==> frames == [])
          && (r.OpenRefused? <==> frames != [] && !ready)
          && (r.OpenRefused? ==> r.reason == if wake.error != "" then wake.error else "agent open timeout")
          && (r.ReplyFailed? <==> frames != [] && ready && request.Connect? && !replyOk)
          && (r.InitialFailed? ==> request.Forward? && |frames| == 1)
          && (|frames| > 1 || r.Ended? ==> ready)
          && (whole ==> r.Ended?)
  {
    hide Serves, Lasting, Wanted, Written, RequestOf, Used, Ends;
    frames := [];
    ghost var bytes, script := client.inbox, client.script;
    var read := ReadRequest(client);
    if read.None? {
      return NoHeader, [];
    }
    var request := read.value;
    if request.Rejected? {
      return BadRequest(request.error), [];
    }
    if session == null {
      return NoAgent, [];
    }
    ghost var later := client.inbox;
    if Lasting(script, |bytes| + 1) {
      StillLasting(script, client.script, |bytes| - |later|, |later| + 1);
    }
    ghost var unhindered := Unhindered(session, client, wake, replyOk, budget);
    ghost var trace;
    r, frames, trace := ServeStream(session, id, client, request, wake, replyOk, budget);
    EndsMeans(r, frames, request, wake, replyOk);
    WrittenLess(frames, id, request, later, unhindered,
                unhindered && Lasting(script, |bytes| + 1));
  }

  lemma WrittenLess(frames: seq<Frame>, id: nat, request: ProxyRequest.Parsed, later: string, whole: bool, whole': bool)
    requires !request.Rejected? && Written(frames, id, request, later, whole) && (whole' ==> whole)
    ensures Written(frames, id, request, later, whole')
  {
  }
}
