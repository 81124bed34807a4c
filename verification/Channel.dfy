/**
 The two implementations of framing: `Channel`, over a plain socket or TLS, and the functions on a
 raw socket (agent/src/common/channel.cpp, agent/src/common/protocol.cpp).  Both are proved against
 module `Wire`, for every way the kernel may cut the transfers up.
 */
module Channel {
  import opened Text
  import opened Net
  import opened Frames
  import opened Wire

  /** Fills `buffer` from the socket, or fails. */
  method RecvExact(sock: Socket, buffer: array<char>) returns (ok: bool)
    modifies sock`inbox, sock`script, buffer
    ensures ok ==> buffer.Length <= |old(sock.inbox)|
                   && buffer[..] == old(sock.inbox)[..buffer.Length] && sock.inbox == old(sock.inbox)[buffer.Length..]
                   && Used(old(sock.script), sock.script, buffer.Length)
    ensures Lasting(old(sock.script), |old(sock.inbox)| + 1) ==> (ok <==> buffer.Length <= |old(sock.inbox)|)
  {
    var total := 0;
    ghost var calls := 0;
    while total < buffer.Length
      invariant 0 <= calls <= total <= buffer.Length
      invariant total <= |old(sock.inbox)| && sock.inbox == old(sock.inbox)[total..]
      invariant buffer[..total] == old(sock.inbox)[..total]
      invariant calls <= |old(sock.script)| && sock.script == old(sock.script)[calls..]
    {
      ghost var before := buffer[..];
      var got := sock.Recv(buffer, total, buffer.Length - total);
      if got <= 0 {
        return false;
      }
      assert buffer[..total + got] == before[..total] + old(sock.inbox)[total..][..got];
      total := total + got;
      calls := calls + 1;
    }
    return true;
  }

  /** The header of `recv_frame`, then the payload it announces. */
  method RecvFrame(sock: Socket) returns (frame: Option<Frame>)
    modifies sock`inbox, sock`script
    ensures frame.Some? ==> Complete(old(sock.inbox)) && frame.value == First(old(sock.inbox))
                            && sock.inbox == Rest(old(sock.inbox))
                            && Used(old(sock.script), sock.script, |old(sock.inbox)| - |sock.inbox|)
    ensures Lasting(old(sock.script), |old(sock.inbox)| + 1) ==> (frame.Some? <==> Complete(old(sock.inbox)))
  {
    var header := new char[HEADER](_ => 0 as char);
    var ok := RecvExact(sock, header);
    if !ok {
      return None;
    }
    ghost var reliable := Lasting(old(sock.script), |old(sock.inbox)| + 1);
    if reliable {
      StillLasting(old(sock.script), sock.script, HEADER, |sock.inbox| + 1);
    }
    assert header[..] == old(sock.inbox)[..HEADER];
    var len := FromBe32(header[5..9]);
    assert header[5..9] == header[..][5..9];
    hide FromBe32, Byte;
    if len > MAX_PAYLOAD {
      return None;
    }
    var payload := new char[len](_ => 0 as char);
    if len > 0 {
      ok := RecvExact(sock, payload);
      if !ok {
        return None;
      }
    }
    assert payload[..] == old(sock.inbox)[HEADER..HEADER + len];
    return Some(Decode(header[..], payload[..]));
  }

  /** `send_frame` on a raw socket: an oversized payload is refused before anything is written; a
      failure leaves a proper prefix of the frame. */
  method SendFrame(sock: Socket, frame: Frame) returns (ok: bool)
    requires frame.tag < 256 && frame.id < 0x1_0000_0000
    modifies sock`outbox, sock`script
    ensures ok ==> Sendable(frame) && sock.outbox == old(sock.outbox) + Encode(frame)
                   && Used(old(sock.script), sock.script, |Encode(frame)|)
    ensures !ok && !Sendable(frame) ==> sock.outbox == old(sock.outbox)
    ensures !ok && Sendable(frame) ==> CutOff(old(sock.outbox), frame, sock.outbox)
    ensures Sendable(frame) && Lasting(old(sock.script), |Encode(frame)|) ==> ok
  {
    if |frame.payload| > MAX_PAYLOAD {
      return false;
    }
    ghost var before, script := sock.outbox, sock.script;
    var header := Header(frame);
    ok := SendAll(sock, header);
    if !ok {
      CutInHeader(before, frame, sock.outbox);
      return;
    }
    if frame.payload != "" {
      if Lasting(script, |Encode(frame)|) {
        StillLasting(script, sock.script, HEADER, |frame.payload|);
      }
      ok := SendAll(sock, frame.payload);
      if !ok {
        CutInPayload(before, frame, sock.outbox);
        return;
      }
    }
    assert sock.outbox == before + Encode(frame);
  }

  /** The write of `frame` after `before` stopped short. */
  ghost predicate CutOff(before: string, frame: Frame, after: string)
    requires Sendable(frame)
  {
    exists k :: 0 <= k < |Encode(frame)| && after == before + Encode(frame)[..k]
  }

  lemma CutInHeader(before: string, frame: Frame, after: string)
    requires Sendable(frame)
    requires exists k :: 0 <= k < HEADER && after == before + Header(frame)[..k]
    ensures CutOff(before, frame, after)
  {
    var k :| 0 <= k < HEADER && after == before + Header(frame)[..k];
    assert Header(frame)[..k] == Encode(frame)[..k];
  }

  lemma CutInPayload(before: string, frame: Frame, after: string)
    requires Sendable(frame)
    requires exists k :: 0 <= k < |frame.payload| && after == before + Header(frame) + frame.payload[..k]
    ensures CutOff(before, frame, after)
  {
    var k :| 0 <= k < |frame.payload| && after == before + Header(frame) + frame.payload[..k];
    assert Header(frame) + frame.payload[..k] == Encode(frame)[..HEADER + k];
    assert after == before + Encode(frame)[..HEADER + k];
  }

  /** `session_loop` and `read_loop` as readers: frames until `recv_frame` gives none. */
  method RecvAll(sock: Socket) returns (frames: seq<Frame>)
    modifies sock`inbox, sock`script
    ensures frames <= DecodeAll(old(sock.inbox))
    ensures Lasting(old(sock.script), |old(sock.inbox)| + 1) ==> frames == DecodeAll(old(sock.inbox))
  {
    hide Complete, First, Rest, Lasting, Used;
    frames := [];
    ghost var reliable := Lasting(sock.script, |sock.inbox| + 1);
    while true
      invariant DecodeAll(old(sock.inbox)) == frames + DecodeAll(sock.inbox)
      invariant reliable ==> Lasting(sock.script, |sock.inbox| + 1)
      decreases |sock.inbox|
    {
      ghost var inbox, script := sock.inbox, sock.script;
      var frame := RecvFrame(sock);
      if frame.None? {
        return;
      }
      RestIsShorter(inbox);
      if reliable {
        StillLasting(script, sock.script, |inbox| - |sock.inbox|, |sock.inbox| + 1);
      }
      frames := frames + [frame.value];
    }
  }

  lemma RestIsShorter(bytes: string)
    requires Complete(bytes)
    ensures |Rest(bytes)| < |bytes|
  {
  }

  /** The writes of a sender, until one fails. */
  method SendFrames(sock: Socket, frames: seq<Frame>) returns (ok: bool)
    requires forall f :: f in frames ==> Sendable(f)
    modifies sock`outbox, sock`script
    ensures ok ==> sock.outbox == old(sock.outbox) + EncodeAll(frames)
    ensures exists k :: 0 <= k <= |EncodeAll(frames)| && sock.outbox == old(sock.outbox) + EncodeAll(frames)[..k]
    ensures Lasting(old(sock.script), |EncodeAll(frames)|) ==> ok
  {
    hide Encode, Lasting, Used;
    ghost var before, all := sock.outbox, EncodeAll(frames);
    ghost var sent := "";
    ghost var reliable := Lasting(sock.script, |all|);
    for i := 0 to |frames|
      invariant sock.outbox == before + sent && all == sent + EncodeAll(frames[i..])
      invariant reliable ==> Lasting(sock.script, |EncodeAll(frames[i..])|)
    {
      ghost var script := sock.script;
      EncodeAllHead(frames, i);
      ghost var e, tail := Encode(frames[i]), EncodeAll(frames[i + 1..]);
      ok := SendFrame(sock, frames[i]);
      if !ok {
        Interrupted(before, sent, frames[i], tail, sock.outbox);
        if reliable {
          LastingLess(script, |e|, |tail|);
        }
        return;
      }
      if reliable {
        StillLasting(script, sock.script, |e|, |tail|);
      }
      assert before + sent + e == before + (sent + e);
      sent := sent + e;
    }
    assert frames[|frames|..] == [];
    assert all == sent && all[..|all|] == all;
    return true;
  }

  lemma LastingLess(script: seq<nat>, n: nat, more: nat)
    requires Lasting(script, n + more)
    ensures Lasting(script, n)
  {
  }

  lemma Interrupted(before: string, sent: string, frame: Frame, tail: string, after: string)
    requires Sendable(frame) && CutOff(before + sent, frame, after)
    ensures
      var all := sent + (Encode(frame) + tail);
      exists k :: 0 <= k <= |all| && after == before + all[..k]
  {
    var all := sent + (Encode(frame) + tail);
    var k :| 0 <= k < |Encode(frame)| && after == before + sent + Encode(frame)[..k];
    assert all[..|sent| + k] == sent + Encode(frame)[..k];
    assert after == before + all[..|sent| + k];
  }

  /** A sender and a reader, each with a kernel of its own: the reader gets a prefix of what was
      sent, and all of it when neither kernel fails. */
  method Transfer(frames: seq<Frame>, sending: seq<nat>, receiving: seq<nat>) returns (got: seq<Frame>)
    requires forall f :: f in frames ==> Sendable(f)
    ensures got <= frames
    ensures Lasting(sending, |EncodeAll(frames)|) && Lasting(receiving, |EncodeAll(frames)| + 1) ==> got == frames
  {
    hide Encode, EncodeAll, DecodeAll, Lasting;
    var sender := new Socket("", sending);
    var ok := SendFrames(sender, frames);
    assert sender.outbox == EncodeAll(frames)[..|sender.outbox|];
    assert ok ==> sender.outbox == EncodeAll(frames);
    FramesOfPrefix(frames, |sender.outbox|);
    var reader := new Socket(sender.outbox, receiving);
    got := RecvAll(reader);
  }

  lemma EncodeAllHead(frames: seq<Frame>, i: nat)
    requires i < |frames| && forall f :: f in frames ==> Sendable(f)
    ensures EncodeAll(frames[i..]) == Encode(frames[i]) + EncodeAll(frames[i + 1..])
  {
    assert frames[i..][1..] == frames[i + 1..];
  }
}
