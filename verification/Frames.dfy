/**
 Frames of the tunnel protocol (agent/src/common/protocol.hpp) and what a sequence of frames of
 one stream carries.
 */
module Frames {

  const OPEN: nat := 4
  const OPEN_OK: nat := 5
  const DATA: nat := 6
  const CLOSE: nat := 7
  const ERROR: nat := 8

  const CONTROL_STREAM: nat := 0

  datatype Frame = Frame(tag: nat, id: nat, payload: string)

  /** The frames of stream `id`, in order. */
  function Of(q: seq<Frame>, id: nat): seq<Frame> {
    if q == [] then []
    else (if q[0].id == id then [q[0]] else []) + Of(q[1..], id)
  }

  /** The bytes the DATA frames carry, in order. */
  function DataBytes(q: seq<Frame>): string {
    if q == [] then ""
    else (if q[0].tag == DATA then q[0].payload else "") + DataBytes(q[1..])
  }

  /** How many CLOSE frames there are. */
  function Closes(q: seq<Frame>): nat {
    if q == [] then 0
    else (if q[0].tag == CLOSE then 1 else 0) + Closes(q[1..])
  }

  function Errors(q: seq<Frame>): nat {
    if q == [] then 0
    else (if q[0].tag == ERROR then 1 else 0) + Errors(q[1..])
  }

  /** The bytes of the DATA frames that come before the first CLOSE. */
  function BytesBeforeClose(q: seq<Frame>): string {
    if q == [] || q[0].tag == CLOSE then ""
    else (if q[0].tag == DATA then q[0].payload else "") + BytesBeforeClose(q[1..])
  }

  lemma {:induction false} OfAppend(q: seq<Frame>, f: Frame, id: nat)
    ensures Of(q + [f], id) == Of(q, id) + (if f.id == id then [f] else [])
  {
    if q == [] {
      assert q + [f] == [f];
    } else {
      OfAppend(q[1..], f, id);
      assert (q + [f])[1..] == q[1..] + [f];
    }
  }

  /** A sequence of frames of one stream together with what it carries. */
  datatype Line = Line(frames: seq<Frame>, bytes: string, closes: nat, errors: nat, beforeClose: string)

  const EMPTY_LINE := Line([], "", 0, 0, "")

  function LineOf(q: seq<Frame>): Line {
    Line(q, DataBytes(q), Closes(q), Errors(q), BytesBeforeClose(q))
  }

  function Carried(f: Frame): string {
    if f.tag == DATA then f.payload else ""
  }

  /** A line after `f` has been written to it. */
  function Add(l: Line, f: Frame): Line {
    Line(l.frames + [f], l.bytes + Carried(f),
         l.closes + (if f.tag == CLOSE then 1 else 0),
         l.errors + (if f.tag == ERROR then 1 else 0),
         if l.closes > 0 then l.beforeClose else l.bytes + Carried(f))
  }

  predicate Fits(l: Line) {
    l.frames == [] ==> l == EMPTY_LINE
  }

  /** `rest` is `l` without its first frame. */
  predicate Behind(l: Line, rest: Line)
    requires l.frames != []
  {
    var f := l.frames[0];
    && rest.frames == l.frames[1..] && Fits(rest)
    && l.bytes == Carried(f) + rest.bytes
    && l.closes == (if f.tag == CLOSE then 1 else 0) + rest.closes
    && l.errors == (if f.tag == ERROR then 1 else 0) + rest.errors
    && l.beforeClose == (if f.tag == CLOSE then "" else Carried(f) + rest.beforeClose)
  }

  lemma {:induction false} BytesAppend(q: seq<Frame>, f: Frame)
    ensures DataBytes(q + [f]) == DataBytes(q) + Carried(f)
  {
    if q == [] {
      assert q + [f] == [f];
    } else {
      BytesAppend(q[1..], f);
      assert (q + [f])[1..] == q[1..] + [f];
    }
  }

  lemma {:induction false} CountsAppend(q: seq<Frame>, f: Frame)
    ensures Closes(q + [f]) == Closes(q) + (if f.tag == CLOSE then 1 else 0)
    ensures Errors(q + [f]) == Errors(q) + (if f.tag == ERROR then 1 else 0)
  {
    if q == [] {
      assert q + [f] == [f];
    } else {
      CountsAppend(q[1..], f);
      assert (q + [f])[1..] == q[1..] + [f];
    }
  }

  /** Without a CLOSE so far, all bytes come before the first one, the new ones included. */
  lemma {:induction false} BeforeCloseAppend(q: seq<Frame>, f: Frame)
    ensures Closes(q) == 0 ==> BytesBeforeClose(q) == DataBytes(q)
    ensures BytesBeforeClose(q + [f]) == if Closes(q) > 0 then BytesBeforeClose(q) else DataBytes(q) + Carried(f)
  {
    if q == [] {
      assert q + [f] == [f];
    } else {
      BeforeCloseAppend(q[1..], f);
      assert (q + [f])[1..] == q[1..] + [f];
    }
  }

  lemma LineAppend(q: seq<Frame>, f: Frame)
    ensures LineOf(q + [f]) == Add(LineOf(q), f)
  {
    BytesAppend(q, f);
    CountsAppend(q, f);
    BeforeCloseAppend(q, f);
    hide DataBytes, Closes, Errors, BytesBeforeClose;
  }

  lemma LineBehind(q: seq<Frame>)
    requires q != []
    ensures Behind(LineOf(q), LineOf(q[1..]))
  {
  }
}
