/**
 Reading a request header off a client socket, in whatever pieces it arrives
 (`read_http_header` in agent/src/tunnel/main.cpp).
 */
module HttpHeader {
  import opened Text
  import opened Net
  import opened HttpText

  const LIMIT := 64 * 1024
  const SCRATCH := 4096

  /** Where the header of `bytes` ends, the marker included; `None` without a marker. */
  function HeaderEnd(bytes: string): (end: Option<nat>)
    ensures end.Some? ==> 4 <= end.value <= |bytes|
  {
    var m := FindMarker(bytes, 0);
    if m == |bytes| then None else Some(m + 4)
  }

  /** How many bytes the reader has consumed when it succeeds, given that `total` bytes are buffered
      and hold no marker; `size` is how many the client sends before it closes, `end` where its
      header ends, and `script` what the kernel does. */
  function ReadTo(total: nat, size: nat, end: Option<nat>, script: seq<nat>): Option<nat>
    decreases |script|
  {
    if total >= LIMIT || script == [] || script[0] == 0 || total >= size then None
    else
      var now := total + Min(Min(SCRATCH, size - total), script[0]);
      if end.Some? && end.value <= now then Some(now) else ReadTo(now, size, end, script[1..])
  }

  /** A marker of the whole lies within the first `n` bytes exactly when its end does. */
  lemma EndWithin(bytes: string, n: nat)
    requires n <= |bytes|
    ensures HeaderEnd(bytes[..n]) ==
            if HeaderEnd(bytes).Some? && HeaderEnd(bytes).value <= n then HeaderEnd(bytes) else None
  {
    var whole, part := FindMarker(bytes, 0), FindMarker(bytes[..n], 0);
    assert forall k: nat :: MarkerAt(bytes[..n], k) <==> MarkerAt(bytes, k) && k + 4 <= n;
    if whole + 4 <= n {
      assert MarkerAt(bytes[..n], whole);
    }
  }

  /** Success gives the header up to its marker and the bytes read with it. */
  method ReadHttpHeader(client: Socket) returns (r: Option<(string, string)>)
    modifies client`inbox, client`script
    ensures
      var bytes := old(client.inbox);
      match ReadTo(0, |bytes|, HeaderEnd(bytes), old(client.script))
      case None => r.None?
      case Some(n) =>
        && HeaderEnd(bytes).Some? && HeaderEnd(bytes).value <= n <= |bytes|
        && r == Some((bytes[..HeaderEnd(bytes).value], bytes[HeaderEnd(bytes).value..n]))
        && client.inbox == bytes[n..] && Used(old(client.script), client.script, n)
  {
    hide ReadTo, HeaderEnd;
    ghost var bytes, end := client.inbox, HeaderEnd(client.inbox);
    var buffer := "";
    var scratch := new char[SCRATCH](_ => 0 as char);
    while |buffer| < LIMIT
      invariant Used(old(client.script), client.script, |buffer|)
      invariant |buffer| <= |bytes| && buffer == bytes[..|buffer|] && client.inbox == bytes[|buffer|..]
      invariant ReadTo(0, |bytes|, end, old(client.script)) == ReadTo(|buffer|, |bytes|, end, client.script)
      decreases |client.script|
    {
      ReadToStep(|buffer|, |bytes|, end, client.script);
      var got := client.Recv(scratch, 0, SCRATCH);
      if got <= 0 {
        return None;
      }
      assert scratch[..got] == scratch[..][..got];
      buffer := buffer + scratch[..got];
      assert buffer == bytes[..|buffer|];
      EndWithin(bytes, |buffer|);
      EndIsMarker(buffer);
      var found := FindMarker(buffer, 0);
      if found < |buffer| {
        var headerLen := found + 4;
        assert buffer[..headerLen] == bytes[..headerLen] && buffer[headerLen..] == bytes[headerLen..|buffer|];
        return Some((buffer[..headerLen], buffer[headerLen..]));
      }
    }
    ReadToStep(|buffer|, |bytes|, end, client.script);
    return None;
  }

  lemma EndIsMarker(bytes: string)
    ensures HeaderEnd(bytes) == if FindMarker(bytes, 0) < |bytes| then Some(FindMarker(bytes, 0) + 4) else None
  {
  }

  lemma ReadToStep(total: nat, size: nat, end: Option<nat>, script: seq<nat>)
    ensures ReadTo(total, size, end, script) ==
            if total >= LIMIT || script == [] || script[0] == 0 || total >= size then None
            else
              var now := total + Min(Min(SCRATCH, size - total), script[0]);
              if end.Some? && end.value <= now then Some(now) else ReadTo(now, size, end, script[1..])
  {
  }

  // ---- what does not depend on the chunks --------------------------------------------------------

  /** As long as the kernel does not fail, a header that ends within the limit is always read. */
  lemma {:induction false} EarlyEndSucceeds(total: nat, size: nat, end: nat, script: seq<nat>)
    requires total < end <= size && end <= LIMIT
    requires Lasting(script, end - total)
    ensures ReadTo(total, size, Some(end), script).Some?
    decreases |script|
  {
    var now := total + Min(Min(SCRATCH, size - total), script[0]);
    if now < end {
      EarlyEndSucceeds(now, size, end, script[1..]);
    }
  }

  /** A header that ends too late, or not at all, is never read. */
  lemma {:induction false} LateEndFails(total: nat, size: nat, end: Option<nat>, script: seq<nat>)
    requires end.None? || end.value > LIMIT - 1 + SCRATCH
    ensures ReadTo(total, size, end, script).None?
    decreases |script|
  {
    if total < LIMIT && script != [] && script[0] > 0 && total < size {
      LateEndFails(total + Min(Min(SCRATCH, size - total), script[0]), size, end, script[1..]);
    }
  }

  /** `k` full reads in a row. */
  lemma {:induction false} FullReads(total: nat, size: nat, end: nat, script: seq<nat>, k: nat)
    requires k <= |script| && forall i :: 0 <= i < k ==> script[i] >= SCRATCH
    requires total + k * SCRATCH <= LIMIT < end <= size
    ensures ReadTo(total, size, Some(end), script) == ReadTo(total + k * SCRATCH, size, Some(end), script[k..])
    decreases k
  {
    if k == 0 {
      assert script[0..] == script;
    } else {
      FullReads(total + SCRATCH, size, end, script[1..], k - 1);
      assert script[1..][k - 1..] == script[k..];
    }
  }

  /** A kernel that fills every read stops the reader exactly at the limit. */
  function Greedy(n: nat): (script: seq<nat>)
    ensures Lasting(script, n) && |script| == n
  {
    seq(n, i => SCRATCH)
  }

  /** One that holds back a single byte just before the limit lets one more read through. */
  function Hesitant(n: nat): (script: seq<nat>)
    ensures Lasting(script, n) && |script| == n
  {
    seq(n, i => if i == 15 then SCRATCH - 1 else SCRATCH)
  }

  lemma GreedyFails(size: nat, end: nat)
    requires LIMIT < end <= size
    ensures ReadTo(0, size, Some(end), Greedy(size + 1)).None?
  {
    FullReads(0, size, end, Greedy(size + 1), 16);
  }

  lemma HesitantSucceeds(size: nat, end: nat)
    requires LIMIT < end <= size && end <= LIMIT - 1 + SCRATCH
    ensures ReadTo(0, size, Some(end), Hesitant(size + 1)).Some?
  {
    var script := Hesitant(size + 1);
    FullReads(0, size, end, script, 15);
    var rest := script[15..];
    assert rest[0] == SCRATCH - 1 && rest[1] == SCRATCH;
    assert ReadTo(15 * SCRATCH, size, Some(end), rest) == ReadTo(LIMIT - 1, size, Some(end), rest[1..]);
  }

  /** The outcome is the same for every way a kernel that does not fail may cut the bytes up, exactly
      when the header ends within the limit, or past the limit by more than one read, or never. */
  lemma ChunkingMattersOnlyInBetween(bytes: string)
    ensures
      (forall s, s' :: Lasting(s, |bytes| + 1) && Lasting(s', |bytes| + 1) ==>
         ReadTo(0, |bytes|, HeaderEnd(bytes), s).Some? == ReadTo(0, |bytes|, HeaderEnd(bytes), s').Some?)
      <==>
      match HeaderEnd(bytes)
      case None => true
      case Some(end) => end <= 65536 || end > 69631
  {
    var end, size := HeaderEnd(bytes), |bytes|;
    if end.Some? && end.value <= LIMIT {
      forall s | Lasting(s, size + 1) ensures ReadTo(0, size, end, s).Some? {
        EarlyEndSucceeds(0, size, end.value, s);
      }
    } else if end.None? || end.value > LIMIT - 1 + SCRATCH {
      forall s ensures ReadTo(0, size, end, s).None? {
        LateEndFails(0, size, end, s);
      }
    } else {
      GreedyFails(size, end.value);
      HesitantSucceeds(size, end.value);
    }
  }
}
