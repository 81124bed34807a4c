/**
 Sockets as the kernel shows them, and the loops that hide partial transfers
 (agent/src/common/net.cpp).
 */
module Net {

  const CHUNK := 65536

  /** The kernel will not fail within the next `n` calls. */
  predicate Lasting(script: seq<nat>, n: nat) {
    |script| >= n && forall i :: 0 <= i < n ==> script[i] > 0
  }

  /** At most `n` entries of `script` have been used up. */
  predicate Used(script: seq<nat>, rest: seq<nat>, n: nat) {
    |rest| <= |script| <= |rest| + n && rest == script[|script| - |rest|..]
  }

  lemma StillLasting(script: seq<nat>, rest: seq<nat>, n: nat, more: nat)
    requires Lasting(script, n + more) && Used(script, rest, n)
    ensures Lasting(rest, more)
  {
  }

  function Min(a: nat, b: nat): nat {
    if a <= b then a else b
  }

  /** `inbox` holds what the peer has sent and nobody has read, followed by end of file; `outbox`
      all the kernel has taken.  Each call consults the next entry of `script`: zero, or no entry,
      is a failure; a positive entry is the most bytes this call moves. */
  class Socket {
    var inbox: string
    var outbox: string
    var script: seq<nat>

    constructor (inbox: string, script: seq<nat>)
      ensures this.inbox == inbox && this.script == script && outbox == ""
    {
      this.inbox, this.script, outbox := inbox, script, "";
    }

    /** `recv`, and `recv_some` around it: -1 is failure, 0 end of file. */
    method Recv(buffer: array<char>, at: nat, len: nat) returns (got: int)
      requires len > 0 && at + len <= buffer.Length
      modifies this`inbox, this`script, buffer
      ensures got <= Min(len, CHUNK) && got <= |old(inbox)|
      ensures got < 0 <==> old(script) == [] || old(script)[0] == 0
      ensures got == 0 ==> old(inbox) == ""
      ensures got <= 0 ==> inbox == old(inbox) && buffer[..] == old(buffer[..])
      ensures got > 0 ==> inbox == old(inbox)[got..] && got <= old(script)[0]
                          && buffer[..] == old(buffer[..at]) + old(inbox)[..got] + old(buffer[at + got..])
      ensures got > 0 ==> got == Min(Min(Min(len, CHUNK), |old(inbox)|), old(script)[0])
      ensures script == if old(script) == [] then [] else old(script)[1..]
    {
      var allowed := if script == [] then 0 else script[0];
      if script != [] {
        script := script[1..];
      }
      if allowed == 0 {
        return -1;
      }
      var n := Min(Min(Min(len, CHUNK), |inbox|), allowed);
      forall i | 0 <= i < n {
        buffer[at + i] := inbox[i];
      }
      inbox := inbox[n..];
      return n;
    }

    /** `send` on at most `CHUNK` bytes, not none: -1 is failure. */
    method Send(data: string) returns (sent: int)
      requires 0 < |data| <= CHUNK
      modifies this`outbox, this`script
      ensures sent == -1 || 0 < sent <= |data|
      ensures sent < 0 <==> old(script) == [] || old(script)[0] == 0
      ensures outbox == old(outbox) + (if sent > 0 then data[..sent] else "")
      ensures script == if old(script) == [] then [] else old(script)[1..]
    {
      var allowed := if script == [] then 0 else script[0];
      if script != [] {
        script := script[1..];
      }
      if allowed == 0 {
        return -1;
      }
      sent := Min(|data|, allowed);
      outbox := outbox + data[..sent];
    }
  }

  /** `send_all`: everything, or a failure that leaves a proper prefix with the kernel. */
  method SendAll(sock: Socket, data: string) returns (ok: bool)
    modifies sock`outbox, sock`script
    ensures ok ==> sock.outbox == old(sock.outbox) + data
    ensures !ok ==> exists k :: 0 <= k < |data| && sock.outbox == old(sock.outbox) + data[..k]
    ensures Lasting(old(sock.script), |data|) ==> ok
    ensures ok ==> Used(old(sock.script), sock.script, |data|)
  {
    var total := 0;
    ghost var calls := 0;
    while total < |data|
      invariant 0 <= calls <= total <= |data|
      invariant sock.outbox == old(sock.outbox) + data[..total]
      invariant calls <= |old(sock.script)| && sock.script == old(sock.script)[calls..]
    {
      var remaining := |data| - total;
      var chunk := if remaining > CHUNK then CHUNK else remaining;
      var sent := sock.Send(data[total..total + chunk]);
      if sent <= 0 {
        return false;
      }
      assert data[..total] + data[total..total + chunk][..sent] == data[..total + sent];
      total := total + sent;
      calls := calls + 1;
    }
    assert data[..total] == data;
    return true;
  }
}
