/**
 The wire format of a frame: one byte of type, four bytes of stream id and four of payload length,
 both big-endian, then the payload (agent/src/common/channel.cpp, agent/src/common/protocol.cpp).
 */
module Wire {
  import opened Text
  import opened Frames

  const HEADER := 9
  const MAX_PAYLOAD := 16 * 1024 * 1024

  /** A frame as the C++ types can hold it; `send_frame` accepts it if the payload is not too long. */
  predicate Sendable(f: Frame) {
    f.tag < 256 && f.id < 0x1_0000_0000 && |f.payload| <= MAX_PAYLOAD
  }

  /** The value of a `uint8_t`. */
  function Byte(c: char): nat {
    c as int % 256
  }

  /** The four bytes of `htonl(n)` in memory order. */
  function Be32(n: nat): (s: string)
    requires n < 0x1_0000_0000
    ensures |s| == 4
  {
    [(n / 0x100_0000) as char, (n / 0x1_0000 % 256) as char, (n / 256 % 256) as char, (n % 256) as char]
  }

  function FromBe32(s: string): (n: nat)
    requires |s| == 4
    ensures n < 0x1_0000_0000
  {
    Byte(s[0]) * 0x100_0000 + Byte(s[1]) * 0x1_0000 + Byte(s[2]) * 256 + Byte(s[3])
  }

  function Header(f: Frame): (s: string)
    requires Sendable(f)
    ensures |s| == HEADER
  {
    [f.tag as char] + Be32(f.id) + Be32(|f.payload|)
  }

  function Encode(f: Frame): string
    requires Sendable(f)
  {
    Header(f) + f.payload
  }

  /** The payload length a header announces. */
  function Announced(header: string): nat
    requires |header| == HEADER
  {
    FromBe32(header[5..9])
  }

  function Decode(header: string, payload: string): Frame
    requires |header| == HEADER
  {
    Frame(Byte(header[0]), FromBe32(header[1..5]), payload)
  }

  /** Whether `bytes` begins with a complete frame of acceptable length. */
  predicate Complete(bytes: string) {
    |bytes| >= HEADER && Announced(bytes[..HEADER]) <= MAX_PAYLOAD &&
    |bytes| >= HEADER + Announced(bytes[..HEADER])
  }

  function First(bytes: string): Frame
    requires Complete(bytes)
  {
    Decode(bytes[..HEADER], bytes[HEADER..HEADER + Announced(bytes[..HEADER])])
  }

  function Rest(bytes: string): string
    requires Complete(bytes)
  {
    bytes[HEADER + Announced(bytes[..HEADER])..]
  }

  /** The frames a reader gets from `bytes` followed by end of file. */
  function DecodeAll(bytes: string): seq<Frame>
    decreases |bytes|
  {
    if Complete(bytes) then [First(bytes)] + DecodeAll(Rest(bytes)) else []
  }

  function EncodeAll(fs: seq<Frame>): string
    requires forall f :: f in fs ==> Sendable(f)
  {
    if fs == [] then "" else Encode(fs[0]) + EncodeAll(fs[1..])
  }

  // ---- reading back ---------------------------------------------------------------------------

  lemma Be32RoundTrip(n: nat)
    requires n < 0x1_0000_0000
    ensures FromBe32(Be32(n)) == n
  {
    var a, b, c, d := n / 0x100_0000, n / 0x1_0000 % 256, n / 256 % 256, n % 256;
    assert n / 0x1_0000 == n / 0x100_0000 * 256 + b;
    assert n / 256 == n / 0x1_0000 * 256 + c;
    assert n == n / 256 * 256 + d;
    assert a < 256;
  }

  lemma HeaderParts(f: Frame)
    requires Sendable(f)
    ensures Header(f)[0] == f.tag as char
    ensures Header(f)[1..5] == Be32(f.id) && Header(f)[5..9] == Be32(|f.payload|)
  {
  }

  /** What `recv_frame` finds at the head of an encoded frame is that frame, whatever follows. */
  lemma EncodeThenFirst(f: Frame, more: string)
    requires Sendable(f)
    ensures Complete(Encode(f) + more) && First(Encode(f) + more) == f && Rest(Encode(f) + more) == more
  {
    var bytes := Encode(f) + more;
    HeaderParts(f);
    Be32RoundTrip(f.id);
    Be32RoundTrip(|f.payload|);
    hide Header, Be32, FromBe32, Byte;
    assert bytes[..HEADER] == Header(f);
    assert bytes[HEADER..HEADER + |f.payload|] == f.payload;
    assert bytes[HEADER + |f.payload|..] == more;
  }

  lemma TruncatedIsIncomplete(f: Frame, n: nat)
    requires Sendable(f) && n < |Encode(f)|
    ensures !Complete(Encode(f)[..n])
  {
    if n >= HEADER {
      HeaderParts(f);
      Be32RoundTrip(|f.payload|);
      assert Encode(f)[..n][..HEADER] == Header(f);
    }
  }

  lemma NothingIsIncomplete()
    ensures !Complete("")
  {
  }

  /** How many frames of `fs` lie whole within the first `n` bytes. */
  function WholeWithin(fs: seq<Frame>, n: nat): (k: nat)
    requires forall f :: f in fs ==> Sendable(f)
    ensures k <= |fs|
  {
    if fs == [] || |Encode(fs[0])| > n then 0 else 1 + WholeWithin(fs[1..], n - |Encode(fs[0])|)
  }

  /** The frame stream cut off after any number of bytes gives exactly the frames that are whole
      within them, and nothing after; in particular the whole stream gives the whole list. */
  lemma {:induction false} FramesOfPrefix(fs: seq<Frame>, n: nat)
    requires forall f :: f in fs ==> Sendable(f)
    requires n <= |EncodeAll(fs)|
    ensures DecodeAll(EncodeAll(fs)[..n]) == fs[..WholeWithin(fs, n)]
    ensures n == |EncodeAll(fs)| ==> WholeWithin(fs, n) == |fs| && DecodeAll(EncodeAll(fs)) == fs
  {
    hide Encode, Complete, First, Rest, Sendable;
    var all := EncodeAll(fs);
    assert n == |all| ==> all[..n] == all;
    if fs == [] {
      NothingIsIncomplete();
    } else {
      var e := Encode(fs[0]);
      if n < |e| {
        assert all[..n] == e[..n];
        TruncatedIsIncomplete(fs[0], n);
      } else {
        var tail := EncodeAll(fs[1..])[..n - |e|];
        assert all[..n] == e + tail;
        EncodeThenFirst(fs[0], tail);
        FramesOfPrefix(fs[1..], n - |e|);
        assert fs[..WholeWithin(fs, n)] == [fs[0]] + fs[1..][..WholeWithin(fs[1..], n - |e|)];
      }
    }
  }

  /** The bytes on the wire: the type, the four bytes of the id and of the payload length, highest first,
      then the payload; and what fits: 16 MiB. */
  lemma WireLayout(f: Frame, i0: nat, i1: nat, i2: nat, i3: nat, n0: nat, n1: nat, n2: nat, n3: nat)
    requires f.tag < 256 && i0 < 256 && i1 < 256 && i2 < 256 && i3 < 256 && n0 < 256 && n1 < 256 && n2 < 256 && n3 < 256
    requires f.id == 16777216 * i0 + 65536 * i1 + 256 * i2 + i3
    requires |f.payload| == 16777216 * n0 + 65536 * n1 + 256 * n2 + n3
    ensures Sendable(f) <==> |f.payload| <= 16777216
    ensures Sendable(f) ==>
              Encode(f) == [f.tag as char, i0 as char, i1 as char, i2 as char, i3 as char,
                            n0 as char, n1 as char, n2 as char, n3 as char] + f.payload
  {
    Places(f.id, i0, i1, i2, i3);
    Places(|f.payload|, n0, n1, n2, n3);
  }

  lemma Places(n: nat, a: nat, b: nat, c: nat, d: nat)
    requires a < 256 && b < 256 && c < 256 && d < 256 && n == 16777216 * a + 65536 * b + 256 * c + d
    ensures n < 0x1_0000_0000 && Be32(n) == [a as char, b as char, c as char, d as char]
  {
    assert n / 256 == 65536 * a + 256 * b + c && n % 256 == d;
    assert n / 0x1_0000 == 256 * a + b;
    assert n / 0x100_0000 == a;
  }
}
