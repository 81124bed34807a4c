/**
 Which of a client's bytes a proxy handler wants its target to get, and which it loses: those read
 together with the header of a CONNECT (agent/src/tunnel/main.cpp).
 */
module ProxyBytes {
  import opened Text
  import opened Endpoints
  import opened HttpText
  import opened HttpHeader
  import opened ProxyRequest
  import opened ProxyRewrite
  import opened ProxyHandler

  lemma Rejoin(data: string, k: nat, bytes: string, end: nat, n: nat)
    requires k <= |data| && end <= n <= |bytes| && data[k..] == bytes[end..n]
    ensures data + bytes[n..] == data[..k] + bytes[end..]
  {
    assert data == data[..k] + bytes[end..n];
    assert bytes[end..] == bytes[end..n] + bytes[n..];
  }

  lemma ForwardedEnds(raw: string, leftover: string, host: string, port: nat, data: string)
    requires Parse(raw, leftover) == Forward(host, port, data)
    ensures var k := FindMarker(data, 0) + 4; k <= |data| && data[k..] == leftover
  {
    hide *;
    RewriteKeepsMeaning(raw, leftover, host, port, data);
  }

  /** The request is the parse of the header and of what was read with it. */
  lemma RequestParts(bytes: string, script: seq<nat>)
    requires RequestOf(bytes, script).Some?
    ensures
      var (request, n) := RequestOf(bytes, script).value;
      var end := HeaderEnd(bytes);
      && end.Some? && end.value <= n <= |bytes| && request == Parse(bytes[..end.value], bytes[end.value..n])
  {
    hide Parse, ReadTo, HeaderEnd;
  }

  /** Of a forwarded request every byte behind the client's header is wanted, behind a new header.  Of a
      CONNECT they are wanted exactly when none of them was read together with the header. */
  lemma WantedBytes(bytes: string, script: seq<nat>)
    requires RequestOf(bytes, script).Some? && !RequestOf(bytes, script).value.0.Rejected?
    ensures
      var (request, n) := RequestOf(bytes, script).value;
      var end := HeaderEnd(bytes);
      && end.Some? && end.value <= n <= |bytes|
      && var wanted := Wanted(request, bytes[n..]);
      match request
      case Connect(_, _) => wanted == bytes[end.value..] <==> n == end.value
      case Forward(_, _, data) =>
        var k := FindMarker(data, 0) + 4;
        k <= |data| && wanted == data[..k] + bytes[end.value..]
  {
    RequestParts(bytes, script);
    var (request, n) := RequestOf(bytes, script).value;
    var end := HeaderEnd(bytes).value;
    hide Parse, RequestOf, HeaderEnd, FindMarker;
    match request
    case Connect(_, _) =>
      assert |bytes[n..]| == |bytes| - n && |bytes[end..]| == |bytes| - end;
    case Forward(host, port, data) =>
      ForwardedEnds(bytes[..end], bytes[end..n], host, port, data);
      Rejoin(data, FindMarker(data, 0) + 4, bytes, end, n);
  }

  // ---- a CONNECT that loses them --------------------------------------------------------------------

  /** The header of a bare request ends where it was printed to end. */
  lemma BareHeaderEnd(method': string, target: string, version: string, more: string)
    requires NoSpace(method') && NoSpace(target) && NoSpace(version)
    ensures var raw := BareRequest(method', target, version);
            HeaderEnd(raw + more) == Some(|raw|) && |raw| >= 4 && (raw + more)[..|raw|] == raw
  {
    var line := method' + " " + target + " " + version;
    RequestLineIsLine(method', target, version);
    MarkerAtEnd([line], more);
    assert Join([line]) == line + CRLF by {
      assert [line][1..] == [];
    }
    var raw := BareRequest(method', target, version);
    assert raw == Join([line]) + CRLF;
    hide BareRequest, Join;
    assert raw + more == Join([line]) + CRLF + more;
  }

  lemma ConnectParsed(method': string, target: string, version: string, leftover: string)
    requires method' != "" && target != "" && version != "" && NoSpace(method') && NoSpace(target) && NoSpace(version)
    requires Lower(method') == "connect" && ParseHostPort(target, 443).Some?
    ensures var e := ParseHostPort(target, 443).value;
            Parse(BareRequest(method', target, version), leftover) == Connect(e.host, e.port)
  {
    BareRequestLines(method', target, version);
    hide Lines, Unmarked, ThreeWords, ParseHostPort, BareRequest, RouteOf, NewLines;
  }

  /** One read that takes it all. */
  lemma OneRead(bytes: string, end: nat)
    requires HeaderEnd(bytes) == Some(end) && |bytes| <= SCRATCH
    ensures ReadTo(0, |bytes|, HeaderEnd(bytes), [SCRATCH]) == Some(|bytes|)
    ensures ReadTo(0, |bytes|, HeaderEnd(bytes), [end]) == Some(end)
  {
    hide HeaderEnd;
  }

  /** The same CONNECT with the same bytes behind it, read in one piece or in two: all of these bytes are
      lost, or none. */
  lemma ConnectLosesBytes(method': string, target: string, version: string, more: string)
    requires method' != "" && target != "" && version != "" && NoSpace(method') && NoSpace(target) && NoSpace(version)
    requires Lower(method') == "connect" && ParseHostPort(target, 443).Some?
    requires |BareRequest(method', target, version)| + |more| <= SCRATCH
    ensures
      var raw := BareRequest(method', target, version);
      var once, twice := RequestOf(raw + more, [SCRATCH]), RequestOf(raw + more, [|raw|]);
      var e := ParseHostPort(target, 443).value;
      && once.Some? && once.value.0 == Connect(e.host, e.port) && once.value.1 == |raw + more|
      && Wanted(once.value.0, (raw + more)[once.value.1..]) == ""
      && twice.Some? && twice.value.0 == Connect(e.host, e.port) && twice.value.1 == |raw|
      && Wanted(twice.value.0, (raw + more)[twice.value.1..]) == more
  {
    var raw := BareRequest(method', target, version);
    var bytes := raw + more;
    BareHeaderEnd(method', target, version, more);
    OneRead(bytes, |raw|);
    ConnectParsed(method', target, version, bytes[|raw|..]);
    ConnectParsed(method', target, version, bytes[|raw|..|raw|]);
    hide ReadTo, HeaderEnd, Parse, BareRequest, ParseHostPort;
    assert bytes[|raw|..|bytes|] == bytes[|raw|..];
    assert bytes[|raw|..] == more;
  }

  lemma ExampleWords()
    ensures NoSpace("CONNECT") && NoSpace("h:1") && NoSpace("HTTP/1.1")
  {
  }

  lemma ExampleMethod()
    ensures Lower("CONNECT") == "connect"
  {
  }

  lemma ExampleTarget()
    ensures ParseHostPort("h:1", 443) == Some(Endpoint("h", 1))
  {
    PrintedOne();
    hide *;
    assert "h"[0] != '[' && "h" != "";
    PlainHostRead("h", 1, 443);
  }

  lemma PrintedOne()
    ensures EndpointToString("h", 1) == "h:1" && IsPort(1)
  {
    var one := ToDecimal(1);
    assert one == ['1'];
    hide ToDecimal;
    assert "h" + ":" + one == "h:1";
  }

  lemma BareLength(method': string, target: string, version: string)
    ensures |BareRequest(method', target, version)| == |method'| + |target| + |version| + 6
  {
  }

  /** Such a CONNECT. */
  lemma ConnectExample()
    ensures
      var bytes := BareRequest("CONNECT", "h:1", "HTTP/1.1") + "x";
      var once := RequestOf(bytes, [SCRATCH]);
      && once.Some? && once.value.0 == Connect("h", 1)
      && Wanted(once.value.0, bytes[once.value.1..]) == ""
  {
    assert SCRATCH == 4096;
    hide *;
    ExampleWords();
    ExampleMethod();
    ExampleTarget();
    BareLength("CONNECT", "h:1", "HTTP/1.1");
    ConnectLosesBytes("CONNECT", "h:1", "HTTP/1.1", "x");
  }
}
