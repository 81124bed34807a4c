/**
 Endpoints: `host:port` text and the payload of an OPEN frame
 (agent/src/common/net.cpp, agent/src/tunnel/main.cpp, agent/src/agent/main.cpp).
 */
module Endpoints {
  import opened Text

  const MAX_PORT := 65535

  datatype Endpoint = Endpoint(host: string, port: nat)

  function EndpointToString(host: string, port: nat): string {
    host + ":" + ToDecimal(port)
  }

  /** The port of a `host:port` text: the default when the text is empty. */
  function ParsePort(text: string, defaultPort: nat): Option<nat> {
    if text == "" then Some(defaultPort)
    else
      match Stoi(text)
      case None => None
      case Some(n) => if n <= 0 || n > MAX_PORT then None else Some(n)
  }

  function ParseHostPort(value: string, defaultPort: nat): Option<Endpoint> {
    if value == "" then None
    else
      match SplitHostPort(value)
      case None => None
      case Some((host, portText)) =>
        if host == "" then None
        else
          match ParsePort(portText, defaultPort)
          case None => None
          case Some(port) => if port == 0 then None else Some(Endpoint(host, port))
  }

  /** The host text and the port text of `value`: bracketed hosts first, then the last colon. */
  function SplitHostPort(value: string): Option<(string, string)>
    requires value != ""
  {
    if value[0] == '[' then
      var end := FindChar(value, ']');
      if end == |value| then None
      else if end + 1 == |value| then Some((value[1..end], ""))
      else if value[end + 1] != ':' then None
      else Some((value[1..end], value[end + 2..]))
    else
      var colon := RFindChar(value, ':');
      if colon == 0 then Some((value, "")) else Some((value[..colon - 1], value[colon..]))
  }

  function MakeOpenPayload(host: string, port: nat): string {
    host + "\n" + ToDecimal(port)
  }

  function ParseOpenPayload(payload: string): Option<Endpoint> {
    var sep := FindChar(payload, '\n');
    if sep == |payload| then None
    else
      match Stoi(payload[sep + 1..])
      case None => None
      case Some(n) =>
        if payload[..sep] == "" || n <= 0 || n > MAX_PORT then None
        else Some(Endpoint(payload[..sep], n))
  }

  // ---- printing and parsing undo each other -----------------------------------------------------

  predicate IsPort(port: nat) {
    1 <= port <= 65535
  }

  /** The last colon of a printed endpoint is the one before the port. */
  lemma LastColon(host: string, port: nat)
    ensures RFindChar(EndpointToString(host, port), ':') == |host| + 1
    ensures EndpointToString(host, port)[..|host|] == host
    ensures EndpointToString(host, port)[|host| + 1..] == ToDecimal(port)
  {
    var s := EndpointToString(host, port);
    assert s[|host|] == ':';
    assert forall k :: |host| < k < |s| ==> s[k] == ToDecimal(port)[k - |host| - 1];
  }

  lemma EndpointInjective(host: string, port: nat, host': string, port': nat)
    requires EndpointToString(host, port) == EndpointToString(host', port')
    ensures host == host' && port == port'
  {
    LastColon(host, port);
    LastColon(host', port');
    ValueOfDecimal(port);
    ValueOfDecimal(port');
  }

  lemma PlainHostRead(host: string, port: nat, defaultPort: nat)
    requires IsPort(port) && host != "" && host[0] != '['
    ensures ParseHostPort(EndpointToString(host, port), defaultPort) == Some(Endpoint(host, port))
  {
    var s := EndpointToString(host, port);
    LastColon(host, port);
    StoiOfDecimal(port);
    assert s[0] == host[0];
    assert SplitHostPort(s) == Some((host, ToDecimal(port)));
    hide SplitHostPort, Stoi, EndpointToString;
  }

  lemma BracketHostLost(host: string, port: nat, defaultPort: nat)
    requires host != "" && host[0] == '['
    ensures ParseHostPort(EndpointToString(host, port), defaultPort) != Some(Endpoint(host, port))
  {
    var s := EndpointToString(host, port);
    assert s[|host| + 1] == ToDecimal(port)[0];
  }

  lemma EmptyHostLost(port: nat, defaultPort: nat)
    ensures ParseHostPort(EndpointToString("", port), defaultPort) == None
  {
    LastColon("", port);
  }

  /** `parse_host_port` reads back exactly the endpoints whose host is not empty and does not open
      a bracket. */
  lemma HostPortRoundTrip(host: string, port: nat, defaultPort: nat)
    requires IsPort(port)
    ensures ParseHostPort(EndpointToString(host, port), defaultPort) == Some(Endpoint(host, port))
            <==> host != "" && host[0] != '['
  {
    hide ParseHostPort, EndpointToString;
    if host == "" {
      EmptyHostLost(port, defaultPort);
    } else if host[0] == '[' {
      BracketHostLost(host, port, defaultPort);
    } else {
      PlainHostRead(host, port, defaultPort);
    }
  }

  /** `parse_open_payload` reads back exactly the requests whose host is not empty and holds no
      line feed. */
  lemma OpenRoundTrip(host: string, port: nat)
    requires IsPort(port)
    ensures ParseOpenPayload(MakeOpenPayload(host, port)) == Some(Endpoint(host, port))
            <==> host != "" && '\n' !in host
  {
    var s := MakeOpenPayload(host, port);
    var sep := FindChar(s, '\n');
    assert s[|host|] == '\n';
    assert sep <= |host|;
    StoiOfDecimal(port);
    if '\n' !in host {
      assert forall k :: 0 <= k < |host| ==> s[k] == host[k];
      assert sep == |host|;
      assert s[..sep] == host && s[sep + 1..] == ToDecimal(port);
    } else {
      var k :| 0 <= k < |host| && host[k] == '\n';
      assert s[k] == '\n';
      assert sep < |host|;
    }
  }

  /** What every accepted `host:port` text gives, whatever its form. */
  lemma ParsedHostPort(value: string, defaultPort: nat)
    requires defaultPort <= MAX_PORT
    ensures
      match ParseHostPort(value, defaultPort)
      case None => true
      case Some(e) => e.host != "" && IsPort(e.port) && forall c :: c in e.host ==> c in value
  {
  }

  // ---- the agent's allowlist --------------------------------------------------------------------

  /** The allowlist the agent builds from its `allow` entries. */
  function AllowSet(entries: seq<string>): set<string> {
    set x | x in entries && ParseHostPort(x, 0).Some? ::
      EndpointToString(ParseHostPort(x, 0).value.host, ParseHostPort(x, 0).value.port)
  }

  /** The test of `handle_open` on printed endpoints is membership of the pair itself. */
  lemma AllowlistIsMembership(entries: seq<string>, e: Endpoint)
    ensures EndpointToString(e.host, e.port) in AllowSet(entries)
            <==> exists x :: x in entries && ParseHostPort(x, 0) == Some(e)
  {
    if EndpointToString(e.host, e.port) in AllowSet(entries) {
      var x :| x in entries && ParseHostPort(x, 0).Some? &&
        EndpointToString(ParseHostPort(x, 0).value.host, ParseHostPort(x, 0).value.port) == EndpointToString(e.host, e.port);
      EndpointInjective(ParseHostPort(x, 0).value.host, ParseHostPort(x, 0).value.port, e.host, e.port);
    }
  }
}
