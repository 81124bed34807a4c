/**
 Turning a client's proxy request into a target and the bytes to send it
 (`parse_proxy_request` in agent/src/tunnel/main.cpp).
 */
module ProxyRequest {
  import opened Text
  import opened Endpoints
  import opened HttpText

  datatype Parsed =
    | Rejected(error: string)
    | Connect(host: string, port: nat)
    | Forward(host: string, port: nat, initialData: string)

  /** Where an accepted request that is not CONNECT goes, and the path its request line will name;
      `absolute` for a request in absolute-form. */
  datatype Route = Route(path: string, absolute: bool, host: string, port: nat) | NoRoute(error: string)

  // ---- request line ---------------------------------------------------------------------------

  function WordLength(s: string): (n: nat)
    ensures n <= |s|
    ensures forall i :: 0 <= i < n ==> !IsSpace(s[i])
    ensures n < |s| ==> IsSpace(s[n])
  {
    if s == "" || IsSpace(s[0]) then 0 else 1 + WordLength(s[1..])
  }

  /** One `>>` of an `istringstream` into a string: the word, and what is left. */
  function NextWord(s: string): (string, string) {
    var t := SkipSpaces(s);
    (t[..WordLength(t)], t[WordLength(t)..])
  }

  function ThreeWords(line: string): (string, string, string) {
    var (a, rest) := NextWord(line);
    var (b, rest') := NextWord(rest);
    var (c, _) := NextWord(rest');
    (a, b, c)
  }

  // ---- header lines ---------------------------------------------------------------------------

  predicate IsHostLine(line: string) {
    StartsWithCi(line, "host:")
  }

  predicate IsProxyConnection(line: string) {
    StartsWithCi(line, "proxy-connection:")
  }

  /** The trimmed value of the first Host line, or nothing. */
  function HostValue(lines: seq<string>): string {
    if lines == [] then ""
    else if IsHostLine(lines[0]) then Trim(lines[0][5..])
    else HostValue(lines[1..])
  }

  method FindHostHeader(lines: seq<string>) returns (value: string)
    ensures value == HostValue(lines)
  {
    for i := 0 to |lines|
      invariant HostValue(lines[i..]) == HostValue(lines)
    {
      assert lines[i..][1..] == lines[i + 1..];
      if IsHostLine(lines[i]) {
        value := TrimCopy(lines[i][5..]);
        return;
      }
    }
    return "";
  }

  predicate HasHost(lines: seq<string>) {
    exists i :: 0 <= i < |lines| && IsHostLine(lines[i])
  }

  function HostLine(host: string, port: nat): string {
    "Host: " + EndpointToString(host, port)
  }

  /** The lines after the request line that are passed on. */
  function KeptLines(lines: seq<string>, absolute: bool, hostLine: string): seq<string> {
    if lines == [] then []
    else
      var rest := KeptLines(lines[1..], absolute, hostLine);
      if lines[0] == "" || IsProxyConnection(lines[0]) then rest
      else if IsHostLine(lines[0]) && absolute then [hostLine] + rest
      else [lines[0]] + rest
  }

  /** The lines after the request line of the rewritten header. */
  function NewBody(absolute: bool, hostLine: string, lines: seq<string>): seq<string> {
    KeptLines(lines, absolute, hostLine) + (if HasHost(lines) then [] else [hostLine])
  }

  /** The lines of the rewritten header. */
  function NewLines(method': string, version: string, route: Route, lines: seq<string>): seq<string>
    requires route.Route? && lines != []
  {
    [method' + " " + route.path + " " + version]
    + NewBody(route.absolute, HostLine(route.host, route.port), lines[1..])
  }

  function RouteOf(target: string, hostValue: string): Route {
    if StartsWithCi(target, "http://") then
      var rest := target[7..];
      var slash := FindChar(rest, '/');
      match ParseHostPort(rest[..slash], 80)
      case None => NoRoute("invalid http URL")
      case Some(e) => Route(if slash == |rest| then "/" else rest[slash..], true, e.host, e.port)
    else if StartsWithCi(target, "https://") then NoRoute("HTTPS proxying must use CONNECT")
    else
      match ParseHostPort(hostValue, 80)
      case None => NoRoute("missing or invalid Host header")
      case Some(e) => Route(target, false, e.host, e.port)
  }

  /** The header without its last four bytes, which are the marker when it was read as a header. */
  function Unmarked(raw: string): string {
    if |raw| >= 4 then raw[..|raw| - 4] else raw
  }

  function ParseLines(lines: seq<string>, leftover: string): Parsed {
    if lines == [] then Rejected("empty request")
    else
      var (method', target, version) := ThreeWords(lines[0]);
      if method' == "" || target == "" || version == "" then Rejected("invalid request line")
      else if Lower(method') == "connect" then
        match ParseHostPort(target, 443)
        case None => Rejected("invalid CONNECT target")
        case Some(e) => Connect(e.host, e.port)
      else
        match RouteOf(target, HostValue(lines))
        case NoRoute(error) => Rejected(error)
        case Route(path, absolute, host, port) =>
          Forward(host, port, Join(NewLines(method', version, Route(path, absolute, host, port), lines)) + CRLF + leftover)
  }

  function Parse(raw: string, leftover: string): Parsed {
    ParseLines(Lines(Unmarked(raw)), leftover)
  }

  method ParseProxyRequest(raw: string, leftover: string) returns (parsed: Parsed)
    ensures parsed == Parse(raw, leftover)
  {
    hide Lines, KeptLines, Join, HasHost, HostValue, RouteOf, ThreeWords, HostLine;
    var lines := SplitLines(Unmarked(raw));
    if lines == [] {
      return Rejected("empty request");
    }
    var (method', target, version) := ThreeWords(lines[0]);
    if method' == "" || target == "" || version == "" {
      return Rejected("invalid request line");
    }
    if Lower(method') == "connect" {
      var endpoint := ParseHostPort(target, 443);
      if endpoint.None? {
        return Rejected("invalid CONNECT target");
      }
      return Connect(endpoint.value.host, endpoint.value.port);
    }
    var hostValue := FindHostHeader(lines);
    var route := RouteOf(target, hostValue);
    if route.NoRoute? {
      return Rejected(route.error);
    }
    var hostLine := HostLine(route.host, route.port);
    var first := method' + " " + route.path + " " + version;
    var kept, sawHost := RewriteLines(lines, route.absolute, hostLine);
    var rewritten := first + CRLF + kept;
    if !sawHost {
      rewritten := rewritten + hostLine + CRLF;
    }
    Assembled(first, route.absolute, hostLine, lines[1..]);
    rewritten := rewritten + CRLF;
    return Forward(route.host, route.port, rewritten + leftover);
  }

  /** What the loop does with one line: the text it adds. */
  function RewrittenLine(line: string, absolute: bool, hostLine: string): string {
    if line == "" || IsProxyConnection(line) then ""
    else if IsHostLine(line) && absolute then hostLine + CRLF
    else line + CRLF
  }

  /** What is still to be written from line `i` on. */
  function Pending(lines: seq<string>, i: nat, absolute: bool, hostLine: string): string
    requires i <= |lines|
  {
    Join(KeptLines(lines[i..], absolute, hostLine))
  }

  lemma Assembled(first: string, absolute: bool, hostLine: string, lines: seq<string>)
    ensures Join([first] + NewBody(absolute, hostLine, lines)) ==
            if HasHost(lines) then first + CRLF + Join(KeptLines(lines, absolute, hostLine))
            else first + CRLF + Join(KeptLines(lines, absolute, hostLine)) + hostLine + CRLF
  {
    hide KeptLines, Join, HasHost;
    var kept := KeptLines(lines, absolute, hostLine);
    JoinCons(first, NewBody(absolute, hostLine, lines));
    if HasHost(lines) {
      assert kept + [] == kept;
    } else {
      JoinAppend(kept, hostLine);
      Regroup4(first + CRLF, Join(kept), hostLine);
    }
  }

  lemma Regroup4(a: string, b: string, c: string)
    ensures a + (b + c + CRLF) == a + b + c + CRLF
  {
  }

  lemma JoinCons(line: string, rest: seq<string>)
    ensures Join([line] + rest) == line + CRLF + Join(rest)
  {
    assert ([line] + rest)[1..] == rest;
  }

  lemma PendingStep(lines: seq<string>, i: nat, absolute: bool, hostLine: string)
    requires i < |lines|
    ensures Pending(lines, i, absolute, hostLine)
            == RewrittenLine(lines[i], absolute, hostLine) + Pending(lines, i + 1, absolute, hostLine)
  {
    hide Join, IsHostLine, IsProxyConnection;
    assert lines[i..][1..] == lines[i + 1..];
    var rest := KeptLines(lines[i + 1..], absolute, hostLine);
    JoinCons(hostLine, rest);
    JoinCons(lines[i], rest);
  }

  lemma PendingAfter(lines: seq<string>, i: nat, absolute: bool, hostLine: string, done: string)
    requires i < |lines|
    ensures
      var line, rest := lines[i], Pending(lines, i + 1, absolute, hostLine);
      done + Pending(lines, i, absolute, hostLine) ==
        if line == "" || IsProxyConnection(line) then done + rest
        else if IsHostLine(line) && absolute then done + hostLine + CRLF + rest
        else done + line + CRLF + rest
  {
    hide Pending, IsHostLine, IsProxyConnection;
    PendingStep(lines, i, absolute, hostLine);
    var line, rest := lines[i], Pending(lines, i + 1, absolute, hostLine);
    if line != "" && !IsProxyConnection(line) {
      if IsHostLine(line) && absolute {
        Regroup(done, hostLine, rest);
      } else {
        Regroup(done, line, rest);
      }
    }
  }

  lemma Regroup(done: string, line: string, rest: string)
    ensures done + ((line + CRLF) + rest) == done + line + CRLF + rest
  {
  }

  /** The loop over the lines after the request line. */
  method RewriteLines(lines: seq<string>, absolute: bool, hostLine: string) returns (rewritten: string, sawHost: bool)
    requires lines != []
    ensures rewritten == Join(KeptLines(lines[1..], absolute, hostLine))
    ensures sawHost == HasHost(lines[1..])
  {
    hide Pending, IsHostLine, IsProxyConnection, HasHost;
    rewritten, sawHost := "", false;
    NoHosts();
    assert lines[1..1] == [];
    for i := 1 to |lines|
      invariant rewritten + Pending(lines, i, absolute, hostLine) == Pending(lines, 1, absolute, hostLine)
      invariant sawHost == HasHost(lines[1..i])
    {
      PendingAfter(lines, i, absolute, hostLine, rewritten);
      HostsStep(lines, i);
      if lines[i] == "" {
        continue;
      }
      if IsProxyConnection(lines[i]) {
        continue;
      }
      if IsHostLine(lines[i]) {
        sawHost := true;
        if absolute {
          rewritten := rewritten + hostLine + CRLF;
        } else {
          rewritten := rewritten + lines[i] + CRLF;
        }
        continue;
      }
      rewritten := rewritten + lines[i] + CRLF;
    }
    assert lines[1..|lines|] == lines[1..];
    PendingNone(lines, absolute, hostLine);
  }

  lemma PendingNone(lines: seq<string>, absolute: bool, hostLine: string)
    requires lines != []
    ensures Pending(lines, |lines|, absolute, hostLine) == ""
    ensures Pending(lines, 1, absolute, hostLine) == Join(KeptLines(lines[1..], absolute, hostLine))
  {
    assert lines[|lines|..] == [];
  }

  lemma NoHosts()
    ensures !HasHost([])
  {
  }

  lemma HostsStep(lines: seq<string>, i: nat)
    requires 1 <= i < |lines|
    ensures HasHost(lines[1..i + 1]) == (HasHost(lines[1..i]) || IsHostLine(lines[i]))
    ensures IsHostLine(lines[i]) ==> lines[i] != "" && !IsProxyConnection(lines[i])
  {
    assert lines[1..i + 1] == lines[1..i] + [lines[i]];
    HostsAppend(lines[1..i], lines[i]);
    if IsProxyConnection(lines[i]) {
      NotBoth(lines[i]);
    }
  }

  lemma HostsAppend(lines: seq<string>, line: string)
    ensures HasHost(lines + [line]) == (HasHost(lines) || IsHostLine(line))
  {
    var all := lines + [line];
    assert all[|lines|] == line;
    assert forall i :: 0 <= i < |lines| ==> all[i] == lines[i];
  }

  lemma NotBoth(line: string)
    requires IsProxyConnection(line)
    ensures !IsHostLine(line)
  {
    assert Lower(line[..5])[0] == LowerChar(line[0]) == Lower(line[..17])[0];
    assert Lower("host:")[0] == 'h' && Lower("proxy-connection:")[0] == 'p';
  }

  lemma {:induction false} JoinAppend(lines: seq<string>, line: string)
    ensures Join(lines + [line]) == Join(lines) + line + CRLF
  {
    if lines == [] {
      assert [line][1..] == [];
    } else {
      JoinAppend(lines[1..], line);
      assert (lines + [line])[1..] == lines[1..] + [line];
    }
  }
}
