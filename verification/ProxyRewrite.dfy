/**
 What rewriting a proxy request keeps: the shape of the new header, its lines, its endpoint, and
 what happens when the result is rewritten again.
 */
module ProxyRewrite {
  import opened Text
  import opened Endpoints
  import opened HttpText
  import opened ProxyRequest

  // ---- words and slices -----------------------------------------------------------------------

  predicate NoSpace(s: string) {
    forall i :: 0 <= i < |s| ==> !IsSpace(s[i])
  }

  lemma {:induction false} WordEnds(word: string, rest: string)
    requires NoSpace(word) && (rest == "" || IsSpace(rest[0]))
    ensures WordLength(word + rest) == |word|
  {
    if word == "" {
      assert word + rest == rest;
    } else {
      WordEnds(word[1..], rest);
      assert (word + rest)[1..] == word[1..] + rest;
    }
  }

  lemma FirstWord(word: string, rest: string)
    requires word != "" && NoSpace(word) && (rest == "" || IsSpace(rest[0]))
    ensures NextWord(word + rest) == (word, rest)
  {
    WordEnds(word, rest);
    assert SkipSpaces(word + rest) == word + rest;
  }

  lemma SpacedWord(word: string, rest: string)
    requires word != "" && NoSpace(word) && (rest == "" || IsSpace(rest[0]))
    ensures NextWord(" " + word + rest) == (word, rest)
  {
    FirstWord(word, rest);
    var s := " " + word + rest;
    assert s[1..] == word + rest;
    assert SkipSpaces(s) == SkipSpaces(s[1..]);
  }

  /** The three words of a request line written by the rewriter. */
  lemma ThreeWordsOfPrinted(a: string, b: string, c: string)
    requires a != "" && b != "" && c != "" && NoSpace(a) && NoSpace(b) && NoSpace(c)
    ensures ThreeWords(a + " " + b + " " + c) == (a, b, c)
  {
    hide NextWord;
    assert a + " " + b + " " + c == a + (" " + b + (" " + c + ""));
    FirstWord(a, " " + b + (" " + c + ""));
    SpacedWord(b, " " + c + "");
    SpacedWord(c, "");
  }

  lemma WordsHaveNoSpace(line: string)
    ensures var (a, b, c) := ThreeWords(line); NoSpace(a) && NoSpace(b) && NoSpace(c)
  {
  }

  lemma {:induction false} SkipKeepsNoCrlf(s: string)
    requires NoCrlf(s)
    ensures NoCrlf(SkipSpaces(s))
  {
    if s != "" && IsSpace(s[0]) {
      assert forall i :: 0 <= i < |s[1..]| ==> (CrlfAt(s[1..], i) ==> CrlfAt(s, i + 1));
      SkipKeepsNoCrlf(s[1..]);
    }
  }

  lemma TrimKeepsNoCrlf(s: string)
    requires NoCrlf(s)
    ensures NoCrlf(Trim(s))
  {
    SkipKeepsNoCrlf(s);
    var t := SkipSpaces(s);
    assert forall i :: 0 <= i < |Trim(s)| ==> (CrlfAt(Trim(s), i) ==> CrlfAt(t, i));
  }

  lemma SliceKeepsNoCrlf(s: string, i: nat, j: nat)
    requires NoCrlf(s) && i <= j <= |s|
    ensures NoCrlf(s[i..j])
  {
    assert forall k :: 0 <= k < j - i ==> (CrlfAt(s[i..j], k) ==> CrlfAt(s, i + k));
  }

  lemma ParsedHostKeepsNoCrlf(value: string)
    requires NoCrlf(value)
    ensures ParseHostPort(value, 80).Some? ==> NoCrlf(ParseHostPort(value, 80).value.host)
  {
    if ParseHostPort(value, 80).Some? {
      if value[0] == '[' {
        SliceKeepsNoCrlf(value, 1, FindChar(value, ']'));
      } else if RFindChar(value, ':') > 0 {
        SliceKeepsNoCrlf(value, 0, RFindChar(value, ':') - 1);
      }
    }
  }

  lemma {:induction false} HostValueHasNoCrlf(lines: seq<string>)
    requires forall i :: 0 <= i < |lines| ==> NoCrlf(lines[i])
    ensures NoCrlf(HostValue(lines))
  {
    if lines != [] {
      if IsHostLine(lines[0]) {
        SliceKeepsNoCrlf(lines[0], 5, |lines[0]|);
        assert lines[0][5..|lines[0]|] == lines[0][5..];
        TrimKeepsNoCrlf(lines[0][5..]);
      } else {
        HostValueHasNoCrlf(lines[1..]);
      }
    }
  }

  // ---- the route --------------------------------------------------------------------------------

  /** What a request's target says, by the form it is in. */
  ghost predicate Routed(target: string, hostValue: string, r: Route)
    requires r.Route?
  {
    && r.host != "" && IsPort(r.port)
    && (if r.absolute then
          && StartsWithCi(target, "http://")
          && NoSpace(r.host) && r.path != "" && r.path[0] == '/'
          && (exists authority, tail :: IsAuthority(target, authority, tail)
                && ParseHostPort(authority, 80) == Some(Endpoint(r.host, r.port))
                && r.path == if tail == "" then "/" else tail)
        else
          && !StartsWithCi(target, "http://") && !StartsWithCi(target, "https://")
          && r.path == target
          && ParseHostPort(hostValue, 80) == Some(Endpoint(r.host, r.port)))
  }

  /** `target` is an `http` URL with this authority, and this from the first slash on. */
  ghost predicate IsAuthority(target: string, authority: string, tail: string) {
    && |target| >= 7 && target[7..] == authority + tail
    && '/' !in authority && (tail == "" || tail[0] == '/')
  }

  lemma RouteIsRouted(target: string, hostValue: string)
    requires NoSpace(target)
    ensures RouteOf(target, hostValue).Route? ==> Routed(target, hostValue, RouteOf(target, hostValue))
  {
    var r := RouteOf(target, hostValue);
    if r.Route? && r.absolute {
      var rest := target[7..];
      var slash := FindChar(rest, '/');
      assert IsAuthority(target, rest[..slash], rest[slash..]);
      AbsoluteRoute(target, hostValue);
    } else {
      hide ParseHostPort;
      ParsedHostPort(hostValue, 80);
    }
  }

  lemma AbsoluteRoute(target: string, hostValue: string)
    requires NoSpace(target) && RouteOf(target, hostValue).Route? && StartsWithCi(target, "http://")
    ensures
      var r := RouteOf(target, hostValue);
      var rest := target[7..];
      var slash := FindChar(rest, '/');
      && r.absolute && r.host != "" && IsPort(r.port) && NoSpace(r.host) && r.path != "" && r.path[0] == '/'
      && ParseHostPort(rest[..slash], 80) == Some(Endpoint(r.host, r.port))
      && r.path == if rest[slash..] == "" then "/" else rest[slash..]
  {
    hide ParseHostPort;
    var r := RouteOf(target, hostValue);
    var rest := target[7..];
    var slash := FindChar(rest, '/');
    ParsedHostPort(rest[..slash], 80);
    forall i | 0 <= i < |r.host| ensures !IsSpace(r.host[i]) {
      assert r.host[i] in rest[..slash];
    }
  }

  // ---- the lines of the new header ----------------------------------------------------------------

  /** What `KeptLines` keeps, seen only through the lines that are not Host lines, the Host lines,
      and where the Host lines stand: together these three determine a list of lines. */
  function Ordinary(lines: seq<string>): seq<string> {
    if lines == [] then []
    else if lines[0] == "" || IsProxyConnection(lines[0]) || IsHostLine(lines[0]) then Ordinary(lines[1..])
    else [lines[0]] + Ordinary(lines[1..])
  }

  function Hosts(lines: seq<string>): seq<string> {
    if lines == [] then []
    else if IsHostLine(lines[0]) then [lines[0]] + Hosts(lines[1..])
    else Hosts(lines[1..])
  }

  /** For each line that is passed on, whether it is a Host line. */
  function Order(lines: seq<string>): seq<bool> {
    if lines == [] then []
    else if lines[0] == "" || IsProxyConnection(lines[0]) then Order(lines[1..])
    else [IsHostLine(lines[0])] + Order(lines[1..])
  }

  predicate Passable(lines: seq<string>) {
    forall i :: 0 <= i < |lines| ==> lines[i] != "" && !IsProxyConnection(lines[i])
  }

  lemma {:induction false} KeptIsFaithful(lines: seq<string>, absolute: bool, hostLine: string)
    requires IsHostLine(hostLine)
    ensures
      var kept := KeptLines(lines, absolute, hostLine);
      && Passable(kept)
      && Ordinary(kept) == Ordinary(lines)
      && Order(kept) == Order(lines)
      && |Hosts(kept)| == |Hosts(lines)|
      && (if absolute then forall i :: 0 <= i < |Hosts(kept)| ==> Hosts(kept)[i] == hostLine
          else Hosts(kept) == Hosts(lines))
  {
    hide IsHostLine, IsProxyConnection;
    if lines != [] {
      var line, rest := lines[0], KeptLines(lines[1..], absolute, hostLine);
      KeptIsFaithful(lines[1..], absolute, hostLine);
      if IsHostLine(line) {
        HostsAreNot(line);
      }
      HostsAreNot(hostLine);
      assert ([line] + rest)[1..] == rest && ([hostLine] + rest)[1..] == rest;
    }
  }

  lemma HostsAreNot(line: string)
    requires IsHostLine(line)
    ensures line != "" && !IsProxyConnection(line)
  {
    if IsProxyConnection(line) {
      NotBoth(line);
    }
  }

  lemma {:induction false} AppendToOrdinary(lines: seq<string>, hostLine: string)
    requires IsHostLine(hostLine)
    ensures Ordinary(lines + [hostLine]) == Ordinary(lines)
  {
    hide IsHostLine, IsProxyConnection;
    if lines == [] {
      assert [hostLine][1..] == [];
    } else {
      assert (lines + [hostLine])[1..] == lines[1..] + [hostLine];
      AppendToOrdinary(lines[1..], hostLine);
    }
  }

  lemma {:induction false} AppendToHosts(lines: seq<string>, hostLine: string)
    requires IsHostLine(hostLine)
    ensures Hosts(lines + [hostLine]) == Hosts(lines) + [hostLine]
  {
    hide IsHostLine;
    if lines == [] {
      assert [hostLine][1..] == [];
    } else {
      assert (lines + [hostLine])[1..] == lines[1..] + [hostLine];
      AppendToHosts(lines[1..], hostLine);
    }
  }

  lemma {:induction false} AppendToOrder(lines: seq<string>, hostLine: string)
    requires IsHostLine(hostLine)
    ensures Order(lines + [hostLine]) == Order(lines) + [true]
  {
    HostsAreNot(hostLine);
    hide IsHostLine, IsProxyConnection;
    if lines == [] {
      assert [hostLine][1..] == [];
    } else {
      assert (lines + [hostLine])[1..] == lines[1..] + [hostLine];
      AppendToOrder(lines[1..], hostLine);
    }
  }

  lemma {:induction false} HostsExist(lines: seq<string>)
    ensures HasHost(lines) <==> Hosts(lines) != []
  {
    hide IsHostLine;
    if lines != [] {
      HostsExist(lines[1..]);
      if HasHost(lines) && !IsHostLine(lines[0]) {
        var i :| 0 <= i < |lines| && IsHostLine(lines[i]);
        assert IsHostLine(lines[1..][i - 1]);
      } else if HasHost(lines[1..]) {
        var i :| 0 <= i < |lines[1..]| && IsHostLine(lines[1..][i]);
        assert IsHostLine(lines[i + 1]);
      }
    }
  }

  lemma {:induction false} FirstHostCounts(lines: seq<string>)
    ensures forall i :: 0 <= i < |Hosts(lines)| ==> IsHostLine(Hosts(lines)[i])
    ensures if Hosts(lines) == [] then HostValue(lines) == ""
            else |Hosts(lines)[0]| >= 5 && HostValue(lines) == Trim(Hosts(lines)[0][5..])
  {
    hide Trim;
    if lines != [] {
      FirstHostCounts(lines[1..]);
    }
  }

  /** A line is determined by what `Ordinary`, `Hosts` and `Order` say of the whole. */
  lemma {:induction false} ThreeViewsDetermine(a: seq<string>, b: seq<string>)
    requires Passable(a) && Passable(b)
    requires Ordinary(a) == Ordinary(b) && Hosts(a) == Hosts(b) && Order(a) == Order(b)
    ensures a == b
  {
    hide IsHostLine, IsProxyConnection;
    if a != [] && b != [] {
      assert Order(a)[0] == Order(b)[0];
      if IsHostLine(a[0]) {
        assert Hosts(a)[0] == Hosts(b)[0];
      } else {
        assert Ordinary(a)[0] == Ordinary(b)[0];
      }
      assert Order(a)[1..] == Order(b)[1..];
      assert Hosts(a[1..]) == if IsHostLine(a[0]) then Hosts(a)[1..] else Hosts(a);
      assert Ordinary(a[1..]) == if IsHostLine(a[0]) then Ordinary(a) else Ordinary(a)[1..];
      ThreeViewsDetermine(a[1..], b[1..]);
    }
  }

  // ---- the shape of what is sent to the target ----------------------------------------------------

  /** The Host lines a rewritten request carries. */
  function NewHosts(absolute: bool, hosts: seq<string>, hostLine: string): seq<string> {
    if hosts == [] then [hostLine]
    else if absolute then seq(|hosts|, i => hostLine)
    else hosts
  }

  /** Where they stand: a Host line that had to be added comes last. */
  function NewOrder(order: seq<bool>, hosts: seq<string>): seq<bool> {
    if hosts == [] then order + [true] else order
  }

  lemma NewBodyIsFaithful(absolute: bool, hostLine: string, lines: seq<string>)
    requires IsHostLine(hostLine)
    ensures
      var body := NewBody(absolute, hostLine, lines);
      && Passable(body)
      && Ordinary(body) == Ordinary(lines)
      && Order(body) == NewOrder(Order(lines), Hosts(lines))
      && Hosts(body) == NewHosts(absolute, Hosts(lines), hostLine)
  {
    hide IsHostLine, HasHost, IsProxyConnection, KeptLines, Ordinary, Hosts, Order;
    var kept := KeptLines(lines, absolute, hostLine);
    KeptIsFaithful(lines, absolute, hostLine);
    HostsExist(lines);
    HostsAreNot(hostLine);
    if Hosts(lines) == [] {
      AppendToOrdinary(kept, hostLine);
      AppendToHosts(kept, hostLine);
      AppendToOrder(kept, hostLine);
    } else {
      assert kept + [] == kept;
    }
  }

  lemma HostLineIsHost(host: string, port: nat)
    ensures IsHostLine(HostLine(host, port))
    ensures HostLine(host, port)[5..] == " " + EndpointToString(host, port)
    ensures Trim(" " + EndpointToString(host, port)) == Trim(EndpointToString(host, port))
  {
    var line := HostLine(host, port);
    assert line[..5] == "Host:";
    assert Lower("Host:") == "host:" == Lower("host:");
    assert (" " + EndpointToString(host, port))[1..] == EndpointToString(host, port);
  }

  lemma HostLineIsLine(host: string, port: nat)
    requires NoCrlf(host)
    ensures HeaderLine(HostLine(host, port))
  {
    var line := HostLine(host, port);
    var n := |host|;
    assert line == "Host: " + host + ":" + ToDecimal(port);
    forall i | 0 <= i < |line| ensures !CrlfAt(line, i) {
      if 6 <= i && i + 1 < 6 + n {
        assert !CrlfAt(host, i - 6);
      } else if i >= 6 + n + 1 {
        assert line[i] == ToDecimal(port)[i - n - 7];
      } else if i + 1 == 6 + n {
        assert line[i + 1] == ':';
      } else if i == 6 + n {
        assert line[i] == ':';
      } else {
        assert line[i] == "Host: "[i];
      }
    }
  }

  lemma RequestLineIsLine(a: string, b: string, c: string)
    requires NoSpace(a) && NoSpace(b) && NoSpace(c)
    ensures HeaderLine(a + " " + b + " " + c)
  {
    var line := a + " " + b + " " + c;
    forall i | 0 <= i < |line| ensures line[i] != '\r' {
      if i < |a| {
        assert line[i] == a[i];
      } else if |a| < i <= |a| + |b| {
        assert line[i] == b[i - |a| - 1];
      } else if i > |a| + |b| + 1 {
        assert line[i] == c[i - |a| - |b| - 2];
      }
    }
  }

  lemma {:induction false} KeptAreLines(lines: seq<string>, absolute: bool, hostLine: string)
    requires forall i :: 0 <= i < |lines| ==> NoCrlf(lines[i])
    requires HeaderLine(hostLine)
    ensures HeaderLines(KeptLines(lines, absolute, hostLine))
  {
    hide IsHostLine, IsProxyConnection, NoCrlf;
    if lines != [] {
      KeptAreLines(lines[1..], absolute, hostLine);
    }
  }

  lemma NewLinesAreLines(method': string, version: string, r: Route, lines: seq<string>)
    requires r.Route? && lines != []
    requires forall i :: 0 <= i < |lines| ==> NoCrlf(lines[i])
    requires NoSpace(method') && NoSpace(version) && NoSpace(r.path) && NoCrlf(r.host)
    ensures HeaderLines(NewLines(method', version, r, lines))
  {
    HostLineIsLine(r.host, r.port);
    RequestLineIsLine(method', r.path, version);
    KeptAreLines(lines[1..], r.absolute, HostLine(r.host, r.port));
  }

  /** What acceptance says of the request line and the route. */
  lemma Accepted(raw: string, leftover: string)
    requires Parse(raw, leftover).Forward?
    ensures
      var lines := Lines(Unmarked(raw));
      && lines != []
      && var (method', target, version) := ThreeWords(lines[0]);
      && method' != "" && target != "" && version != "" && Lower(method') != "connect"
      && NoSpace(method') && NoSpace(target) && NoSpace(version)
      && var r := RouteOf(target, HostValue(lines));
      && r.Route? && Routed(target, HostValue(lines), r)
      && NoSpace(r.path) && NoCrlf(r.host) && r.path != ""
      && Parse(raw, leftover)
         == Forward(r.host, r.port, Join(NewLines(method', version, r, lines)) + CRLF + leftover)
      && HeaderLines(NewLines(method', version, r, lines))
  {
    var lines := Lines(Unmarked(raw));
    LinesHaveNoCrlf(Unmarked(raw));
    WordsHaveNoSpace(lines[0]);
    var (method', target, version) := ThreeWords(lines[0]);
    hide Lines, Unmarked, ThreeWords, RouteOf, HostValue, Lower, NewLines, Join, Routed;
    RouteFacts(lines, target);
    NewLinesAreLines(method', version, RouteOf(target, HostValue(lines)), lines);
  }

  lemma RouteFacts(lines: seq<string>, target: string)
    requires target != "" && NoSpace(target) && forall i :: 0 <= i < |lines| ==> NoCrlf(lines[i])
    ensures
      var r := RouteOf(target, HostValue(lines));
      r.Route? ==> Routed(target, HostValue(lines), r) && NoSpace(r.path) && NoCrlf(r.host) && r.path != ""
  {
    var hostValue := HostValue(lines);
    RouteIsRouted(target, hostValue);
    PathHasNoSpace(target, hostValue);
    HostValueHasNoCrlf(lines);
    ParsedHostKeepsNoCrlf(hostValue);
    if RouteOf(target, hostValue).Route? {
      RoutedHost(target, hostValue, RouteOf(target, hostValue));
    }
    hide *;
  }

  lemma PathHasNoSpace(target: string, hostValue: string)
    requires target != "" && NoSpace(target)
    ensures RouteOf(target, hostValue).Route? ==> RouteOf(target, hostValue).path != "" && NoSpace(RouteOf(target, hostValue).path)
  {
    hide ParseHostPort;
  }

  lemma RoutedHost(target: string, hostValue: string, r: Route)
    requires r.Route? && Routed(target, hostValue, r)
    requires ParseHostPort(hostValue, 80).Some? ==> NoCrlf(ParseHostPort(hostValue, 80).value.host)
    ensures NoCrlf(r.host)
  {
    hide ParseHostPort;
  }

  /** A printed header read back as `HttpText` reads headers. */
  lemma PrintedHeader(lines: seq<string>, leftover: string)
    requires lines != [] && HeaderLines(lines)
    ensures
      var data := Join(lines) + CRLF + leftover;
      var end := FindMarker(data, 0);
      end + 4 <= |data| && data[end + 4..] == leftover && Lines(data[..end]) == lines
  {
    hide Lines;
    MarkerAtEnd(lines, leftover);
    LinesOfJoin(lines);
    EndsInCrlf(lines);
    var data := Join(lines) + CRLF + leftover;
    var end := |Join(lines)| - 2;
    assert data[..end] == Join(lines)[..end];
  }

  /** The main result on one rewriting.  The marker ends the new header and nothing but the bytes read
      with the old one follows it; the request line has the words of the old one, with the path in
      place of an absolute target; and the other lines are the old ones, in order and without the
      empty and the Proxy-Connection ones, but for the Host lines. */
  lemma RewriteKeepsMeaning(raw: string, leftover: string, host: string, port: nat, data: string)
    requires Parse(raw, leftover) == Forward(host, port, data)
    ensures
      var lines := Lines(Unmarked(raw));
      var end := FindMarker(data, 0);
      && lines != [] && end + 4 <= |data| && data[end + 4..] == leftover
      && var fresh' := Lines(data[..end]);
      && fresh' != [] && HeaderLines(fresh')
      && var (method', target, version) := ThreeWords(lines[0]);
      var absolute := StartsWithCi(target, "http://");
      && (exists path ::
            && Routed(target, HostValue(lines), Route(path, absolute, host, port))
            && fresh'[0] == method' + " " + path + " " + version
            && ThreeWords(fresh'[0]) == (method', path, version))
      && Passable(fresh'[1..])
      && Ordinary(fresh'[1..]) == Ordinary(lines[1..])
      && Order(fresh'[1..]) == NewOrder(Order(lines[1..]), Hosts(lines[1..]))
      && Hosts(fresh'[1..]) == NewHosts(absolute, Hosts(lines[1..]), HostLine(host, port))
  {
    Accepted(raw, leftover);
    var lines := Lines(Unmarked(raw));
    var (method', target, version) := ThreeWords(lines[0]);
    var r := RouteOf(target, HostValue(lines));
    var body := NewBody(r.absolute, HostLine(host, port), lines[1..]);
    var fresh' := NewLines(method', version, r, lines);
    assert fresh'[1..] == body;
    hide *;
    PrintedHeader(fresh', leftover);
    HostLineIsHost(host, port);
    NewBodyIsFaithful(r.absolute, HostLine(host, port), lines[1..]);
    ThreeWordsOfPrinted(method', r.path, version);
    assert Routed(target, HostValue(lines), Route(r.path, r.absolute, host, port));
  }

  // ---- rewriting what was rewritten ---------------------------------------------------------------

  /** A line that was passed on once is passed on unchanged by an origin-form request. */
  lemma {:induction false} KeptAgain(lines: seq<string>, hostLine: string)
    requires Passable(lines)
    ensures KeptLines(lines, false, hostLine) == lines
  {
    if lines != [] {
      KeptAgain(lines[1..], hostLine);
    }
  }

  lemma HostPrefixHasNoSpace(s: string)
    requires IsHostLine(s)
    ensures |s| >= 5 && forall i :: 0 <= i < 5 ==> !IsSpace(s[i])
  {
    var t := Lower("host:");
    assert t == "host:";
    forall i | 0 <= i < 5 ensures !IsSpace(s[i]) {
      assert LowerChar(s[i]) == Lower(s[..5])[i] == t[i];
    }
  }

  lemma {:induction false} WordCovers(s: string, n: nat)
    requires n <= |s| && NoSpace(s[..n])
    ensures WordLength(s) >= n
  {
    if n > 0 {
      assert s[..n][0] == s[0];
      assert s[1..][..n - 1] == s[..n][1..];
      WordCovers(s[1..], n - 1);
    }
  }

  /** A request line that looks like a Host line has a method that does. */
  lemma RequestLineAsHost(line: string)
    requires IsHostLine(line)
    ensures IsHostLine(ThreeWords(line).0)
  {
    HostPrefixHasNoSpace(line);
    WordCovers(line, 5);
    assert line[..WordLength(line)][..5] == line[..5];
  }

  /** And the other way round, for a request line that was rewritten. */
  lemma PrintedLineAsHost(method': string, rest: string)
    requires NoSpace(method')
    ensures IsHostLine(method' + " " + rest) <==> IsHostLine(method')
  {
    var line := method' + " " + rest;
    assert line[|method'|] == ' ';
    if |method'| >= 5 {
      assert line[..5] == method'[..5];
    } else if IsHostLine(line) {
      HostPrefixHasNoSpace(line);
    }
  }

  lemma TrimmedEndpoint(host: string, port: nat)
    requires host != "" && NoSpace(host)
    ensures Trim(EndpointToString(host, port)) == EndpointToString(host, port)
  {
    var s := EndpointToString(host, port);
    assert s[0] == host[0] && s[|s| - 1] == ToDecimal(port)[|ToDecimal(port)| - 1];
    assert SkipSpaces(s) == s;
  }

  /** When rewriting again gives the same: for an absolute target, when the printed host can be read
      back, unless the method makes the request line itself pass for a Host line. */
  predicate Settles(firstLine: string, absolute: bool, host: string, port: nat)
    requires host != ""
  {
    if IsHostLine(firstLine) then ParseHostPort(Trim(firstLine[5..]), 80) == Some(Endpoint(host, port))
    else absolute ==> host[0] != '['
  }

  /** The first Host line of a rewritten header. */
  lemma HostValueAgain(method': string, version: string, r: Route, lines: seq<string>)
    requires r.Route? && lines != [] && r.host != "" && NoSpace(method')
    requires r.absolute ==> NoSpace(r.host)
    requires IsHostLine(lines[0]) ==> IsHostLine(method')
    requires !r.absolute ==> HostValue(lines) != ""
    ensures
      var fresh' := NewLines(method', version, r, lines);
      HostValue(fresh') ==
        if IsHostLine(fresh'[0]) then Trim(fresh'[0][5..])
        else if r.absolute then EndpointToString(r.host, r.port)
        else HostValue(lines)
  {
    var rest := r.path + " " + version;
    var first := method' + " " + r.path + " " + version;
    assert first == method' + " " + rest;
    PrintedLineAsHost(method', rest);
    var fresh' := NewLines(method', version, r, lines);
    assert fresh'[0] == first;
    assert fresh'[1..] == NewBody(r.absolute, HostLine(r.host, r.port), lines[1..]);
    assert HostValue(fresh') == if IsHostLine(first) then Trim(first[5..]) else HostValue(fresh'[1..]);
    assert HostValue(lines) == if IsHostLine(lines[0]) then Trim(lines[0][5..]) else HostValue(lines[1..]);
    hide *;
    if !IsHostLine(first) {
      BodyHostValue(r, lines[1..]);
    }
  }

  lemma BodyHostValue(r: Route, lines: seq<string>)
    requires r.Route? && r.host != "" && (r.absolute ==> NoSpace(r.host))
    requires !r.absolute ==> HostValue(lines) != ""
    ensures HostValue(NewBody(r.absolute, HostLine(r.host, r.port), lines))
            == if r.absolute then EndpointToString(r.host, r.port) else HostValue(lines)
  {
    var hostLine := HostLine(r.host, r.port);
    var body := NewBody(r.absolute, hostLine, lines);
    HostLineIsHost(r.host, r.port);
    NewBodyIsFaithful(r.absolute, hostLine, lines);
    FirstHostCounts(body);
    FirstHostCounts(lines);
    if r.absolute {
      TrimmedEndpoint(r.host, r.port);
      assert Hosts(body)[0] == hostLine;
    }
  }

  lemma PathIsNoUrl(path: string)
    requires path != "" && path[0] == '/'
    ensures !StartsWithCi(path, "http://") && !StartsWithCi(path, "https://")
  {
    var a, b := Lower("http://"), Lower("https://");
    assert a[0] == 'h' && b[0] == 'h';
    assert |path| >= 7 ==> Lower(path[..7])[0] == '/';
    assert |path| >= 8 ==> Lower(path[..8])[0] == '/';
  }

  lemma RoutedPath(target: string, hostValue: string, r: Route)
    requires r.Route? && Routed(target, hostValue, r)
    ensures !StartsWithCi(r.path, "http://") && !StartsWithCi(r.path, "https://")
    ensures r.absolute == StartsWithCi(target, "http://") && r.host != ""
  {
    hide ParseHostPort, StartsWithCi;
    if r.absolute {
      PathIsNoUrl(r.path);
    }
  }

  /** The lines of a rewritten header are parsed as an origin-form request that changes nothing. */
  lemma ParseAgain(method': string, version: string, r: Route, lines: seq<string>, leftover: string)
    requires r.Route? && lines != []
    requires method' != "" && NoSpace(method') && Lower(method') != "connect"
    requires r.path != "" && NoSpace(r.path) && version != "" && NoSpace(version)
    requires !StartsWithCi(r.path, "http://") && !StartsWithCi(r.path, "https://")
    ensures
      var fresh' := NewLines(method', version, r, lines);
      ParseLines(fresh', leftover) == Forward(r.host, r.port, Join(fresh') + CRLF + leftover)
      <==> ParseHostPort(HostValue(fresh'), 80) == Some(Endpoint(r.host, r.port))
  {
    var fresh' := NewLines(method', version, r, lines);
    NewLinesAgain(method', version, r, lines);
    ThreeWordsOfPrinted(method', r.path, version);
    hide ThreeWords, StartsWithCi, HostLine, HostValue, KeptLines, HasHost, ParseHostPort, Join;
  }

  lemma NewLinesAgain(method': string, version: string, r: Route, lines: seq<string>)
    requires r.Route? && lines != []
    ensures
      var fresh' := NewLines(method', version, r, lines);
      NewLines(method', version, Route(r.path, false, r.host, r.port), fresh') == fresh'
  {
    var hostLine := HostLine(r.host, r.port);
    var body := NewBody(r.absolute, hostLine, lines[1..]);
    HostLineIsHost(r.host, r.port);
    NewBodyIsFaithful(r.absolute, hostLine, lines[1..]);
    HostsExist(body);
    KeptAgain(body, hostLine);
    hide HostLine, KeptLines, HasHost;
    assert body + [] == body;
    assert NewLines(method', version, r, lines)[1..] == body;
  }

  /** Rewriting the rewritten header again, with the same bytes behind it, gives the same host, port
      and bytes exactly when `Settles` says so. */
  lemma RewriteAgain(raw: string, leftover: string, host: string, port: nat, data: string)
    requires Parse(raw, leftover) == Forward(host, port, data)
    ensures
      var lines := Lines(Unmarked(raw));
      var end := FindMarker(data, 0);
      lines != [] && host != "" && end + 4 <= |data| && Lines(data[..end]) != [] &&
      var absolute := StartsWithCi(ThreeWords(lines[0]).1, "http://");
      Parse(data[..end + 4], data[end + 4..]) == Forward(host, port, data)
      <==> Settles(Lines(data[..end])[0], absolute, host, port)
  {
    hide *;
    Accepted(raw, leftover);
    var lines := Lines(Unmarked(raw));
    var (method', target, version) := ThreeWords(lines[0]);
    var r := RouteOf(target, HostValue(lines));
    var fresh' := NewLines(method', version, r, lines);
    SettlesMeans(lines, method', target, version);
    RoutedPath(target, HostValue(lines), r);
    ParseAgain(method', version, r, lines, leftover);
    PrintedHeader(fresh', leftover);
    ParseOfPrinted(data, FindMarker(data, 0));
  }

  /** `Settles` is about the Host line a second reading finds. */
  lemma SettlesMeans(lines: seq<string>, method': string, target: string, version: string)
    requires lines != [] && NoSpace(method') && method' == ThreeWords(lines[0]).0
    requires RouteOf(target, HostValue(lines)).Route? && Routed(target, HostValue(lines), RouteOf(target, HostValue(lines)))
    ensures
      var r := RouteOf(target, HostValue(lines));
      var fresh' := NewLines(method', version, r, lines);
      && fresh' != []
      && (Settles(fresh'[0], r.absolute, r.host, r.port)
          <==> ParseHostPort(HostValue(fresh'), 80) == Some(Endpoint(r.host, r.port)))
  {
    var r := RouteOf(target, HostValue(lines));
    assert NewLines(method', version, r, lines) != [];
    assert !r.absolute ==> HostValue(lines) != "";
    assert r.absolute ==> NoSpace(r.host);
    assert !r.absolute ==> ParseHostPort(HostValue(lines), 80) == Some(Endpoint(r.host, r.port));
    assert IsPort(r.port) && r.host != "";
    hide RouteOf, Routed, HostValue, NewLines, ThreeWords, IsHostLine, ParseHostPort, IsPort;
    if IsHostLine(lines[0]) {
      RequestLineAsHost(lines[0]);
    }
    HostValueAgain(method', version, r, lines);
    HostPortRoundTrip(r.host, r.port, 80);
  }

  lemma ParseOfPrinted(data: string, end: nat)
    requires end + 4 <= |data|
    ensures Parse(data[..end + 4], data[end + 4..]) == ParseLines(Lines(data[..end]), data[end + 4..])
  {
    hide ParseLines, Lines;
    assert Unmarked(data[..end + 4]) == data[..end];
  }

  /** The header of a request without any header lines. */
  function BareRequest(method': string, target: string, version: string): string {
    method' + " " + target + " " + version + CRLF + CRLF
  }

  lemma BareRequestLines(method': string, target: string, version: string)
    requires method' != "" && target != "" && version != ""
    requires NoSpace(method') && NoSpace(target) && NoSpace(version)
    ensures
      var lines := Lines(Unmarked(BareRequest(method', target, version)));
      lines != [] && ThreeWords(lines[0]) == (method', target, version)
  {
    hide Lines, ThreeWords;
    var line := method' + " " + target + " " + version;
    assert Unmarked(BareRequest(method', target, version)) == line;
    RequestLineIsLine(method', target, version);
    LinesOfOne(line);
    ThreeWordsOfPrinted(method', target, version);
  }

  lemma BareRequestAccepted(method': string, target: string, version: string)
    requires method' != "" && version != "" && NoSpace(method') && NoSpace(version)
    requires Lower(method') != "connect" && target != "" && NoSpace(target)
    requires StartsWithCi(target, "http://") && RouteOf(target, "").Route?
    ensures
      var raw := BareRequest(method', target, version);
      var r := RouteOf(target, "");
      && Parse(raw, "").Forward? && Parse(raw, "").host == r.host && Parse(raw, "").port == r.port
      && Lines(Unmarked(raw)) != [] && ThreeWords(Lines(Unmarked(raw))[0]) == (method', target, version)
  {
    var raw := BareRequest(method', target, version);
    BareRequestLines(method', target, version);
    assert RouteOf(target, HostValue(Lines(Unmarked(raw)))) == RouteOf(target, "");
    hide Lines, ThreeWords, RouteOf, Unmarked, BareRequest, HostValue, Join, NewLines;
  }

  /** The new request line passes for a Host line exactly when the method does. */
  lemma FirstLineAgain(raw: string, leftover: string, host: string, port: nat, data: string)
    requires Parse(raw, leftover) == Forward(host, port, data)
    ensures
      var lines := Lines(Unmarked(raw));
      var end := FindMarker(data, 0);
      && lines != [] && end + 4 <= |data| && Lines(data[..end]) != []
      && (IsHostLine(Lines(data[..end])[0]) <==> IsHostLine(ThreeWords(lines[0]).0))
  {
    Accepted(raw, leftover);
    var lines := Lines(Unmarked(raw));
    var (method', target, version) := ThreeWords(lines[0]);
    var r := RouteOf(target, HostValue(lines));
    var fresh' := NewLines(method', version, r, lines);
    hide *;
    PrintedHeader(fresh', leftover);
    NewFirstLine(method', version, r, lines);
  }

  lemma NewFirstLine(method': string, version: string, r: Route, lines: seq<string>)
    requires r.Route? && lines != [] && NoSpace(method')
    ensures
      var fresh' := NewLines(method', version, r, lines);
      fresh' != [] && (IsHostLine(fresh'[0]) <==> IsHostLine(method'))
  {
    assert NewLines(method', version, r, lines)[0] == method' + " " + (r.path + " " + version);
    PrintedLineAsHost(method', r.path + " " + version);
  }

  lemma BracketIsLost(method': string, target: string, version: string)
    requires method' != "" && version != "" && NoSpace(method') && NoSpace(version)
    requires Lower(method') != "connect" && !IsHostLine(method') && target != "" && NoSpace(target)
    requires StartsWithCi(target, "http://") && RouteOf(target, "").Route?
    requires RouteOf(target, "").host != "" && RouteOf(target, "").host[0] == '['
    ensures
      var parsed := Parse(BareRequest(method', target, version), "");
      parsed.Forward?
      && var end := FindMarker(parsed.initialData, 0);
      && end + 4 <= |parsed.initialData|
      && Parse(parsed.initialData[..end + 4], parsed.initialData[end + 4..]) != parsed
  {
    BareRequestAccepted(method', target, version);
    hide *;
    var raw := BareRequest(method', target, version);
    var parsed := Parse(raw, "");
    RewriteAgain(raw, "", parsed.host, parsed.port, parsed.initialData);
    FirstLineAgain(raw, "", parsed.host, parsed.port, parsed.initialData);
    BracketDoesNotSettle(Lines(parsed.initialData[..FindMarker(parsed.initialData, 0)])[0], parsed.host, parsed.port);
  }

  lemma BracketDoesNotSettle(firstLine: string, host: string, port: nat)
    requires !IsHostLine(firstLine) && host != "" && host[0] == '['
    ensures !Settles(firstLine, true, host, port)
  {
  }

  /** A host that opens a second bracket is printed back as a bracketed one, and no longer read. */
  lemma DoubleBracket(method': string, version: string)
    requires method' != "" && version != "" && NoSpace(method') && NoSpace(version)
    requires Lower(method') != "connect" && !IsHostLine(method')
    ensures
      var parsed := Parse(BareRequest(method', "http://[[a]/", version), "");
      parsed.Forward?
      && var end := FindMarker(parsed.initialData, 0);
      && end + 4 <= |parsed.initialData|
      && Parse(parsed.initialData[..end + 4], parsed.initialData[end + 4..]) != parsed
  {
    NoSpaceInTarget();
    hide *;
    BracketTarget();
    assert "[a"[0] == '[';
    BracketIsLost(method', "http://[[a]/", version);
  }

  lemma NoSpaceInTarget()
    ensures NoSpace("http://[[a]/") && "http://[[a]/" != ""
  {
  }

  lemma BracketTarget()
    ensures StartsWithCi("http://[[a]/", "http://")
    ensures RouteOf("http://[[a]/", "") == Route("/", true, "[a", 80)
  {
    var target := "http://[[a]/";
    assert target[..7] == "http://" && target[7..] == "[[a]/";
    var rest := "[[a]/";
    assert FindChar(rest, '/') == 4 && rest[..4] == "[[a]" && rest[4..] == "/";
    var value := "[[a]";
    assert FindChar(value, ']') == 3 && value[1..3] == "[a";
    assert ParseHostPort(value, 80) == Some(Endpoint("[a", 80));
  }

  // ---- what the agent makes of the target --------------------------------------------------------

  lemma HostOfRequest(raw: string, leftover: string)
    ensures
      var parsed := Parse(raw, leftover);
      var lines := Lines(Unmarked(raw));
      parsed.Rejected? ||
      (&& lines != [] && parsed.host != "" && IsPort(parsed.port)
       && (parsed.Connect? || StartsWithCi(ThreeWords(lines[0]).1, "http://") ==> NoSpace(parsed.host)))
  {
    var parsed := Parse(raw, leftover);
    if parsed.Forward? {
      Accepted(raw, leftover);
    } else if parsed.Connect? {
      var target := ThreeWords(Lines(Unmarked(raw))[0]).1;
      ParsedHostPort(target, 443);
      assert forall i :: 0 <= i < |parsed.host| ==> parsed.host[i] in target;
    }
  }

  /** The agent reads the endpoint the tunnel parsed exactly when the host holds no line feed, which
      no CONNECT and no absolute-form request can bring about; and it then allows the target exactly
      when one of its allow entries parses to that same pair. */
  lemma AgentSeesTheTarget(raw: string, leftover: string, entries: seq<string>)
    requires !Parse(raw, leftover).Rejected?
    ensures
      var parsed := Parse(raw, leftover);
      var lines := Lines(Unmarked(raw));
      var seen := ParseOpenPayload(MakeOpenPayload(parsed.host, parsed.port));
      var wanted := Endpoint(parsed.host, parsed.port);
      && (seen == Some(wanted) <==> '\n' !in parsed.host)
      && lines != []
      && (parsed.Connect? || StartsWithCi(ThreeWords(lines[0]).1, "http://") ==> seen == Some(wanted))
      && (seen == Some(wanted) ==>
            (EndpointToString(seen.value.host, seen.value.port) in AllowSet(entries)
             <==> exists x :: x in entries && ParseHostPort(x, 0) == Some(wanted)))
  {
    var parsed := Parse(raw, leftover);
    HostOfRequest(raw, leftover);
    assert NoSpace(parsed.host) ==> '\n' !in parsed.host;
    hide *;
    OpenRoundTrip(parsed.host, parsed.port);
    AllowlistIsMembership(entries, Endpoint(parsed.host, parsed.port));
  }
}
