/**
 Which proxy requests are accepted, which are rejected and with what text, and which lines are passed on,
 by how the request is written (`parse_proxy_request` in agent/src/tunnel/main.cpp).
 */
module ProxyAccept {
  import opened Text
  import opened TextLaws
  import opened Endpoints
  import opened HttpText
  import opened ProxyRequest
  import opened ProxyRewrite

  // ---- the request line ---------------------------------------------------------------------------

  /** What may follow a word. */
  predicate Break(s: string) {
    s == "" || IsSpace(s[0])
  }

  lemma WordRead(spaces: string, word: string, rest: string)
    requires Spaces(spaces) && NoSpace(word) && Break(rest) && (word == "" ==> rest == "")
    ensures NextWord(spaces + (word + rest)) == (word, rest)
  {
    var t := word + rest;
    assert word != "" ==> t[0] == word[0];
    SkipOf(spaces, t);
    WordEnds(word, rest);
    assert t[..|word|] == word && t[|word|..] == rest;
    hide SkipSpaces, WordLength;
  }

  /** The words of a line, however much white space is around them; a missing word is empty, and then
      so is all that would follow it. */
  lemma WordsRead(s0: string, a: string, s1: string, b: string, s2: string, c: string, rest: string)
    requires Spaces(s0) && Spaces(s1) && Spaces(s2) && NoSpace(a) && NoSpace(b) && NoSpace(c)
    requires Break(rest) && Break(s2 + (c + rest)) && Break(s1 + (b + (s2 + (c + rest))))
    requires (c == "" ==> rest == "") && (b == "" ==> s2 + (c + rest) == "") && (a == "" ==> s1 + (b + (s2 + (c + rest))) == "")
    ensures ThreeWords(s0 + (a + (s1 + (b + (s2 + (c + rest)))))) == (a, b, c)
  {
    WordRead(s0, a, s1 + (b + (s2 + (c + rest))));
    WordRead(s1, b, s2 + (c + rest));
    WordRead(s2, c, rest);
    hide NextWord;
  }

  /** The lines of a header as it is sent: each ended by CRLF, and an empty one. */
  lemma HeaderRead(lines: seq<string>)
    requires lines != [] && HeaderLines(lines)
    ensures Lines(Unmarked(Join(lines) + CRLF)) == lines
  {
    LinesOfJoin(lines);
    EndsInCrlf(lines);
    var raw := Join(lines) + CRLF;
    assert raw[..|raw| - 4] == Join(lines)[..|Join(lines)| - 2];
    hide Lines, Join;
  }

  // ---- the Host line --------------------------------------------------------------------------------

  predicate SaysHost(line: string) {
    |line| >= 5 && forall i :: 0 <= i < 5 ==> SameLetter(line[i], "host:"[i])
  }

  lemma SaysHostIs(line: string)
    ensures IsHostLine(line) <==> SaysHost(line)
  {
    StartsWith(line, "host:");
    hide StartsWithCi;
  }

  /** The trimmed value of the first Host line. */
  lemma {:induction false} FirstHost(lines: seq<string>, k: nat)
    requires k <= |lines| && (forall i :: 0 <= i < k ==> !SaysHost(lines[i]))
    requires k < |lines| ==> SaysHost(lines[k])
    ensures k == |lines| ==> HostValue(lines) == ""
    ensures k < |lines| ==> HostValue(lines) == Trim(lines[k][5..])
  {
    if lines != [] {
      SaysHostIs(lines[0]);
      hide SaysHost, IsHostLine, Trim;
      if k > 0 {
        FirstHost(lines[1..], k - 1);
      }
    }
  }

  // ---- the verdict ----------------------------------------------------------------------------------

  /** A request as its header and its request line give it. */
  predicate Reads(raw: string, lines: seq<string>, method': string, target: string, version: string) {
    lines == Lines(Unmarked(raw)) && lines != [] && ThreeWords(lines[0]) == (method', target, version)
  }

  predicate Complete(method': string, target: string, version: string) {
    method' != "" && target != "" && version != ""
  }

  /** `text` starts with `scheme`, in any case of its letters. */
  predicate Under(text: string, scheme: string) {
    |scheme| <= |text| && forall i :: 0 <= i < |scheme| ==> SameLetter(text[i], scheme[i])
  }

  lemma EmptyRequest(raw: string, leftover: string)
    requires Lines(Unmarked(raw)) == []
    ensures Parse(raw, leftover) == Rejected("empty request")
  {
  }

  lemma IncompleteLine(raw: string, leftover: string, lines: seq<string>, method': string, target: string, version: string)
    requires Reads(raw, lines, method', target, version) && !Complete(method', target, version)
    ensures Parse(raw, leftover) == Rejected("invalid request line")
  {
    hide Lines, ThreeWords, HostValue, RouteOf;
  }

  /** CONNECT, in any case of its letters, is accepted exactly when its target is an endpoint, for which
      443 is the default port. */
  lemma ConnectVerdict(raw: string, leftover: string, lines: seq<string>, method': string, target: string, version: string)
    requires Reads(raw, lines, method', target, version) && Complete(method', target, version)
    requires |method'| == 7 && Under(method', "connect")
    ensures Parse(raw, leftover) ==
            match ParseHostPort(target, 443)
            case None => Rejected("invalid CONNECT target")
            case Some(e) => Connect(e.host, e.port)
  {
    NoConnect(method');
    hide Lines, ThreeWords, HostValue, RouteOf, ParseHostPort, Lower, Under;
  }

  /** Any other method, with an http URL: accepted exactly when the text up to the first slash is an
      endpoint, for which 80 is the default port. */
  lemma AbsoluteVerdict(raw: string, leftover: string, lines: seq<string>, method': string, target: string, version: string,
                        authority: string, tail: string)
    requires Reads(raw, lines, method', target, version) && Complete(method', target, version)
    requires !(|method'| == 7 && Under(method', "connect"))
    requires Under(target, "http://") && target[7..] == authority + tail
    requires '/' !in authority && (tail == "" || tail[0] == '/')
    ensures
      match ParseHostPort(authority, 80)
      case None => Parse(raw, leftover) == Rejected("invalid http URL")
      case Some(e) => Parse(raw, leftover).Forward? && Parse(raw, leftover).host == e.host && Parse(raw, leftover).port == e.port
  {
    NoConnect(method');
    AbsoluteRead(target, HostValue(lines), authority, tail);
    hide Lines, ThreeWords, HostValue, RouteOf, ParseHostPort, Join, NewLines;
  }

  lemma LowerConnect()
    ensures Lower("connect") == "connect" && |"connect"| == 7
  {
    assert forall i :: 0 <= i < 7 ==> Lower("connect")[i] == "connect"[i];
  }

  lemma NoConnect(method': string)
    ensures Lower(method') == "connect" <==> |method'| == 7 && Under(method', "connect")
  {
    SameInLower(method', "connect");
    LowerConnect();
    hide Lower, SameLetter;
  }

  lemma AbsoluteRead(target: string, hostValue: string, authority: string, tail: string)
    requires Under(target, "http://") && target[7..] == authority + tail
    requires '/' !in authority && (tail == "" || tail[0] == '/')
    ensures
      match ParseHostPort(authority, 80)
      case None => RouteOf(target, hostValue) == NoRoute("invalid http URL")
      case Some(e) => RouteOf(target, hostValue) == Route(if tail == "" then "/" else tail, true, e.host, e.port)
  {
    StartsWith(target, "http://");
    var rest := target[7..];
    assert forall k :: 0 <= k < |authority| ==> rest[k] == authority[k];
    assert tail != "" ==> rest[|authority|] == '/';
    assert FindChar(rest, '/') == |authority|;
    assert rest[..|authority|] == authority && rest[|authority|..] == tail;
    hide ParseHostPort, StartsWithCi, FindChar;
  }

  /** With an https URL: never. */
  lemma SecureVerdict(raw: string, leftover: string, lines: seq<string>, method': string, target: string, version: string)
    requires Reads(raw, lines, method', target, version) && Complete(method', target, version)
    requires !(|method'| == 7 && Under(method', "connect")) && Under(target, "https://")
    ensures Parse(raw, leftover) == Rejected("HTTPS proxying must use CONNECT")
  {
    NoConnect(method');
    StartsWith(target, "http://");
    StartsWith(target, "https://");
    assert "https://"[4] == 's' && "http://"[4] == ':';
    hide Lines, ThreeWords, HostValue, ParseHostPort, StartsWithCi;
  }

  /** With any other target: exactly when the trimmed value of the first Host line is an endpoint. */
  lemma OriginVerdict(raw: string, leftover: string, lines: seq<string>, method': string, target: string, version: string, k: nat)
    requires Reads(raw, lines, method', target, version) && Complete(method', target, version)
    requires !(|method'| == 7 && Under(method', "connect")) && !Under(target, "http://") && !Under(target, "https://")
    requires k <= |lines| && (forall i :: 0 <= i < k ==> !SaysHost(lines[i])) && (k < |lines| ==> SaysHost(lines[k]))
    ensures
      match ParseHostPort(if k < |lines| then Trim(lines[k][5..]) else "", 80)
      case None => Parse(raw, leftover) == Rejected("missing or invalid Host header")
      case Some(e) => Parse(raw, leftover).Forward? && Parse(raw, leftover).host == e.host && Parse(raw, leftover).port == e.port
  {
    NoConnect(method');
    StartsWith(target, "http://");
    StartsWith(target, "https://");
    FirstHost(lines, k);
    hide Lines, ThreeWords, HostValue, ParseHostPort, StartsWithCi, Join, NewLines;
  }

  /** Line `k` is the first that says Host. */
  predicate FirstSays(lines: seq<string>, k: nat) {
    k < |lines| && SaysHost(lines[k]) && forall i :: 0 <= i < k ==> !SaysHost(lines[i])
  }

  /** An http URL is split before its first slash. */
  predicate SplitsInto(url: string, authority: string, tail: string) {
    url == authority + tail && '/' !in authority && (tail == "" || tail[0] == '/')
  }

  ghost predicate Passes(lines: seq<string>, target: string) {
    if Under(target, "http://") then
      exists authority, tail :: SplitsInto(target[7..], authority, tail) && ParseHostPort(authority, 80).Some?
    else
      && !Under(target, "https://")
      && exists k: nat :: FirstSays(lines, k) && ParseHostPort(Trim(lines[k][5..]), 80).Some?
  }

  lemma SplitAtSlash(url: string, authority: string, tail: string)
    requires SplitsInto(url, authority, tail)
    ensures FindChar(url, '/') == |authority|
    ensures url[..|authority|] == authority && url[|authority|..] == tail
  {
    assert forall k :: 0 <= k < |authority| ==> url[k] == authority[k];
    assert tail != "" ==> url[|authority|] == '/';
  }

  lemma FindHost(lines: seq<string>) returns (k: nat)
    ensures k <= |lines| && (forall i :: 0 <= i < k ==> !SaysHost(lines[i]))
    ensures k < |lines| ==> SaysHost(lines[k])
  {
    k := 0;
    while k < |lines| && !SaysHost(lines[k])
      invariant k <= |lines| && forall i :: 0 <= i < k ==> !SaysHost(lines[i])
    {
      k := k + 1;
    }
  }

  /** A complete request with another method than CONNECT is passed on exactly when it names its target:
      in an http URL, or else in its first Host line. */
  lemma AcceptedExactly(raw: string, leftover: string, lines: seq<string>, method': string, target: string, version: string)
    requires Reads(raw, lines, method', target, version) && Complete(method', target, version)
    requires !(|method'| == 7 && Under(method', "connect"))
    ensures Parse(raw, leftover).Forward? <==> Passes(lines, target)
  {
    hide Parse, ParseHostPort, Reads, Complete, SaysHost, Trim;
    var isHttp, isHttps := Under(target, "http://"), Under(target, "https://");
    if isHttp {
      var url := target[7..];
      var slash := FindChar(url, '/');
      var a, t := url[..slash], url[slash..];
      assert SplitsInto(url, a, t);
      AbsoluteVerdict(raw, leftover, lines, method', target, version, a, t);
      if Passes(lines, target) {
        var a', t' :| SplitsInto(url, a', t') && ParseHostPort(a', 80).Some?;
        SplitAtSlash(url, a', t');
      }
    } else if isHttps {
      SecureVerdict(raw, leftover, lines, method', target, version);
    } else {
      var k := FindHost(lines);
      OriginVerdict(raw, leftover, lines, method', target, version, k);
      NoEndpointInNothing();
      if Passes(lines, target) {
        var j: nat :| FirstSays(lines, j) && ParseHostPort(Trim(lines[j][5..]), 80).Some?;
        assert j == k;
      } else if k < |lines| {
        assert FirstSays(lines, k);
      }
    }
  }

  lemma NoEndpointInNothing()
    ensures ParseHostPort("", 80) == None
  {
  }

  // ---- the lines that are passed on -----------------------------------------------------------------

  lemma SaysProxyConnection(line: string)
    ensures IsProxyConnection(line) <==> Under(line, "proxy-connection:")
  {
    StartsWith(line, "proxy-connection:");
    hide StartsWithCi;
  }

  /** What the new header has in the place of a line: nothing of an empty and of a Proxy-Connection line, the
      endpoint of a Host line of an absolute-form request, and the line itself of any other. */
  function InPlaceOf(line: string, absolute: bool, hostLine: string): seq<string> {
    if line == "" || Under(line, "proxy-connection:") then []
    else if SaysHost(line) && absolute then [hostLine]
    else [line]
  }

  lemma KeptFirst(lines: seq<string>, absolute: bool, hostLine: string)
    requires lines != []
    ensures KeptLines(lines, absolute, hostLine)
            == InPlaceOf(lines[0], absolute, hostLine) + KeptLines(lines[1..], absolute, hostLine)
  {
    SaysProxyConnection(lines[0]);
    SaysHostIs(lines[0]);
    hide IsProxyConnection, IsHostLine, SaysHost, Under;
  }

  lemma NoneKept(absolute: bool, hostLine: string)
    ensures KeptLines([], absolute, hostLine) == []
  {
  }

  lemma {:induction false} KeptOfTwo(a: seq<string>, b: seq<string>, absolute: bool, hostLine: string)
    ensures KeptLines(a + b, absolute, hostLine) == KeptLines(a, absolute, hostLine) + KeptLines(b, absolute, hostLine)
  {
    NoneKept(absolute, hostLine);
    hide KeptLines, InPlaceOf;
    if a == [] {
      assert a + b == b;
    } else {
      KeptOfTwo(a[1..], b, absolute, hostLine);
      KeptFirst(a, absolute, hostLine);
      KeptFirst(a + b, absolute, hostLine);
      assert (a + b)[1..] == a[1..] + b && (a + b)[0] == a[0];
      Associate(InPlaceOf(a[0], absolute, hostLine), KeptLines(a[1..], absolute, hostLine), KeptLines(b, absolute, hostLine));
    }
  }

  /** Every line is dropped, replaced or kept for what it says, wherever it stands. */
  lemma LineByLine(before: seq<string>, line: string, behind: seq<string>, absolute: bool, hostLine: string)
    ensures KeptLines(before + [line] + behind, absolute, hostLine)
            == KeptLines(before, absolute, hostLine) + InPlaceOf(line, absolute, hostLine) + KeptLines(behind, absolute, hostLine)
    ensures KeptLines([], absolute, hostLine) == []
  {
    KeptFirst([line], absolute, hostLine);
    assert [line][1..] == [];
    NoneKept(absolute, hostLine);
    hide KeptLines, InPlaceOf;
    KeptOfTwo(before + [line], behind, absolute, hostLine);
    KeptOfTwo(before, [line], absolute, hostLine);
    assert InPlaceOf(line, absolute, hostLine) + [] == InPlaceOf(line, absolute, hostLine);
  }
}
