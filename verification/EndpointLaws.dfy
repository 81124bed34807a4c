/**
 What `parse_host_port` and `parse_open_payload` make of every text, by the form it is written in
 (agent/src/common/net.cpp, agent/src/agent/main.cpp).
 */
module EndpointLaws {
  import opened Text
  import opened Endpoints

  /** The forms of a `host:port` text. */
  datatype Form =
    | Empty
    | Plain(host: string)
    | WithPort(host: string, port: string)
    | Bracketed(host: string)
    | BracketedPort(host: string, port: string)
    | BracketedOther(host: string, next: char, rest: string)
    | Unclosed(rest: string)

  predicate Proper(f: Form) {
    match f
    case Empty => true
    case Plain(h) => h != "" && h[0] != '[' && ':' !in h
    case WithPort(h, p) => (h == "" || h[0] != '[') && ':' !in p
    case Bracketed(h) => ']' !in h
    case BracketedPort(h, _) => ']' !in h
    case BracketedOther(h, c, _) => ']' !in h && c != ':'
    case Unclosed(rest) => ']' !in rest
  }

  function Written(f: Form): string {
    match f
    case Empty => ""
    case Plain(h) => h
    case WithPort(h, p) => h + ([':'] + p)
    case Bracketed(h) => ['['] + (h + [']'])
    case BracketedPort(h, p) => ['['] + (h + ([']', ':'] + p))
    case BracketedOther(h, c, rest) => ['['] + (h + ([']', c] + rest))
    case Unclosed(rest) => ['['] + rest
  }

  /** The port a port text stands for: the default if there is none, else the number it starts with. */
  function PortOf(text: string, defaultPort: nat): Option<nat> {
    if text == "" then (if 1 <= defaultPort <= 65535 then Some(defaultPort) else None)
    else
      match Stoi(text)
      case None => None
      case Some(n) => if 1 <= n <= 65535 then Some(n) else None
  }

  function Named(host: string, port: Option<nat>): Option<Endpoint> {
    if host == "" || port.None? then None else Some(Endpoint(host, port.value))
  }

  function Meaning(f: Form, defaultPort: nat): Option<Endpoint> {
    match f
    case Plain(h) => Named(h, PortOf("", defaultPort))
    case WithPort(h, p) => Named(h, PortOf(p, defaultPort))
    case Bracketed(h) => Named(h, PortOf("", defaultPort))
    case BracketedPort(h, p) => Named(h, PortOf(p, defaultPort))
    case _ => None
  }

  /** Every text is written in one of the forms. */
  lemma EveryTextHasAForm(value: string) returns (f: Form)
    ensures Proper(f) && Written(f) == value
  {
    if value == "" {
      f := Empty;
    } else if value[0] != '[' {
      var colon := RFindChar(value, ':');
      if colon == 0 {
        f := Plain(value);
      } else {
        f := WithPort(value[..colon - 1], value[colon..]);
        assert value == value[..colon - 1] + ([':'] + value[colon..]);
      }
    } else {
      f := BracketForm(value);
    }
  }

  lemma BracketForm(value: string) returns (f: Form)
    requires value != "" && value[0] == '['
    ensures Proper(f) && Written(f) == value
  {
    var end := FindChar(value, ']');
    if end == |value| {
      f := Unclosed(value[1..]);
    } else if end + 1 == |value| {
      f := Bracketed(value[1..end]);
      assert value == ['['] + (value[1..end] + [']']);
    } else {
      var h, c, rest := value[1..end], value[end + 1], value[end + 2..];
      f := if c == ':' then BracketedPort(h, rest) else BracketedOther(h, c, rest);
      assert value == ['['] + (h + ([']', c] + rest));
    }
  }

  // ---- where a text is split ----------------------------------------------------------------------

  lemma SplitPlain(h: string)
    requires h != "" && h[0] != '[' && ':' !in h
    ensures SplitHostPort(h) == Some((h, ""))
  {
    assert RFindChar(h, ':') == 0;
  }

  lemma SplitAtColon(h: string, p: string)
    requires (h == "" || h[0] != '[') && ':' !in p
    ensures SplitHostPort(h + ([':'] + p)) == Some((h, p))
  {
    var value := h + ([':'] + p);
    assert value[|h|] == ':' && value[0] == (if h == "" then ':' else h[0]);
    assert forall k :: |h| < k < |value| ==> value[k] == p[k - |h| - 1];
    assert RFindChar(value, ':') == |h| + 1;
    assert value[..|h|] == h && value[|h| + 1..] == p;
  }

  /** The first closing bracket of a bracketed text. */
  lemma BracketEnds(h: string, more: string)
    requires ']' !in h
    ensures var value := ['['] + (h + ([']'] + more));
            FindChar(value, ']') == |h| + 1 && value[1..|h| + 1] == h && |value| == |h| + 2 + |more|
    ensures var value := ['['] + (h + ([']'] + more));
            value[0] == '[' && value[|h| + 2..] == more
  {
    var value := ['['] + (h + ([']'] + more));
    assert value[|h| + 1] == ']';
    assert forall k :: 1 <= k <= |h| ==> value[k] == h[k - 1];
  }

  lemma SplitBracket(h: string, more: string)
    requires ']' !in h
    ensures SplitHostPort(['['] + (h + ([']'] + more))) ==
            if more == "" then Some((h, "")) else if more[0] == ':' then Some((h, more[1..])) else None
  {
    var value := ['['] + (h + ([']'] + more));
    BracketEnds(h, more);
    assert more != "" ==> value[|h| + 2] == more[0] && value[|h| + 3..] == more[1..];
    hide FindChar;
  }

  lemma SplitUnclosed(rest: string)
    requires ']' !in rest
    ensures SplitHostPort(['['] + rest) == None
  {
    var value := ['['] + rest;
    assert FindChar(value, ']') == |value|;
  }

  lemma ParsedAsSplit(value: string, host: string, port: string, defaultPort: nat)
    requires value != "" && SplitHostPort(value) == Some((host, port)) && defaultPort <= 65535
    ensures ParseHostPort(value, defaultPort) == Named(host, PortOf(port, defaultPort))
  {
    hide SplitHostPort, Stoi;
  }

  lemma NotSplit(value: string, defaultPort: nat)
    requires value != "" && SplitHostPort(value) == None
    ensures ParseHostPort(value, defaultPort) == None
  {
    hide SplitHostPort;
  }

  lemma ReadBracket(f: Form, defaultPort: nat)
    requires Proper(f) && defaultPort <= 65535 && (f.Bracketed? || f.BracketedPort? || f.BracketedOther?)
    ensures ParseHostPort(Written(f), defaultPort) == Meaning(f, defaultPort)
  {
    hide ParseHostPort, SplitHostPort, PortOf, Named;
    var h := f.host;
    var more :=
      if f.Bracketed? then "" else if f.BracketedPort? then [':'] + f.port else [f.next] + f.rest;
    assert Written(f) == ['['] + (h + ([']'] + more));
    SplitBracket(h, more);
    if f.BracketedOther? {
      NotSplit(Written(f), defaultPort);
    } else {
      assert f.BracketedPort? ==> more[1..] == f.port;
      ParsedAsSplit(Written(f), h, if f.BracketedPort? then f.port else "", defaultPort);
    }
  }

  /** And is read by it: the host is the text before the last colon, or in the brackets, whatever it is
      made of; the port is the default, or the number after the colon. */
  lemma FormIsRead(f: Form, defaultPort: nat)
    requires Proper(f) && defaultPort <= 65535
    ensures ParseHostPort(Written(f), defaultPort) == Meaning(f, defaultPort)
  {
    match f
    case Empty =>
    case Plain(h) =>
      hide ParseHostPort, SplitHostPort;
      SplitPlain(h);
      ParsedAsSplit(h, h, "", defaultPort);
    case WithPort(h, p) =>
      hide ParseHostPort, SplitHostPort;
      SplitAtColon(h, p);
      ParsedAsSplit(Written(f), h, p, defaultPort);
    case Unclosed(rest) =>
      hide ParseHostPort, SplitHostPort;
      SplitUnclosed(rest);
      NotSplit(Written(f), defaultPort);
    case _ =>
      ReadBracket(f, defaultPort);
  }

  // ---- the payload of OPEN ------------------------------------------------------------------------

  /** A payload is a host, a line feed and a number. */
  lemma OpenPayloadIsRead(host: string, text: string)
    requires '\n' !in host
    ensures ParseOpenPayload(host + (['\n'] + text)) ==
            match Stoi(text)
            case None => None
            case Some(n) => if host != "" && 1 <= n <= 65535 then Some(Endpoint(host, n)) else None
  {
    var payload := host + (['\n'] + text);
    assert payload[|host|] == '\n' && forall k :: 0 <= k < |host| ==> payload[k] == host[k];
    assert FindChar(payload, '\n') == |host|;
    assert payload[..|host|] == host && payload[|host| + 1..] == text;
    hide Stoi, FindChar;
  }

  lemma OpenPayloadWithoutLf(payload: string)
    requires '\n' !in payload
    ensures ParseOpenPayload(payload) == None
  {
  }
}
