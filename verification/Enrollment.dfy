/**
 The enrollment text an operator is given (webhook_ops/webhooks/agents.py), read back by the agent it
 was made for (agent/src/common/config.cpp and `apply_node_config` in agent/src/agent/main.cpp).
 */
module Enrollment {
  import opened Text
  import opened Endpoints
  import opened ConfigFile

  // ---- printing, in Python -----------------------------------------------------------------------

  /** White space for `str.strip`, which knows more of it than `isspace` does. */
  predicate PySpace(c: char) {
    || IsSpace(c) || 0x1C <= c as int <= 0x1F || c as int in {0x85, 0xA0, 0x1680, 0x202F, 0x205F, 0x3000}
    || 0x2000 <= c as int <= 0x200A || 0x2028 <= c as int <= 0x2029
  }

  function PyTrimStart(s: string): (r: string)
    ensures r != "" ==> !PySpace(r[0])
  {
    if s != "" && PySpace(s[0]) then PyTrimStart(s[1..]) else s
  }

  function PyTrimEnd(s: string): (r: string)
    ensures r <= s
    ensures r != "" ==> !PySpace(r[|r| - 1])
  {
    if s != "" && PySpace(s[|s| - 1]) then PyTrimEnd(s[..|s| - 1]) else s
  }

  function PyStrip(s: string): string {
    PyTrimEnd(PyTrimStart(s))
  }

  /** `"\n".join(lines)`. */
  function JoinLf(lines: seq<string>): string {
    if lines == [] then ""
    else if |lines| == 1 then lines[0]
    else lines[0] + "\n" + JoinLf(lines[1..])
  }

  datatype Enrollment = Enrollment(tunnel: string, id: string, secret: string, targets: seq<string>)

  function SettingLine(key: string, value: string): string {
    key + "=" + value
  }

  function AllowLines(targets: seq<string>): (lines: seq<string>)
    ensures |lines| == |targets|
    ensures forall i :: 0 <= i < |targets| ==> lines[i] == SettingLine("allow", targets[i])
  {
    seq(|targets|, i requires 0 <= i < |targets| => SettingLine("allow", targets[i]))
  }

  function Identity(e: Enrollment): seq<string> {
    [SettingLine("tunnel", e.tunnel), SettingLine("id", e.id), SettingLine("secret", e.secret)]
  }

  /** `AgentEnrollment.config`. */
  function ConfigText(e: Enrollment): string {
    PyStrip(JoinLf(Identity(e) + [JoinLf(AllowLines(e.targets))]))
  }

  /** `normalized_allowed_targets`, given the text of each element, or nothing if it is no list. */
  function Normalized(targets: Option<seq<string>>): seq<string> {
    match targets
    case None => []
    case Some(list) => NormalizedList(list)
  }

  function NormalizedList(list: seq<string>): seq<string> {
    if list == [] then []
    else if PyStrip(list[0]) == "" then NormalizedList(list[1..])
    else [PyStrip(list[0])] + NormalizedList(list[1..])
  }

  // ---- what the text is -------------------------------------------------------------------------

  /** The value that ends up at the end of the text. */
  function Last(e: Enrollment): string {
    if e.targets == [] then e.secret else e.targets[|e.targets| - 1]
  }

  function WithLast(e: Enrollment, v: string): Enrollment {
    if e.targets == [] then e.(secret := v) else e.(targets := e.targets[..|e.targets| - 1] + [v])
  }

  function AllLines(e: Enrollment): seq<string> {
    Identity(e) + AllowLines(e.targets)
  }

  lemma {:induction false} StripAfter(a: string, b: string)
    requires PyTrimEnd(b) != ""
    ensures PyTrimEnd(a + b) == a + PyTrimEnd(b)
  {
    if PySpace(b[|b| - 1]) {
      StripAfter(a, b[..|b| - 1]);
      assert (a + b)[..|a + b| - 1] == a + b[..|b| - 1];
    }
  }

  lemma {:induction false} StripSetting(key: string, value: string)
    ensures PyTrimEnd(SettingLine(key, value)) == SettingLine(key, PyTrimEnd(value))
  {
    if value != "" && PySpace(value[|value| - 1]) {
      StripSetting(key, value[..|value| - 1]);
      assert SettingLine(key, value)[..|SettingLine(key, value)| - 1] == SettingLine(key, value[..|value| - 1]);
    }
  }

  lemma {:induction false} JoinAfter(lines: seq<string>, more: seq<string>)
    requires more != []
    ensures JoinLf(lines + more) == JoinLf(lines + [JoinLf(more)])
  {
    if lines == [] {
      assert lines + more == more && lines + [JoinLf(more)] == [JoinLf(more)];
    } else {
      JoinAfter(lines[1..], more);
      assert (lines + more)[1..] == lines[1..] + more;
      assert (lines + [JoinLf(more)])[1..] == lines[1..] + [JoinLf(more)];
    }
  }

  /** Stripping a joined text strips its last line, as long as that leaves something of it. */
  lemma {:induction false} StripJoined(lines: seq<string>, last: string)
    requires PyTrimEnd(last) != ""
    ensures PyTrimEnd(JoinLf(lines + [last])) == JoinLf(lines + [PyTrimEnd(last)])
    ensures PyTrimEnd(JoinLf(lines + [last])) != ""
  {
    if lines == [] {
      assert lines + [last] == [last] && lines + [PyTrimEnd(last)] == [PyTrimEnd(last)];
    } else {
      StripJoined(lines[1..], last);
      assert (lines + [last])[1..] == lines[1..] + [last];
      assert (lines + [PyTrimEnd(last)])[1..] == lines[1..] + [PyTrimEnd(last)];
      StripAfter(lines[0] + "\n", JoinLf(lines[1..] + [last]));
    }
  }

  lemma StartsPlain(e: Enrollment, last: string)
    ensures PyTrimStart(JoinLf(Identity(e) + [last])) == JoinLf(Identity(e) + [last])
  {
    var lines := Identity(e) + [last];
    assert JoinLf(lines) == lines[0] + "\n" + JoinLf(lines[1..]);
    assert JoinLf(lines)[0] == 't';
  }

  /** The text is the joined lines, with the last value stripped at its end. */
  lemma TextIsLines(e: Enrollment)
    ensures ConfigText(e) == JoinLf(AllLines(WithLast(e, PyTrimEnd(Last(e)))))
  {
    StartsPlain(e, JoinLf(AllowLines(e.targets)));
    if e.targets == [] {
      hide SettingLine, PyTrimStart, PyTrimEnd;
      var a, b := SettingLine("tunnel", e.tunnel), SettingLine("id", e.id);
      TextWithoutTargets(a, b, SettingLine("secret", e.secret));
      StripSetting("secret", e.secret);
      SettingIsSomething("secret", PyTrimEnd(e.secret));
      StripJoined([a, b], SettingLine("secret", e.secret));
      assert Identity(e) == [a, b] + [SettingLine("secret", e.secret)];
      assert AllLines(WithLast(e, PyTrimEnd(e.secret))) == [a, b] + [SettingLine("secret", PyTrimEnd(e.secret))];
    } else {
      TextWithTargets(e);
    }
  }

  lemma TextWithTargets(e: Enrollment)
    requires e.targets != []
    ensures PyTrimEnd(JoinLf(Identity(e) + [JoinLf(AllowLines(e.targets))]))
            == JoinLf(AllLines(WithLast(e, PyTrimEnd(Last(e)))))
  {
    hide SettingLine, PyTrimEnd, Identity, JoinLf;
    var n := |e.targets| - 1;
    var allow := AllowLines(e.targets);
    JoinAfter(Identity(e), allow);
    StripSetting("allow", Last(e));
    SettingIsSomething("allow", PyTrimEnd(Last(e)));
    StripJoined(Identity(e) + allow[..n], allow[n]);
    assert Identity(e) + allow == Identity(e) + allow[..n] + [allow[n]];
    var e' := WithLast(e, PyTrimEnd(Last(e)));
    SameIdentity(e, PyTrimEnd(Last(e)));
    assert AllowLines(e'.targets) == allow[..n] + [SettingLine("allow", PyTrimEnd(Last(e)))];
    assert AllLines(e') == Identity(e) + allow[..n] + [SettingLine("allow", PyTrimEnd(Last(e)))];
  }

  lemma SameIdentity(e: Enrollment, v: string)
    requires e.targets != []
    ensures Identity(WithLast(e, v)) == Identity(e)
  {
  }

  lemma SettingIsSomething(key: string, value: string)
    ensures SettingLine(key, value) != ""
  {
  }

  lemma TextWithoutTargets(a: string, b: string, c: string)
    ensures PyTrimEnd(JoinLf([a, b, c] + [JoinLf([])])) == PyTrimEnd(JoinLf([a, b] + [c]))
  {
    var long, short := [a, b, c] + [JoinLf([])], [a, b] + [c];
    assert long[1..][1..][1..] == [""] && short[1..][1..] == [c];
    assert JoinLf(long) == JoinLf(short) + "\n" by {
      assert JoinLf(long[1..][1..]) == c + "\n" + "";
      assert JoinLf(long) == a + "\n" + (b + "\n" + (c + "\n"));
      assert JoinLf(short[1..]) == b + "\n" + c by {
        assert JoinLf(short[1..][1..]) == c;
      }
      assert JoinLf(short) == a + "\n" + (b + "\n" + c);
    }
    assert (JoinLf(short) + "\n")[..|JoinLf(short)|] == JoinLf(short);
  }

  lemma {:induction false} LinesOfJoined(lines: seq<string>)
    requires lines != [] && lines[|lines| - 1] != ""
    requires forall i :: 0 <= i < |lines| ==> '\n' !in lines[i]
    ensures TextLines(JoinLf(lines)) == lines
  {
    var s := JoinLf(lines);
    if |lines| == 1 {
      assert FindChar(s, '\n') == |s|;
    } else {
      LinesOfJoined(lines[1..]);
      var n := |lines[0]|;
      assert s[n] == '\n' && s[..n] == lines[0] && s[n + 1..] == JoinLf(lines[1..]);
      assert forall k :: 0 <= k < n ==> s[k] == lines[0][k];
      assert FindChar(s, '\n') == n;
    }
  }

  // ---- reading it back -----------------------------------------------------------------------------

  /** A key as the text spells it: lower-case letters. */
  predicate IsName(key: string) {
    key != "" && forall i :: 0 <= i < |key| ==> 'a' <= key[i] <= 'z'
  }

  lemma NameIsPlain(key: string)
    requires IsName(key)
    ensures Trim(key) == key && Lower(key) == key
    ensures '#' !in key && ';' !in key && '=' !in key && '\n' !in key
  {
    TrimFixed(key);
    assert |Lower(key)| == |key| && forall i :: 0 <= i < |key| ==> Lower(key)[i] == key[i];
  }

  lemma SettingIsTrimmed(key: string, value: string)
    requires IsName(key) && Trim(value) == value
    ensures Trim(SettingLine(key, value)) == SettingLine(key, value)
  {
    var line := SettingLine(key, value);
    TrimFixed(value);
    TrimFixed(line);
    assert line[|line| - 1] == if value == "" then '=' else value[|value| - 1];
    hide Trim;
  }

  lemma SettingIsOneLine(key: string, value: string)
    requires IsName(key) && Clean(value)
    ensures var line := SettingLine(key, value);
            FindComment(line) == |line| && FindChar(line, '=') == |key| && '\n' !in line
  {
    NameIsPlain(key);
    hide Trim, Lower;
    var line := SettingLine(key, value);
    assert forall i :: 0 <= i < |line| ==> line[i] in key || line[i] == '=' || line[i] in value;
    assert line[|key|] == '=' && forall k :: 0 <= k < |key| ==> line[k] in key;
  }

  lemma SettingRead(key: string, value: string)
    requires IsName(key) && Clean(value)
    ensures ParseLine(SettingLine(key, value)) == Setting(key, value)
    ensures '\n' !in SettingLine(key, value)
  {
    NameIsPlain(key);
    SettingIsTrimmed(key, value);
    SettingIsOneLine(key, value);
    var line := SettingLine(key, value);
    assert line[..|key|] == key && line[|key| + 1..] == value && line[..|line|] == line;
    hide Trim, Lower, SettingLine, FindComment, FindChar;
  }

  /** The fields that would be lost: those with a comment character, a line feed or outer white space. */
  predicate CleanFields(e: Enrollment) {
    Clean(e.tunnel) && Clean(e.id) && Clean(e.secret) && forall i :: 0 <= i < |e.targets| ==> Clean(e.targets[i])
  }

  /** What the file ought to hold. */
  function Meant(e: Enrollment): Values {
    var identity: Values := map["tunnel" := [e.tunnel], "id" := [e.id], "secret" := [e.secret]];
    if e.targets == [] then identity else identity["allow" := e.targets]
  }

  function WithAllow(values: Values, targets: seq<string>): Values {
    if targets == [] then values
    else values["allow" := (if "allow" in values then values["allow"] else []) + targets]
  }

  lemma AllowStep(values: Values, targets: seq<string>)
    requires targets != []
    ensures WithAllow(Push(values, "allow", targets[0]), targets[1..]) == WithAllow(values, targets)
  {
    var old' := if "allow" in values then values["allow"] else [];
    assert [targets[0]] + targets[1..] == targets;
    assert (old' + [targets[0]]) + targets[1..] == old' + targets;
    assert targets[1..] == [] ==> [targets[0]] == targets;
  }

  lemma {:induction false} AllowLinesRead(targets: seq<string>, n: nat, values: Values)
    requires forall i :: 0 <= i < |targets| ==> Clean(targets[i])
    ensures LoadLines(AllowLines(targets), n, values) == Loaded(WithAllow(values, targets))
  {
    if targets != [] {
      SettingRead("allow", targets[0]);
      var lines := AllowLines(targets);
      assert lines[1..] == AllowLines(targets[1..]);
      AllowStep(values, targets);
      hide Clean, ParseLine, SettingLine, WithAllow, Push, AllowLines;
      AllowLinesRead(targets[1..], n + 1, Push(values, "allow", targets[0]));
    }
  }

  /** One setting at the head of the file, under a key that was not there. */
  lemma SettingStep(key: string, value: string, rest: seq<string>, n: nat, values: Values)
    requires IsName(key) && Clean(value) && key !in values
    ensures LoadLines([SettingLine(key, value)] + rest, n, values) == LoadLines(rest, n + 1, values[key := [value]])
  {
    SettingRead(key, value);
    hide Clean, ParseLine, SettingLine;
    assert ([SettingLine(key, value)] + rest)[1..] == rest;
    assert [] + [value] == [value];
  }

  lemma NamesDiffer()
    ensures "tunnel" != "id" && "tunnel" != "secret" && "id" != "secret"
    ensures "allow" != "tunnel" && "allow" != "id" && "allow" != "secret"
    ensures IsName("tunnel") && IsName("id") && IsName("secret") && IsName("allow")
  {
    assert |"tunnel"| == 6 && |"id"| == 2 && |"secret"| == 6 && |"allow"| == 5;
    assert "tunnel"[0] == 't' && "secret"[0] == 's';
  }

  lemma ThreeSettings(k1: string, v1: string, k2: string, v2: string, k3: string, v3: string, rest: seq<string>)
    requires IsName(k1) && IsName(k2) && IsName(k3) && k1 != k2 && k1 != k3 && k2 != k3
    requires Clean(v1) && Clean(v2) && Clean(v3)
    ensures LoadLines([SettingLine(k1, v1), SettingLine(k2, v2), SettingLine(k3, v3)] + rest, 1, map[])
            == LoadLines(rest, 4, map[][k1 := [v1]][k2 := [v2]][k3 := [v3]])
  {
    hide Clean, IsName, LoadLines, SettingLine;
    var third := [SettingLine(k3, v3)] + rest;
    var second := [SettingLine(k2, v2)] + third;
    assert [SettingLine(k1, v1), SettingLine(k2, v2), SettingLine(k3, v3)] + rest == [SettingLine(k1, v1)] + second;
    SettingStep(k1, v1, second, 1, map[]);
    SettingStep(k2, v2, third, 2, map[][k1 := [v1]]);
    SettingStep(k3, v3, rest, 3, map[][k1 := [v1]][k2 := [v2]]);
  }

  lemma MeantIsAllowed(e: Enrollment)
    ensures WithAllow(map[]["tunnel" := [e.tunnel]]["id" := [e.id]]["secret" := [e.secret]], e.targets) == Meant(e)
  {
    NamesDiffer();
    assert [] + e.targets == e.targets;
  }

  /** Clean fields are read back as they are. */
  lemma CleanFieldsRead(e: Enrollment)
    requires CleanFields(e)
    ensures LoadLines(AllLines(e), 1, map[]) == Loaded(Meant(e))
  {
    hide LoadLines, WithAllow, Meant, Clean, SettingLine, IsName;
    NamesDiffer();
    ThreeSettings("tunnel", e.tunnel, "id", e.id, "secret", e.secret, AllowLines(e.targets));
    AllowLinesRead(e.targets, 4, map[]["tunnel" := [e.tunnel]]["id" := [e.id]]["secret" := [e.secret]]);
    MeantIsAllowed(e);
  }

  lemma StrippedStaysClean(v: string)
    requires Clean(v)
    ensures Clean(PyTrimEnd(v))
  {
    TrimFixed(v);
    TrimFixed(PyTrimEnd(v));
    hide Trim;
    var r := PyTrimEnd(v);
    assert forall c :: c in r ==> c in v;
  }

  /** What loading the text of clean fields gives. */
  lemma TextRead(e: Enrollment)
    requires CleanFields(e)
    ensures Load(Some(ConfigText(e))) == Loaded(Meant(WithLast(e, PyTrimEnd(Last(e)))))
  {
    var e' := WithLast(e, PyTrimEnd(Last(e)));
    StrippedStaysClean(Last(e));
    assert CleanFields(e');
    TextIsLines(e);
    LinesAreReadable(e');
    LinesOfJoined(AllLines(e'));
    CleanFieldsRead(e');
  }

  lemma LinesAreReadable(e: Enrollment)
    requires CleanFields(e)
    ensures var lines := AllLines(e);
            lines[|lines| - 1] != "" && forall i :: 0 <= i < |lines| ==> '\n' !in lines[i]
  {
    hide SettingLine, Clean, IsName;
    NamesDiffer();
    SettingReadable("tunnel", e.tunnel);
    SettingReadable("id", e.id);
    SettingReadable("secret", e.secret);
    forall i | 0 <= i < |e.targets| ensures '\n' !in AllowLines(e.targets)[i] && AllowLines(e.targets)[i] != "" {
      SettingReadable("allow", e.targets[i]);
    }
    var lines := AllLines(e);
    forall i | 0 <= i < |lines| ensures '\n' !in lines[i] && lines[i] != "" {
      assert i >= 3 ==> lines[i] == AllowLines(e.targets)[i - 3];
    }
  }

  lemma SettingReadable(key: string, value: string)
    requires IsName(key) && Clean(value)
    ensures SettingLine(key, value) != "" && '\n' !in SettingLine(key, value)
  {
    SettingRead(key, value);
  }

  /** The text is read back as what was meant exactly when the fields are clean and the last one does
      not end in something only Python takes for white space. */
  lemma ConfigRoundTrip(e: Enrollment)
    ensures Load(Some(ConfigText(e))) == Loaded(Meant(e))
            <==> CleanFields(e) && (Last(e) == "" || !PySpace(Last(e)[|Last(e)| - 1]))
  {
    if CleanFields(e) {
      TextRead(e);
      var v := PyTrimEnd(Last(e));
      if v == Last(e) {
        assert WithLast(e, v) == e;
      } else {
        MeantTellsLast(e, v);
      }
    } else if Load(Some(ConfigText(e))) == Loaded(Meant(e)) {
      LoadGivesCleanValues(Some(ConfigText(e)));
      MeantHoldsFields(e);
    }
  }

  lemma MeantHoldsFields(e: Enrollment)
    ensures AllClean(Meant(e)) ==> CleanFields(e)
  {
    hide Clean;
    NamesDiffer();
    var m := Meant(e);
    assert m["tunnel"] == [e.tunnel] && m["id"] == [e.id] && m["secret"] == [e.secret];
    assert m["tunnel"][0] == e.tunnel && m["id"][0] == e.id && m["secret"][0] == e.secret;
    assert e.targets != [] ==> m["allow"] == e.targets;
  }

  lemma MeantTellsLast(e: Enrollment, v: string)
    requires v != Last(e)
    ensures Meant(WithLast(e, v)) != Meant(e)
  {
    NamesDiffer();
    if e.targets == [] {
      assert Meant(e)["secret"] == [e.secret] && Meant(WithLast(e, v))["secret"] == [v];
      assert [e.secret][0] != [v][0];
    } else {
      var n := |e.targets| - 1;
      assert Meant(e)["allow"][n] != Meant(WithLast(e, v))["allow"][n];
    }
  }

  // ---- the targets an agent may be given -----------------------------------------------------------

  lemma {:induction false} StartTrimmed(s: string)
    ensures |PyTrimStart(s)| <= |s| && PyTrimStart(s) == s[|s| - |PyTrimStart(s)|..]
  {
    if s != "" && PySpace(s[0]) {
      StartTrimmed(s[1..]);
    }
  }

  /** A target as normalising leaves it: not empty and without outer white space, so of what the round
      trip asks for only comment characters and line feeds are left to chance. */
  predicate IsNormal(t: string) {
    && t != "" && Trim(t) == t && !PySpace(t[|t| - 1])
    && (Clean(t) <==> '#' !in t && ';' !in t && '\n' !in t)
  }

  lemma {:induction false} NormalizedListIsNormal(list: seq<string>)
    ensures forall i :: 0 <= i < |NormalizedList(list)| ==> IsNormal(NormalizedList(list)[i])
  {
    hide Trim;
    if list != [] {
      NormalizedListIsNormal(list[1..]);
      var t := PyStrip(list[0]);
      TrimFixed(t);
      assert t != "" ==> t[0] == PyTrimStart(list[0])[0];
    }
  }

  lemma NormalizedAreTrimmed(targets: Option<seq<string>>)
    ensures forall i :: 0 <= i < |Normalized(targets)| ==> IsNormal(Normalized(targets)[i])
  {
    if targets.Some? {
      NormalizedListIsNormal(targets.value);
    }
  }

  /** So for an enrollment with normalised targets the text is read back as meant exactly when the other
      fields are clean and no target holds a comment character or a line feed. */
  lemma NormalizedRoundTrip(e: Enrollment, targets: Option<seq<string>>)
    requires e.targets == Normalized(targets) && e.targets != []
    ensures Load(Some(ConfigText(e))) == Loaded(Meant(e))
            <==> && Clean(e.tunnel) && Clean(e.id) && Clean(e.secret)
                 && forall i :: 0 <= i < |e.targets| ==> '#' !in e.targets[i] && ';' !in e.targets[i] && '\n' !in e.targets[i]
  {
    NormalizedAreTrimmed(targets);
    ConfigRoundTrip(e);
    assert IsNormal(Last(e));
    hide Load, ConfigText, Meant, Normalized, Clean, PySpace;
    assert forall i :: 0 <= i < |e.targets| ==> IsNormal(e.targets[i]);
  }

  // ---- apply_node_config ----------------------------------------------------------------------------

  /** The settings of an agent. */
  datatype Settings = Settings(
    host: string, port: nat, id: string, secret: string, allowlist: set<string>,
    tls: bool, caPath: string, insecure: bool)

  predicate IsTrue(value: string) {
    value == "true" || value == "1" || value == "yes"
  }

  /** Adding allow entries one by one, up to the first that does not parse. */
  function AddAllowed(entries: seq<string>, allowlist: set<string>): (bool, set<string>) {
    if entries == [] then (true, allowlist)
    else
      match ParseHostPort(entries[0], 0)
      case None => (false, allowlist)
      case Some(e) => AddAllowed(entries[1..], allowlist + {EndpointToString(e.host, e.port)})
  }

  function ApplyTls(file: Values, s: Settings): Settings {
    var s1 := if IsTrue(ConfigGet(file, "tls", "")) then s.(tls := true) else s;
    var ca := ConfigGet(file, "tls_ca", "");
    var s2 := if ca != "" then s1.(caPath := ca, tls := true) else s1;
    if IsTrue(ConfigGet(file, "tls_insecure", "")) then s2.(insecure := true, tls := true) else s2
  }

  function ApplyIdentity(file: Values, s: Settings): Settings {
    var id, secret, legacy := ConfigGet(file, "id", ""), ConfigGet(file, "secret", ""), ConfigGet(file, "token", "");
    var s' := if id != "" then s.(id := id) else s;
    if secret != "" then s'.(secret := secret) else if legacy != "" then s'.(secret := legacy) else s'
  }

  /** Whether a loaded file is accepted, and the settings it leaves behind either way. */
  function Apply(file: Values, s: Settings): (bool, Settings) {
    var tunnel := ConfigGet(file, "tunnel", "");
    var endpoint := ParseHostPort(tunnel, 0);
    if tunnel != "" && endpoint.None? then (false, s)
    else
      var s1 := if tunnel != "" then s.(host := endpoint.value.host, port := endpoint.value.port) else s;
      var s2 := ApplyIdentity(file, s1);
      var (ok, allowlist) := AddAllowed(ConfigGetAll(file, "allow"), s2.allowlist);
      var s3 := s2.(allowlist := allowlist);
      if ok then (true, ApplyTls(file, s3)) else (false, s3)
  }

  class NodeConfig {
    var host: string
    var port: nat
    var id: string
    var secret: string
    var allowlist: set<string>
    var tls: bool
    var caPath: string
    var insecure: bool

    function Now(): Settings
      reads this
    {
      Settings(host, port, id, secret, allowlist, tls, caPath, insecure)
    }

    constructor ()
      ensures Now() == Settings("", 0, "agent-01", "dev-secret", {}, false, "", false)
    {
      host, port, id, secret := "", 0, "agent-01", "dev-secret";
      allowlist, tls, caPath, insecure := {}, false, "", false;
    }

    method ApplyNodeConfig(file: Values) returns (ok: bool)
      modifies this
      ensures (ok, Now()) == Apply(file, old(Now()))
    {
      hide ConfigGet, ConfigGetAll, ParseHostPort, EndpointToString, IsTrue, ApplyIdentity, ApplyTls, AddAllowed;
      var value := ConfigGet(file, "tunnel", "");
      if value != "" {
        var endpoint := ParseHostPort(value, 0);
        if endpoint.None? {
          return false;
        }
        host, port := endpoint.value.host, endpoint.value.port;
      }
      TakeIdentity(file);
      ok := AddAllow(ConfigGetAll(file, "allow"));
      if !ok {
        return;
      }
      TakeTls(file);
    }

    /** The part about the id and the secret. */
    method TakeIdentity(file: Values)
      modifies this`id, this`secret
      ensures Now() == ApplyIdentity(file, old(Now()))
    {
      var value := ConfigGet(file, "id", "");
      if value != "" {
        id := value;
      }
      value := ConfigGet(file, "secret", "");
      if value != "" {
        secret := value;
      } else {
        value := ConfigGet(file, "token", "");
        if value != "" {
          secret := value;
        }
      }
    }

    /** The part about TLS. */
    method TakeTls(file: Values)
      modifies this`tls, this`caPath, this`insecure
      ensures Now() == ApplyTls(file, old(Now()))
    {
      hide ConfigGet, IsTrue;
      if IsTrue(ConfigGet(file, "tls", "")) {
        tls := true;
      }
      var value := ConfigGet(file, "tls_ca", "");
      if value != "" {
        caPath, tls := value, true;
      }
      if IsTrue(ConfigGet(file, "tls_insecure", "")) {
        insecure, tls := true, true;
      }
    }

    /** The loop over the allow entries. */
    method AddAllow(entries: seq<string>) returns (ok: bool)
      modifies this`allowlist
      ensures (ok, allowlist) == AddAllowed(entries, old(allowlist))
    {
      for i := 0 to |entries|
        invariant AddAllowed(entries[i..], allowlist) == AddAllowed(entries, old(allowlist))
      {
        assert entries[i..][1..] == entries[i + 1..];
        var endpoint := ParseHostPort(entries[i], 0);
        if endpoint.None? {
          return false;
        }
        allowlist := allowlist + {EndpointToString(endpoint.value.host, endpoint.value.port)};
      }
      return true;
    }
  }

  lemma {:induction false} AllowedAreParsed(entries: seq<string>, allowlist: set<string>)
    ensures
      var (ok, all) := AddAllowed(entries, allowlist);
      && (ok <==> forall i :: 0 <= i < |entries| ==> ParseHostPort(entries[i], 0).Some?)
      && (ok ==> all == allowlist + AllowSet(entries))
  {
    hide ParseHostPort, EndpointToString;
    if entries != [] && ParseHostPort(entries[0], 0).Some? {
      var e := ParseHostPort(entries[0], 0).value;
      var text := EndpointToString(e.host, e.port);
      AllowedAreParsed(entries[1..], allowlist + {text});
      AllowSetCons(entries);
      assert (forall i :: 0 <= i < |entries[1..]| ==> ParseHostPort(entries[1..][i], 0).Some?)
        ==> forall i :: 1 <= i < |entries| ==> ParseHostPort(entries[i], 0).Some? by {
        assert forall i :: 1 <= i < |entries| ==> entries[i] == entries[1..][i - 1];
      }
    }
  }

  lemma AllowSetCons(entries: seq<string>)
    requires entries != [] && ParseHostPort(entries[0], 0).Some?
    ensures
      var e := ParseHostPort(entries[0], 0).value;
      AllowSet(entries) == {EndpointToString(e.host, e.port)} + AllowSet(entries[1..])
  {
    hide ParseHostPort, EndpointToString;
    assert forall x :: x in entries <==> x == entries[0] || x in entries[1..];
  }

  lemma OtherNamesDiffer()
    ensures "token" !in {"tunnel", "id", "secret", "allow"} && "tls" !in {"tunnel", "id", "secret", "allow"}
    ensures "tls_ca" !in {"tunnel", "id", "secret", "allow"} && "tls_insecure" !in {"tunnel", "id", "secret", "allow"}
  {
    assert "token"[1] == 'o' && "allow"[1] == 'l' && "tls"[2] == 's';
    assert |"token"| == 5 && |"tls"| == 3 && |"tls_ca"| == 6 && |"tls_insecure"| == 12 && |"tunnel"| == 6 && |"secret"| == 6 && |"allow"| == 5;
    assert "tls_ca"[1] == 'l' && "tunnel"[1] == 'u' && "secret"[1] == 'e';
  }

  lemma LowerFixed(s: string)
    requires forall i :: 0 <= i < |s| ==> !('A' <= s[i] <= 'Z')
    ensures Lower(s) == s
  {
    assert forall i :: 0 <= i < |s| ==> Lower(s)[i] == s[i];
  }

  lemma AbsentKey(file: Values, key: string)
    requires (forall i :: 0 <= i < |key| ==> !('A' <= key[i] <= 'Z')) && key !in file
    ensures ConfigGet(file, key, "") == "" && ConfigGetAll(file, key) == []
  {
    LowerFixed(key);
  }

  lemma PresentKey(file: Values, key: string)
    requires IsName(key) && key in file && file[key] != []
    ensures ConfigGet(file, key, "") == file[key][|file[key]| - 1] && ConfigGetAll(file, key) == file[key]
  {
    NameIsPlain(key);
  }

  /** What the agent looks up in what was meant. */
  lemma MeantLookups(e: Enrollment)
    ensures
      var file := Meant(e);
      && ConfigGet(file, "tunnel", "") == e.tunnel && ConfigGet(file, "id", "") == e.id
      && ConfigGet(file, "secret", "") == e.secret && ConfigGetAll(file, "allow") == e.targets
  {
    NamesDiffer();
    var file := Meant(e);
    assert file["tunnel"] == [e.tunnel] && file["id"] == [e.id] && file["secret"] == [e.secret];
    assert if e.targets == [] then "allow" !in file else file["allow"] == e.targets;
    hide Meant, IsName, ConfigGet, ConfigGetAll;
    PresentKey(file, "tunnel");
    PresentKey(file, "id");
    PresentKey(file, "secret");
    if e.targets == [] {
      AbsentAllow(file);
    } else {
      PresentKey(file, "allow");
    }
  }

  lemma AbsentAllow(file: Values)
    requires "allow" !in file
    ensures ConfigGetAll(file, "allow") == []
  {
    AbsentKey(file, "allow");
  }

  lemma MeantHasNoTls(e: Enrollment, s: Settings)
    ensures ApplyTls(Meant(e), s) == s
  {
    OtherNamesDiffer();
    var file := Meant(e);
    assert forall k :: k in file ==> k in {"tunnel", "id", "secret", "allow"};
    hide Meant, ConfigGet;
    AbsentKey(file, "tls");
    AbsentKey(file, "tls_ca");
    AbsentKey(file, "tls_insecure");
    NotTrue();
  }

  lemma NotTrue()
    ensures !IsTrue("")
  {
  }

  lemma MeantIdentity(e: Enrollment, s: Settings)
    requires e.id != "" && e.secret != ""
    ensures ApplyIdentity(Meant(e), s) == s.(id := e.id, secret := e.secret)
  {
    MeantLookups(e);
    hide Meant, ConfigGet, ConfigGetAll;
  }

  lemma MeantApplied(e: Enrollment, s: Settings)
    requires e.tunnel != "" && e.id != "" && e.secret != ""
    ensures
      var (ok, s') := Apply(Meant(e), s);
      var endpoint := ParseHostPort(e.tunnel, 0);
      && (ok <==> endpoint.Some? && forall i :: 0 <= i < |e.targets| ==> ParseHostPort(e.targets[i], 0).Some?)
      && (ok ==> s' == s.(host := endpoint.value.host, port := endpoint.value.port, id := e.id, secret := e.secret,
                          allowlist := s.allowlist + AllowSet(e.targets)))
  {
    hide ParseHostPort, ConfigGet, ConfigGetAll, Meant, AddAllowed, ApplyTls, ApplyIdentity, AllowSet;
    MeantLookups(e);
    var endpoint := ParseHostPort(e.tunnel, 0);
    if endpoint.Some? {
      var s1 := s.(host := endpoint.value.host, port := endpoint.value.port);
      MeantIdentity(e, s1);
      var s2 := s1.(id := e.id, secret := e.secret);
      AllowedAreParsed(e.targets, s2.allowlist);
      MeantHasNoTls(e, s2.(allowlist := AddAllowed(e.targets, s2.allowlist).1));
    }
  }

  /** An enrollment text that is read back as meant is accepted exactly when its endpoints parse, and
      then gives the agent that endpoint, id and secret and adds exactly those targets. */
  lemma EnrollmentConfigures(e: Enrollment, s: Settings)
    requires CleanFields(e) && (Last(e) == "" || !PySpace(Last(e)[|Last(e)| - 1]))
    requires e.tunnel != "" && e.id != "" && e.secret != ""
    ensures
      Load(Some(ConfigText(e))).Loaded? &&
      var (ok, s') := Apply(Load(Some(ConfigText(e))).values, s);
      var endpoint := ParseHostPort(e.tunnel, 0);
      && (ok <==> endpoint.Some? && forall i :: 0 <= i < |e.targets| ==> ParseHostPort(e.targets[i], 0).Some?)
      && (ok ==> s' == s.(host := endpoint.value.host, port := endpoint.value.port, id := e.id, secret := e.secret,
                          allowlist := s.allowlist + AllowSet(e.targets)))
  {
    ConfigRoundTrip(e);
    MeantApplied(e, s);
    hide *;
  }
}
