/**
 What the configuration loader and the agent's use of it make of every file, said of its text
 (agent/src/common/config.cpp, agent/src/agent/main.cpp).
 */
module ConfigLaws {
  import opened Text
  import opened TextLaws
  import opened Endpoints
  import opened ConfigFile

  // ---- one line -----------------------------------------------------------------------------------

  predicate NoComment(s: string) {
    '#' !in s && ';' !in s
  }

  /** What starts with a comment character is not read. */
  lemma CommentIsCut(body: string, comment: string)
    requires NoComment(body) && (comment == "" || comment[0] == '#' || comment[0] == ';')
    ensures ParseLine(body + comment) == ParseLine(body)
  {
    var raw := body + comment;
    assert forall i :: 0 <= i < |body| ==> raw[i] == body[i] && body[i] in body;
    assert comment != "" ==> raw[|body|] == comment[0];
    assert FindComment(raw) == |body| && FindComment(body) == |body|;
    assert raw[..|body|] == body && body[..|body|] == body;
  }

  lemma BlankLine(body: string)
    requires Spaces(body)
    ensures ParseLine(body) == Nothing
  {
    assert forall i :: 0 <= i < |body| ==> body[i] != '#' && body[i] != ';';
    assert FindComment(body) == |body| && body[..|body|] == body;
    TrimOfSpaces(body);
  }

  lemma {:induction false} KeepsFirst(r: string)
    requires r != "" && !IsSpace(r[0])
    ensures TrimEnd(r) != "" && TrimEnd(r)[0] == r[0]
  {
    if IsSpace(r[|r| - 1]) {
      KeepsFirst(r[..|r| - 1]);
    }
  }

  /** The parts of a text that trimming tells apart. */
  lemma Parts(s: string) returns (a: string, t: string, b: string)
    ensures s == a + t + b && Spaces(a) && Spaces(b) && (t == "" || Tight(t)) && Trim(s) == t
    ensures t == "" ==> b == ""
  {
    var r := SkipSpaces(s);
    SkipIsSuffix(s);
    SkippedAreSpaces(s);
    a := s[..|s| - |r|];
    assert s == a + r;
    if r == "" {
      t, b := "", "";
    } else {
      KeepsFirst(r);
      CutAreSpaces(r);
      t, b := TrimEnd(r), r[|TrimEnd(r)|..];
      assert r == t + b;
      hide SkipSpaces, TrimEnd;
      assert a + (t + b) == a + t + b;
    }
  }

  lemma {:induction false} SkippedAreSpaces(s: string)
    ensures |SkipSpaces(s)| <= |s| && Spaces(s[..|s| - |SkipSpaces(s)|])
  {
    if s != "" && IsSpace(s[0]) {
      SkippedAreSpaces(s[1..]);
      var n := |s| - |SkipSpaces(s)|;
      assert forall i :: 1 <= i < n ==> s[..n][i] == s[1..][..n - 1][i - 1];
    }
  }

  lemma {:induction false} CutAreSpaces(s: string)
    ensures Spaces(s[|TrimEnd(s)|..])
  {
    if s != "" && IsSpace(s[|s| - 1]) {
      CutAreSpaces(s[..|s| - 1]);
      var n := |TrimEnd(s)|;
      assert forall i :: 0 <= i < |s| - n - 1 ==> s[n..][i] == s[..|s| - 1][n..][i];
    }
  }

  /** A line that is not blank and has no equals sign is an error. */
  lemma LineWithoutEquals(body: string)
    requires NoComment(body) && !Spaces(body) && '=' !in body
    ensures ParseLine(body) == NoEquals
  {
    assert FindComment(body) == |body| && body[..|body|] == body;
    var a, t, b := Parts(body);
    TrimIsInner(body);
    assert t == "" ==> body == a;
    assert FindChar(t, '=') == |t|;
    hide Trim;
  }

  lemma AtEquals(left: string, right: string)
    requires '=' !in left
    ensures var line := left + (['='] + right);
            && line != "" && FindChar(line, '=') == |left|
            && line[..|left|] == left && line[|left| + 1..] == right && |left| < |line|
  {
    var line := left + (['='] + right);
    assert line[|left|] == '=' && forall i :: 0 <= i < |left| ==> line[i] == left[i];
  }

  lemma WholeIsRead(body: string)
    requires NoComment(body)
    ensures body[..FindComment(body)] == body
  {
    assert forall i :: 0 <= i < |body| ==> body[i] in body;
  }

  /** What is left of `k = v` after trimming. */
  lemma EqualsParts(k: string, v: string) returns (left: string, right: string)
    requires '=' !in k
    ensures Trim(k + (['='] + v)) == left + (['='] + right) && '=' !in left
    ensures Trim(left) == Trim(k) && Trim(right) == Trim(v)
  {
    var a, key, b := Parts(k);
    var c, value, d := Parts(v);
    hide Trim;
    TrimLeft(key, b);
    TrimRight(c, value);
    left := key + b;
    assert k == a + left;
    LeftHasNoEquals(a, left, k);
    if value == "" {
      right := "";
      EqualsTrimmed(a, left, "", c);
      assert v == "" + c;
      Assemble(a, left, "", c);
    } else {
      right := c + value;
      assert right[|right| - 1] == value[|value| - 1];
      EqualsTrimmed(a, left, right, d);
      Assemble(a, left, right, d);
    }
  }

  lemma Assemble(a: string, left: string, right: string, last: string)
    ensures a + left + (['='] + (right + last)) == a + ((left + (['='] + right)) + last)
  {
  }

  lemma LeftHasNoEquals(a: string, left: string, k: string)
    requires k == a + left && '=' !in k
    ensures '=' !in left
  {
    assert forall i :: 0 <= i < |left| ==> left[i] == k[|a| + i];
  }

  /** A line with one: what is before the first is the key, and what is behind it the value. */
  lemma LineWithEquals(k: string, v: string)
    requires NoComment(k) && NoComment(v) && '=' !in k
    ensures ParseLine(k + (['='] + v)) == if Trim(k) == "" then NoKey else Setting(Lower(Trim(k)), Trim(v))
  {
    var body := k + (['='] + v);
    assert NoComment(body);
    WholeIsRead(body);
    var left, right := EqualsParts(k, v);
    AtEquals(left, right);
    hide Trim, Lower, FindComment, FindChar;
  }

  lemma TrimLeft(t: string, b: string)
    requires (t == "" || Tight(t)) && Spaces(b)
    ensures Trim(t + b) == t
  {
    if t == "" {
      assert t + b == b;
      TrimOfSpaces(b);
    } else {
      TrimOf("", t, b);
      assert "" + t + b == t + b;
    }
  }

  lemma TrimRight(a: string, t: string)
    requires (t == "" || Tight(t)) && Spaces(a)
    ensures Trim(if t == "" then "" else a + t) == t
  {
    if t != "" {
      TrimOf(a, t, "");
      assert a + t + "" == a + t;
    }
  }

  lemma EqualsTrimmed(a: string, left: string, right: string, b: string)
    requires Spaces(a) && Spaces(b) && (left == "" || !IsSpace(left[0])) && (right == "" || !IsSpace(right[|right| - 1]))
    ensures Trim(a + ((left + (['='] + right)) + b)) == left + (['='] + right)
  {
    var line := left + (['='] + right);
    assert line[0] == if left == "" then '=' else left[0];
    assert line[|line| - 1] == if right == "" then '=' else right[|right| - 1];
    TrimOf(a, line, b);
    assert a + line + b == a + (line + b);
  }

  // ---- a whole file -------------------------------------------------------------------------------

  predicate OneLine(s: string) {
    '\n' !in s
  }

  /** Lines, each with its line feed. */
  function Ended(lines: seq<string>): string {
    if lines == [] then "" else lines[0] + (['\n'] + Ended(lines[1..]))
  }

  lemma LineIsRead(line: string, rest: string)
    requires OneLine(line)
    ensures TextLines(line + (['\n'] + rest)) == [line] + TextLines(rest)
  {
    var s, n := line + (['\n'] + rest), |line|;
    assert s[n] == '\n' && s[..n] == line && s[n + 1..] == rest;
    assert forall k :: 0 <= k < n ==> s[k] == line[k];
    assert FindChar(s, '\n') == n;
  }

  lemma LastIsRead(last: string)
    requires OneLine(last)
    ensures TextLines(last) == if last == "" then [] else [last]
  {
    assert FindChar(last, '\n') == |last|;
  }

  /** `std::getline` gives the lines of a file, whether or not the last one has its line feed. */
  lemma {:induction false} LinesAreRead(lines: seq<string>, last: string)
    requires (forall i :: 0 <= i < |lines| ==> OneLine(lines[i])) && OneLine(last)
    ensures TextLines(Ended(lines) + last) == lines + (if last == "" then [] else [last])
  {
    hide TextLines, OneLine;
    LastIsRead(last);
    if lines == [] {
      assert Ended(lines) + last == last;
    } else {
      LinesAreRead(lines[1..], last);
      var rest := Ended(lines[1..]) + last;
      LineIsRead(lines[0], rest);
      assert Ended(lines) + last == lines[0] + (['\n'] + rest);
    }
  }

  function At(values: Values, key: string): seq<string> {
    if key in values then values[key] else []
  }

  /** The values given for a key, in order. */
  function Given(lines: seq<string>, key: string): seq<string> {
    if lines == [] then []
    else
      var line := ParseLine(lines[0]);
      (if line.Setting? && line.key == key then [line.value] else []) + Given(lines[1..], key)
  }

  predicate Bad(line: string) {
    ParseLine(line).NoEquals? || ParseLine(line).NoKey?
  }

  lemma PushedAt(values: Values, k: string, v: string, key: string)
    ensures At(Push(values, k, v), key) == At(values, key) + (if k == key then [v] else [])
  {
  }

  /** What one good line adds to a key. */
  function Adds(line: string, key: string): seq<string> {
    var l := ParseLine(line);
    if l.Setting? && l.key == key then [l.value] else []
  }

  /** A good line is loaded. */
  lemma GoodLine(lines: seq<string>, n: nat, values: Values, key: string) returns (values': Values)
    requires lines != [] && !Bad(lines[0])
    ensures LoadLines(lines, n, values) == LoadLines(lines[1..], n + 1, values')
    ensures At(values', key) == At(values, key) + Adds(lines[0], key)
    ensures Given(lines, key) == Adds(lines[0], key) + Given(lines[1..], key)
  {
    var line := ParseLine(lines[0]);
    values' := values;
    if line.Setting? {
      values' := Push(values, line.key, line.value);
      PushedAt(values, line.key, line.value, key);
    }
    hide ParseLine, Push, At;
  }

  /** A file without a bad line gives every key all its values, in order. */
  lemma {:induction false} GoodFile(lines: seq<string>, n: nat, values: Values, key: string)
    requires forall i :: 0 <= i < |lines| ==> !Bad(lines[i])
    ensures LoadLines(lines, n, values).Loaded?
    ensures At(LoadLines(lines, n, values).values, key) == At(values, key) + Given(lines, key)
  {
    if lines != [] {
      assert !Bad(lines[0]);
      var values' := GoodLine(lines, n, values, key);
      hide Bad, At, LoadLines, Given, Adds;
      GoodFile(lines[1..], n + 1, values', key);
      Associate(At(values, key), Adds(lines[0], key), Given(lines[1..], key));
    }
  }

  /** A file with one is refused with the number of the first, and which kind of bad it is. */
  lemma {:induction false} BadFile(lines: seq<string>, n: nat, values: Values, k: nat)
    requires k < |lines| && Bad(lines[k]) && forall i :: 0 <= i < k ==> !Bad(lines[i])
    ensures
      var r := LoadLines(lines, n, values);
      r.BadLine? && r.lineNo == n + k && r.emptyKey == ParseLine(lines[k]).NoKey?
  {
    if k > 0 {
      assert !Bad(lines[0]);
      hide ParseLine;
      match ParseLine(lines[0])
      case Nothing => BadFile(lines[1..], n + 1, values, k - 1);
      case Setting(key, v) => BadFile(lines[1..], n + 1, Push(values, key, v), k - 1);
      case _ =>
    }
  }

  lemma FromNothing(given: seq<string>)
    ensures [] + given == given
  {
  }

  /** `config_get` on a loaded file: the last value given for the key, in any case of its letters. */
  lemma LastValueWins(lines: seq<string>, key: string, fallback: string)
    requires forall i :: 0 <= i < |lines| ==> !Bad(lines[i])
    ensures
      var r, given := LoadLines(lines, 1, map[]), Given(lines, Lower(key));
      r.Loaded? && ConfigGet(r.values, key, fallback) == if given == [] then fallback else given[|given| - 1]
  {
    hide LoadLines, Given, Lower;
    GoodFile(lines, 1, map[], Lower(key));
    FromNothing(Given(lines, Lower(key)));
  }

  lemma AllValues(lines: seq<string>, key: string)
    requires forall i :: 0 <= i < |lines| ==> !Bad(lines[i])
    ensures LoadLines(lines, 1, map[]).Loaded? && ConfigGetAll(LoadLines(lines, 1, map[]).values, key) == Given(lines, Lower(key))
  {
    hide LoadLines, Given, Lower;
    GoodFile(lines, 1, map[], Lower(key));
    FromNothing(Given(lines, Lower(key)));
  }
}
