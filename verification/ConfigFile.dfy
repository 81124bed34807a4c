/**
 The `key=value` files of both programs (agent/src/common/config.cpp).
 */
module ConfigFile {
  import opened Text

  type Values = map<string, seq<string>>

  /** `soFar`: the values of the lines before a bad one, which stay in the caller's object. */
  datatype Loaded =
    | Loaded(values: Values)
    | NotOpened
    | BadLine(lineNo: nat, emptyKey: bool, soFar: Values)

  /** What one line says. */
  datatype Line = Nothing | NoEquals | NoKey | Setting(key: string, value: string)

  /** `line.find_first_of("#;")`, or the length of the line. */
  function FindComment(s: string): (i: nat)
    ensures i <= |s|
    ensures forall k :: 0 <= k < i ==> s[k] != '#' && s[k] != ';'
    ensures i < |s| ==> s[i] == '#' || s[i] == ';'
  {
    if s == "" || s[0] == '#' || s[0] == ';' then 0 else 1 + FindComment(s[1..])
  }

  function ParseLine(raw: string): Line {
    var line := Trim(raw[..FindComment(raw)]);
    var equals := FindChar(line, '=');
    if line == "" then Nothing
    else if equals == |line| then NoEquals
    else if Trim(line[..equals]) == "" then NoKey
    else Setting(Lower(Trim(line[..equals])), Trim(line[equals + 1..]))
  }

  function Push(values: Values, key: string, value: string): Values {
    values[key := (if key in values then values[key] else []) + [value]]
  }

  /** Reading `lines`, of which the first has number `n`. */
  function LoadLines(lines: seq<string>, n: nat, values: Values): Loaded {
    if lines == [] then Loaded(values)
    else
      match ParseLine(lines[0])
      case Nothing => LoadLines(lines[1..], n + 1, values)
      case NoEquals => BadLine(n, false, values)
      case NoKey => BadLine(n, true, values)
      case Setting(key, value) => LoadLines(lines[1..], n + 1, Push(values, key, value))
  }

  /** What `std::getline` delivers, call after call. */
  function TextLines(s: string): seq<string>
    decreases |s|
  {
    if s == "" then []
    else
      var n := FindChar(s, '\n');
      if n == |s| then [s] else [s[..n]] + TextLines(s[n + 1..])
  }

  function Load(file: Option<string>): Loaded {
    match file
    case None => NotOpened
    case Some(text) => LoadLines(TextLines(text), 1, map[])
  }

  /** `load_config_file` on a file that may not open. */
  method LoadConfigFile(file: Option<string>) returns (loaded: Loaded)
    ensures loaded == Load(file)
  {
    if file.None? {
      return NotOpened;
    }
    var text := file.value;
    LoadStart(text);
    hide *;
    var values: Values := map[];
    var pos, lineNo := 0, 0;
    while pos < |text|
      invariant 0 <= pos <= |text|
      invariant LoadFrom(text, pos, lineNo + 1, values) == Load(file)
      decreases |text| - pos
    {
      NextLine(text, pos, lineNo + 1, values);
      var next := LineEnd(text, pos);
      var line := text[pos..next];
      pos := After(text, next);
      lineNo := lineNo + 1;
      var parsed := ReadLine(line);
      match parsed
      case Nothing =>
      case NoEquals => return BadLine(lineNo, false, values);
      case NoKey => return BadLine(lineNo, true, values);
      case Setting(key, value) => values := Push(values, key, value);
    }
    LoadEnd(text, lineNo + 1, values);
    return Loaded(values);
  }

  /** The body of that loop. */
  method ReadLine(raw: string) returns (parsed: Line)
    ensures parsed == ParseLine(raw)
  {
    var line := raw;
    var comment := FindComment(line);
    assert raw[..|raw|] == raw;
    if comment < |line| {
      line := line[..comment];
    }
    hide Trim, Lower;
    line := TrimCopy(line);
    if line == "" {
      return Nothing;
    }
    var equals := FindChar(line, '=');
    if equals == |line| {
      return NoEquals;
    }
    var key := TrimCopy(line[..equals]);
    var value := TrimCopy(line[equals + 1..]);
    if key == "" {
      return NoKey;
    }
    return Setting(Lower(key), value);
  }

  /** Where the line that starts at `pos` ends, and where the next one starts. */
  function LineEnd(text: string, pos: nat): (next: nat)
    requires pos <= |text|
    ensures pos <= next <= |text|
  {
    pos + FindChar(text[pos..], '\n')
  }

  function After(text: string, next: nat): (pos: nat)
    requires next <= |text|
    ensures next <= pos <= |text| && (next < |text| ==> next < pos)
  {
    if next == |text| then next else next + 1
  }

  /** What comes of the text from `pos` on, which starts with line `n`. */
  function LoadFrom(text: string, pos: nat, n: nat, values: Values): Loaded
    requires pos <= |text|
  {
    LoadLines(TextLines(text[pos..]), n, values)
  }

  lemma LoadStart(text: string)
    ensures LoadFrom(text, 0, 1, map[]) == Load(Some(text))
  {
    assert text[0..] == text;
  }

  lemma LoadEnd(text: string, n: nat, values: Values)
    ensures LoadFrom(text, |text|, n, values) == Loaded(values)
  {
    assert text[|text|..] == "";
  }

  lemma NextLine(text: string, pos: nat, n: nat, values: Values)
    requires pos < |text|
    ensures
      var next := LineEnd(text, pos);
      LoadFrom(text, pos, n, values) ==
        match ParseLine(text[pos..next])
        case Nothing => LoadFrom(text, After(text, next), n + 1, values)
        case NoEquals => BadLine(n, false, values)
        case NoKey => BadLine(n, true, values)
        case Setting(key, value) => LoadFrom(text, After(text, next), n + 1, Push(values, key, value))
  {
    hide ParseLine, Push, LineEnd, After, TextLines;
    FirstLine(text, pos);
    var lines := TextLines(text[pos..]);
    assert lines[1..] == TextLines(text[After(text, LineEnd(text, pos))..]);
  }

  lemma FirstLine(text: string, pos: nat)
    requires pos < |text|
    ensures
      var next := LineEnd(text, pos);
      TextLines(text[pos..]) == [text[pos..next]] + TextLines(text[After(text, next)..])
  {
    var rest := text[pos..];
    var next := LineEnd(text, pos);
    assert FindChar(rest, '\n') == next - pos;
    UnfoldLines(rest);
    assert After(text, next) == if next == |text| then next else next + 1;
    hide *;
    assert text[pos..next] == rest[..next - pos];
    if next < |text| {
      assert text[next + 1..] == rest[next - pos + 1..];
    } else {
      assert text[next..] == "";
    }
  }

  lemma UnfoldLines(s: string)
    requires s != ""
    ensures
      var n := FindChar(s, '\n');
      TextLines(s) == [s[..n]] + (if n == |s| then TextLines("") else TextLines(s[n + 1..]))
  {
    hide FindChar;
    var n := FindChar(s, '\n');
    if n == |s| {
      assert TextLines("") == [];
      assert TextLines(s) == [s];
      hide TextLines;
      assert s[..n] == s;
    } else {
      assert TextLines(s) == [s[..n]] + TextLines(s[n + 1..]);
      hide TextLines;
    }
  }

  // ---- looking up -------------------------------------------------------------------------------

  /** The last value given for a key. */
  function ConfigGet(values: Values, key: string, fallback: string): string {
    var k := Lower(key);
    if k !in values || values[k] == [] then fallback else values[k][|values[k]| - 1]
  }

  function ConfigGetAll(values: Values, key: string): seq<string> {
    var k := Lower(key);
    if k in values then values[k] else []
  }

  // ---- what a loaded value looks like -------------------------------------------------------------

  /** Free of comment characters, line feeds and outer white space. */
  predicate Clean(v: string) {
    '#' !in v && ';' !in v && '\n' !in v && Trim(v) == v
  }

  predicate AllClean(values: Values) {
    forall k :: k in values ==> forall i :: 0 <= i < |values[k]| ==> Clean(values[k][i])
  }

  lemma TrimFixed(v: string)
    ensures Trim(v) == v <==> v == "" || (!IsSpace(v[0]) && !IsSpace(v[|v| - 1]))
  {
  }

  lemma {:induction false} SkipIsSuffix(s: string)
    ensures |SkipSpaces(s)| <= |s| && SkipSpaces(s) == s[|s| - |SkipSpaces(s)|..]
  {
    if s != "" && IsSpace(s[0]) {
      SkipIsSuffix(s[1..]);
    }
  }

  lemma TrimIsInner(s: string)
    ensures Trim(Trim(s)) == Trim(s)
    ensures forall c :: c in Trim(s) ==> c in s
  {
    SkipIsSuffix(s);
    TrimFixed(Trim(s));
    var t, r := SkipSpaces(s), Trim(s);
    assert r <= t;
    forall c | c in r ensures c in s {
      var i :| 0 <= i < |r| && r[i] == c;
      assert t[i] == c && s[|s| - |t| + i] == c;
    }
  }

  lemma ParsedValueIsClean(raw: string)
    requires '\n' !in raw
    ensures ParseLine(raw).Setting? ==> Clean(ParseLine(raw).value)
  {
    var body := raw[..FindComment(raw)];
    var line := Trim(body);
    TrimIsInner(body);
    assert '#' !in body && ';' !in body && '\n' !in body;
    var equals := FindChar(line, '=');
    if equals < |line| {
      TrimIsInner(line[equals + 1..]);
    }
  }

  lemma {:induction false} LinesHaveNoLf(s: string)
    ensures forall i :: 0 <= i < |TextLines(s)| ==> '\n' !in TextLines(s)[i]
    decreases |s|
  {
    if s != "" {
      var n := FindChar(s, '\n');
      if n < |s| {
        LinesHaveNoLf(s[n + 1..]);
      }
    }
  }

  lemma {:induction false} LoadedAreClean(lines: seq<string>, n: nat, values: Values)
    requires AllClean(values) && forall i :: 0 <= i < |lines| ==> '\n' !in lines[i]
    ensures LoadLines(lines, n, values).Loaded? ==> AllClean(LoadLines(lines, n, values).values)
  {
    hide Clean, ParseLine;
    if lines != [] {
      ParsedValueIsClean(lines[0]);
      match ParseLine(lines[0])
      case Nothing => LoadedAreClean(lines[1..], n + 1, values);
      case Setting(key, value) =>
        assert AllClean(Push(values, key, value));
        LoadedAreClean(lines[1..], n + 1, Push(values, key, value));
      case _ =>
    }
  }

  /** Whatever a file holds, the values read from it are clean. */
  lemma LoadGivesCleanValues(file: Option<string>)
    ensures Load(file).Loaded? ==> AllClean(Load(file).values)
  {
    if file.Some? {
      LinesHaveNoLf(file.value);
      LoadedAreClean(TextLines(file.value), 1, map[]);
    }
  }
}
