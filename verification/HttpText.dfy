/**
 Lines and the end of a header in HTTP text (agent/src/tunnel/main.cpp).
 */
module HttpText {
  import opened Text

  predicate CrlfAt(s: string, i: nat) {
    i + 1 < |s| && s[i] == '\r' && s[i + 1] == '\n'
  }

  /** The empty line that ends a header: CRLF CRLF. */
  predicate MarkerAt(s: string, i: nat) {
    CrlfAt(s, i) && CrlfAt(s, i + 2)
  }

  /** `s.find("\r\n", from)`: the first CRLF at or after `from`, or `|s|`. */
  function FindCrlf(s: string, from: nat): (i: nat)
    requires from <= |s|
    ensures from <= i <= |s|
    ensures i < |s| ==> CrlfAt(s, i)
    ensures forall k :: from <= k < i ==> !CrlfAt(s, k)
    decreases |s| - from
  {
    if from == |s| || CrlfAt(s, from) then from else FindCrlf(s, from + 1)
  }

  /** `std::search` for the marker: its first position at or after `from`, or `|s|`. */
  function FindMarker(s: string, from: nat): (i: nat)
    requires from <= |s|
    ensures from <= i <= |s|
    ensures i < |s| ==> MarkerAt(s, i)
    ensures forall k :: from <= k < i ==> !MarkerAt(s, k)
    decreases |s| - from
  {
    if from == |s| || MarkerAt(s, from) then from else FindMarker(s, from + 1)
  }

  predicate NoCrlf(s: string) {
    forall i :: 0 <= i < |s| ==> !CrlfAt(s, i)
  }

  // ---- split_lines ----------------------------------------------------------------------------

  /** The lines of `s`, which CRLF ends; what follows the last CRLF counts if it is not empty. */
  function Lines(s: string): seq<string>
    decreases |s|
  {
    var next := FindCrlf(s, 0);
    if next == |s| then (if s == "" then [] else [s])
    else [s[..next]] + Lines(s[next + 2..])
  }

  lemma FindFrom(s: string, from: nat)
    requires from <= |s|
    ensures FindCrlf(s, from) == from + FindCrlf(s[from..], 0)
  {
    var i, j := FindCrlf(s, from), FindCrlf(s[from..], 0);
    assert forall k: nat :: CrlfAt(s[from..], k) <==> CrlfAt(s, from + k);
    assert i < |s| ==> CrlfAt(s[from..], i - from);
  }

  lemma LinesStep(s: string, from: nat)
    requires from <= |s|
    ensures
      var next := FindCrlf(s, from);
      Lines(s[from..]) ==
        if next == |s| then (if from == |s| then [] else [s[from..]])
        else [s[from..next]] + Lines(s[next + 2..])
  {
    FindFrom(s, from);
    var next := FindCrlf(s, from);
    var rest := s[from..];
    if next < |s| {
      assert rest[..next - from] == s[from..next] && rest[next - from + 2..] == s[next + 2..];
    }
  }

  method SplitLines(value: string) returns (lines: seq<string>)
    ensures lines == Lines(value)
  {
    hide Lines;
    lines := [];
    var pos := 0;
    assert value[0..] == value;
    while pos <= |value|
      invariant pos <= |value|
      invariant lines + Lines(value[pos..]) == Lines(value)
      decreases |value| - pos
    {
      var next := FindCrlf(value, pos);
      LinesStep(value, pos);
      if next == |value| {
        if pos < |value| {
          lines := lines + [value[pos..]];
        }
        break;
      }
      lines := lines + [value[pos..next]];
      pos := next + 2;
    }
  }

  /** Every line followed by CRLF. */
  function Join(lines: seq<string>): string {
    if lines == [] then "" else lines[0] + CRLF + Join(lines[1..])
  }

  /** The lines a header is made of: not empty, and free of CRLF. */
  predicate HeaderLine(line: string) {
    line != "" && NoCrlf(line)
  }

  predicate HeaderLines(lines: seq<string>) {
    forall i :: 0 <= i < |lines| ==> HeaderLine(lines[i])
  }

  /** A line without CRLF ends exactly at the CRLF after it, even if its own last character is CR. */
  lemma LineEnds(line: string, more: string)
    requires NoCrlf(line)
    ensures FindCrlf(line + CRLF + more, 0) == |line|
  {
    var s := line + CRLF + more;
    assert forall k :: 0 <= k < |line| ==> s[k] == line[k];
    assert s[|line|] == '\r';
    assert forall k: nat :: k + 1 < |line| ==> (CrlfAt(s, k) <==> CrlfAt(line, k));
    assert CrlfAt(s, |line|);
  }

  lemma LinesOfCons(line: string, more: string)
    requires NoCrlf(line)
    ensures Lines(line + CRLF + more) == [line] + Lines(more)
  {
    LineEnds(line, more);
    var s := line + CRLF + more;
    assert s[..|line|] == line && s[|line| + 2..] == more;
  }

  lemma LinesOfOne(line: string)
    requires HeaderLine(line)
    ensures Lines(line) == [line]
  {
    assert FindCrlf(line, 0) == |line|;
  }

  /** `split_lines` undoes joining, with the last CRLF or without it. */
  lemma {:induction false} LinesOfJoin(lines: seq<string>)
    requires HeaderLines(lines)
    ensures Lines(Join(lines)) == lines
    ensures lines != [] ==> |Join(lines)| >= 2 && Lines(Join(lines)[..|Join(lines)| - 2]) == lines
  {
    hide Lines;
    if lines == [] {
      LinesOfNone();
    } else {
      var line, rest := lines[0], Join(lines[1..]);
      var s := Join(lines);
      LinesOfJoin(lines[1..]);
      LinesOfCons(line, rest);
      if lines[1..] == [] {
        assert s[..|s| - 2] == line;
        LinesOfOne(line);
      } else {
        LinesOfCons(line, rest[..|rest| - 2]);
        assert s[..|s| - 2] == line + CRLF + rest[..|rest| - 2];
      }
    }
  }

  lemma LinesOfNone()
    ensures Lines("") == []
  {
  }

  /** In a header printed from its lines the marker comes exactly at the end, whatever follows. */
  lemma {:induction false} MarkerAtEnd(lines: seq<string>, more: string)
    requires lines != [] && HeaderLines(lines)
    ensures FindMarker(Join(lines) + CRLF + more, 0) == |Join(lines)| - 2
  {
    var s := Join(lines) + CRLF + more;
    NoEarlyMarker(lines, more);
    EndsInCrlf(lines);
    assert MarkerAt(s, |Join(lines)| - 2);
  }

  lemma {:induction false} EndsInCrlf(lines: seq<string>)
    requires lines != []
    ensures |Join(lines)| >= 2 && CrlfAt(Join(lines), |Join(lines)| - 2)
  {
    if lines[1..] == [] {
      assert Join(lines) == lines[0] + CRLF;
    } else {
      EndsInCrlf(lines[1..]);
      var shift := |lines[0]| + 2;
      assert forall k :: 0 <= k < |Join(lines[1..])| ==> Join(lines)[shift + k] == Join(lines[1..])[k];
    }
  }

  lemma {:induction false} NoEarlyMarker(lines: seq<string>, more: string)
    requires lines != [] && HeaderLines(lines)
    ensures forall k: nat :: k < |Join(lines)| - 2 ==> !MarkerAt(Join(lines) + CRLF + more, k)
  {
    var line, rest := lines[0], lines[1..];
    var s := Join(lines) + CRLF + more;
    var tail := Join(rest) + CRLF + more;
    assert s == line + CRLF + tail;
    LineEnds(line, tail);
    if rest != [] {
      NoEarlyMarker(rest, more);
      NotAtStart(rest, more);
    }
    forall k: nat | k < |Join(lines)| - 2 ensures !MarkerAt(s, k) {
      if k >= |line| + 2 {
        assert MarkerAt(s, k) ==> MarkerAt(tail, k - |line| - 2);
      } else if k == |line| {
        assert CrlfAt(s, k + 2) ==> CrlfAt(tail, 0);
      } else if k == |line| + 1 {
        assert s[k] == '\n';
      }
    }
  }

  lemma NotAtStart(lines: seq<string>, more: string)
    requires lines != [] && HeaderLines(lines)
    ensures !CrlfAt(Join(lines) + CRLF + more, 0)
  {
    var tail := Join(lines[1..]) + CRLF + more;
    assert Join(lines) + CRLF + more == lines[0] + CRLF + tail;
    LineEnds(lines[0], tail);
  }

  lemma JoinFirst(line: string, rest: seq<string>)
    ensures Join([line] + rest) == line + CRLF + Join(rest)
  {
    assert ([line] + rest)[1..] == rest;
  }

  lemma CutAtCrlf(s: string, next: nat)
    requires CrlfAt(s, next)
    ensures s == s[..next] + CRLF + s[next + 2..]
    ensures s + CRLF == s[..next] + CRLF + (s[next + 2..] + CRLF)
  {
  }

  predicate EndsLine(s: string) {
    s == "" || (|s| >= 2 && CrlfAt(s, |s| - 2))
  }

  lemma EndOfRest(s: string, next: nat)
    requires CrlfAt(s, next)
    ensures EndsLine(s) <==> EndsLine(s[next + 2..])
  {
    var rest := s[next + 2..];
    if |rest| >= 2 {
      assert rest[|rest| - 2] == s[|s| - 2] && rest[|rest| - 1] == s[|s| - 1];
    } else if |rest| == 1 {
      assert s[|s| - 2] == '\n';
    }
  }

  /** No line of a text has a CRLF. */
  lemma {:induction false} LinesHaveNoCrlf(s: string)
    ensures forall i :: 0 <= i < |Lines(s)| ==> NoCrlf(Lines(s)[i])
    decreases |s|
  {
    var next := FindCrlf(s, 0);
    if next < |s| {
      LinesHaveNoCrlf(s[next + 2..]);
      assert forall k :: 0 <= k < next ==> (CrlfAt(s[..next], k) ==> CrlfAt(s, k));
    }
  }

  /** The lines put together again are the text, with a CRLF behind it if it did not end in one. */
  lemma {:induction false} JoinOfLines(s: string)
    ensures Join(Lines(s)) == if EndsLine(s) then s else s + CRLF
    decreases |s|
  {
    var next := FindCrlf(s, 0);
    if next == |s| {
      assert EndsLine(s) ==> s == "";
      if s != "" {
        JoinFirst(s, []);
        assert [s] + [] == [s];
      }
    } else {
      assert Lines(s) == [s[..next]] + Lines(s[next + 2..]);
      hide Lines;
      JoinOfLines(s[next + 2..]);
      EndOfRest(s, next);
      hide Join, EndsLine;
      JoinFirst(s[..next], Lines(s[next + 2..]));
      CutAtCrlf(s, next);
    }
  }
}
