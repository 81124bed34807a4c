/**
 Character and string primitives the C++ sources take from the standard library.

 A `std::string` and a `std::vector<uint8_t>` are both modelled as Dafny strings; a character
 stands for one C++ byte.  Nothing below depends on characters being below 256, so what is proved
 for every string holds for every byte string.
 */
module Text {

  datatype Option<+T> = None | Some(value: T)

  const CRLF := "\r\n"

  // ---- <cctype>, "C" locale -----------------------------------------------------------------

  predicate IsSpace(c: char) {
    c == ' ' || c == '\t' || c == '\n' || c == 11 as char || c == 12 as char || c == '\r'
  }

  predicate IsDigit(c: char) {
    '0' <= c <= '9'
  }

  function LowerChar(c: char): char {
    if 'A' <= c <= 'Z' then (c as int + 32) as char else c
  }

  function Lower(s: string): (r: string)
    ensures |r| == |s|
    ensures forall i :: 0 <= i < |s| ==> r[i] == LowerChar(s[i])
  {
    if s == "" then "" else [LowerChar(s[0])] + Lower(s[1..])
  }

  // ---- searching ----------------------------------------------------------------------------

  /** `s.find(c)`: the first index of `c`, or `|s|` when there is none. */
  function FindChar(s: string, c: char): (i: nat)
    ensures i <= |s|
    ensures forall k :: 0 <= k < i ==> s[k] != c
    ensures i < |s| ==> s[i] == c
  {
    if s == "" || s[0] == c then 0 else 1 + FindChar(s[1..], c)
  }

  /** `s.rfind(c)` plus one: zero when `c` does not occur. */
  function RFindChar(s: string, c: char): (i: nat)
    ensures i <= |s|
    ensures forall k :: i <= k < |s| ==> s[k] != c
    ensures i > 0 ==> s[i - 1] == c
  {
    if s == "" then 0
    else if s[|s| - 1] == c then |s|
    else RFindChar(s[..|s| - 1], c)
  }

  // ---- std::to_string and std::stoi ---------------------------------------------------------

  function Digit(d: nat): (c: char)
    requires d < 10
    ensures IsDigit(c)
  {
    ('0' as int + d) as char
  }

  function ToDecimal(n: nat): (s: string)
    ensures s != ""
    ensures forall i :: 0 <= i < |s| ==> IsDigit(s[i])
  {
    if n < 10 then [Digit(n)] else ToDecimal(n / 10) + [Digit(n % 10)]
  }

  function DigitValue(c: char): nat
    requires IsDigit(c)
  {
    c as int - '0' as int
  }

  function Value(s: string): nat
    requires forall i :: 0 <= i < |s| ==> IsDigit(s[i])
  {
    if s == "" then 0 else 10 * Value(s[..|s| - 1]) + DigitValue(s[|s| - 1])
  }

  /** Length of the longest prefix of `s` made of digits. */
  function DigitRun(s: string): (n: nat)
    ensures n <= |s|
    ensures forall i :: 0 <= i < n ==> IsDigit(s[i])
    ensures n < |s| ==> !IsDigit(s[n])
  {
    if s == "" || !IsDigit(s[0]) then 0 else 1 + DigitRun(s[1..])
  }

  function SkipSpaces(s: string): (r: string)
    ensures r != "" ==> !IsSpace(r[0])
  {
    if s != "" && IsSpace(s[0]) then SkipSpaces(s[1..]) else s
  }

  const INT_MAX := 0x7fff_ffff

  /** `std::stoi`: leading white space, an optional sign, at least one digit, anything after;
      `None` stands for both exceptions it throws (no digits; out of the range of int). */
  function Stoi(s: string): Option<int> {
    var t := SkipSpaces(s);
    var signed := t != "" && (t[0] == '-' || t[0] == '+');
    var u := if signed then t[1..] else t;
    var n := DigitRun(u);
    if n == 0 then None
    else
      var v: int := Value(u[..n]);
      if signed && t[0] == '-' then (if v <= INT_MAX + 1 then Some(-v) else None)
      else (if v <= INT_MAX then Some(v) else None)
  }

  lemma {:induction false} ValueOfDecimal(n: nat)
    ensures Value(ToDecimal(n)) == n
  {
    if n >= 10 {
      var s := ToDecimal(n);
      assert s[..|s| - 1] == ToDecimal(n / 10);
      ValueOfDecimal(n / 10);
    }
  }

  lemma DigitRunAll(s: string)
    requires forall i :: 0 <= i < |s| ==> IsDigit(s[i])
    ensures DigitRun(s) == |s|
  {
  }

  /** `std::stoi` reads back what `std::to_string` prints. */
  lemma StoiOfDecimal(n: nat)
    requires n <= INT_MAX
    ensures Stoi(ToDecimal(n)) == Some(n)
  {
    var s := ToDecimal(n);
    assert IsDigit(s[0]);
    assert SkipSpaces(s) == s;
    DigitRunAll(s);
    assert s[..|s|] == s;
    ValueOfDecimal(n);
  }

  // ---- trim_copy ------------------------------------------------------------------------------

  function TrimEnd(s: string): (r: string)
    ensures r <= s
    ensures r != "" ==> !IsSpace(r[|r| - 1])
  {
    if s != "" && IsSpace(s[|s| - 1]) then TrimEnd(s[..|s| - 1]) else s
  }

  function Trim(s: string): string {
    TrimEnd(SkipSpaces(s))
  }

  lemma SkipStep(s: string, i: nat)
    requires i <= |s|
    ensures if i < |s| && IsSpace(s[i]) then SkipSpaces(s[i..]) == SkipSpaces(s[i + 1..]) else SkipSpaces(s[i..]) == s[i..]
  {
    if i < |s| {
      assert s[i..][1..] == s[i + 1..];
    }
  }

  lemma TrimStep(s: string, i: nat, j: nat)
    requires i <= j <= |s|
    ensures if i < j && IsSpace(s[j - 1]) then TrimEnd(s[i..j]) == TrimEnd(s[i..j - 1]) else TrimEnd(s[i..j]) == s[i..j]
  {
    if i < j {
      assert s[i..j][..j - i - 1] == s[i..j - 1];
    }
  }

  /** `trim_copy`, the same in all three programs: two indices move in from the ends. */
  method TrimCopy(value: string) returns (r: string)
    ensures r == Trim(value)
  {
    hide SkipSpaces, TrimEnd, IsSpace;
    var start := 0;
    while start < |value| && IsSpace(value[start])
      invariant 0 <= start <= |value|
      invariant SkipSpaces(value[start..]) == SkipSpaces(value)
    {
      SkipStep(value, start);
      start := start + 1;
    }
    SkipStep(value, start);
    var end := |value|;
    assert value[start..end] == value[start..];
    while end > start && IsSpace(value[end - 1])
      invariant start <= end <= |value|
      invariant TrimEnd(value[start..end]) == Trim(value)
    {
      TrimStep(value, start, end);
      end := end - 1;
    }
    TrimStep(value, start, end);
    return value[start..end];
  }

  /** `lower_copy(value.substr(0, n)) == lower_copy(prefix)`, with the length test before it. */
  predicate StartsWithCi(value: string, prefix: string) {
    |prefix| <= |value| && Lower(value[..|prefix|]) == Lower(prefix)
  }
}
