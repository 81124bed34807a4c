/**
 A reader for JSON texts made of objects and strings, at byte level: the grammar of sections 2, 4 and
 7 of RFC 8259 with every escape of section 7, written independently of the printer.
 */
module JsonReader {
  import opened Text

  datatype Value = Str(text: string) | Object(members: seq<Member>)
  datatype Member = Member(name: string, value: Value)

  predicate IsWhite(c: char) {
    c == ' ' || c == '\t' || c == '\n' || c == '\r'
  }

  function SkipWhite(s: string): (r: string)
    ensures |r| <= |s|
  {
    if s != "" && IsWhite(s[0]) then SkipWhite(s[1..]) else s
  }

  // ---- strings ----------------------------------------------------------------------------------

  function HexValue(c: char): Option<nat> {
    if '0' <= c <= '9' then Some(c as int - '0' as int)
    else if 'a' <= c <= 'f' then Some(c as int - 'a' as int + 10)
    else if 'A' <= c <= 'F' then Some(c as int - 'A' as int + 10)
    else None
  }

  /** Four hexadecimal digits from index `i` on. */
  function Hex4(s: string, i: nat): (code: Option<nat>)
    ensures code.Some? ==> i + 4 <= |s| && code.value < 0x1_0000
  {
    if i + 4 > |s| then None
    else
      match (HexValue(s[i]), HexValue(s[i + 1]), HexValue(s[i + 2]), HexValue(s[i + 3]))
      case (Some(a), Some(b), Some(c), Some(d)) =>
        if a < 16 && b < 16 && c < 16 && d < 16 then Some(a * 0x1000 + b * 0x100 + c * 0x10 + d) else None
      case _ => None
  }

  /** The UTF-8 bytes of a code point. */
  function Utf8(code: nat): string
    requires code < 0x11_0000
  {
    if code < 0x80 then [code as char]
    else if code < 0x800 then [(0xC0 + code / 0x40) as char, (0x80 + code % 0x40) as char]
    else if code < 0x1_0000 then
      [(0xE0 + code / 0x1000) as char, (0x80 + code / 0x40 % 0x40) as char, (0x80 + code % 0x40) as char]
    else
      [(0xF0 + code / 0x4_0000) as char, (0x80 + code / 0x1000 % 0x40) as char,
       (0x80 + code / 0x40 % 0x40) as char, (0x80 + code % 0x40) as char]
  }

  /** What an escape stands for and how many characters it takes. */
  function ReadEscape(s: string): (r: Option<(string, nat)>)
    requires s != "" && s[0] == '\\'
    ensures r.Some? ==> 2 <= r.value.1 <= |s|
  {
    if |s| < 2 then None
    else if s[1] == '"' || s[1] == '\\' || s[1] == '/' then Some(([s[1]], 2))
    else if s[1] == 'b' then Some(([8 as char], 2))
    else if s[1] == 'f' then Some(([12 as char], 2))
    else if s[1] == 'n' then Some((['\n'], 2))
    else if s[1] == 'r' then Some((['\r'], 2))
    else if s[1] == 't' then Some((['\t'], 2))
    else if s[1] == 'u' then ReadCodePoint(s)
    else None
  }

  /** `\u` and four digits, or a surrogate pair of those. */
  function ReadCodePoint(s: string): (r: Option<(string, nat)>)
    requires |s| >= 2
    ensures r.Some? ==> 2 <= r.value.1 <= |s|
  {
    match Hex4(s, 2)
    case None => None
    case Some(code) =>
      if code < 0xD800 || code >= 0xE000 then Some((Utf8(code), 6))
      else if code >= 0xDC00 || |s| < 8 || s[6] != '\\' || s[7] != 'u' then None
      else
        match Hex4(s, 8)
        case None => None
        case Some(low) =>
          if low < 0xDC00 || low >= 0xE000 then None
          else Some((Utf8(0x1_0000 + (code - 0xD800) * 0x400 + (low - 0xDC00)), 12))
  }

  /** The rest of a string, up to its closing quote, and what follows. */
  function ReadChars(s: string): (r: Option<(string, string)>)
    ensures r.Some? ==> |r.value.1| < |s|
    decreases |s|
  {
    if s == "" then None
    else if s[0] == '"' then Some(("", s[1..]))
    else if s[0] < ' ' then None
    else if s[0] != '\\' then Prepend([s[0]], ReadChars(s[1..]))
    else
      match ReadEscape(s)
      case None => None
      case Some((text, n)) => Prepend(text, ReadChars(s[n..]))
  }

  function Prepend(text: string, r: Option<(string, string)>): (r': Option<(string, string)>)
    ensures r'.Some? <==> r.Some?
    ensures r.Some? ==> r'.value.1 == r.value.1
  {
    match r
    case None => None
    case Some((more, rest)) => Some((text + more, rest))
  }

  function ReadString(s: string): (r: Option<(string, string)>)
    ensures r.Some? ==> |r.value.1| < |s|
  {
    if s == "" || s[0] != '"' then None else ReadChars(s[1..])
  }

  // ---- values -----------------------------------------------------------------------------------

  function ReadValue(s: string): (r: Option<(Value, string)>)
    ensures r.Some? ==> |r.value.1| < |s|
    decreases |s|, 0
  {
    var t := SkipWhite(s);
    if t == "" then None
    else if t[0] == '"' then
      match ReadString(t)
      case None => None
      case Some((text, rest)) => Some((Str(text), rest))
    else if t[0] == '{' then
      var u := SkipWhite(t[1..]);
      if u != "" && u[0] == '}' then Some((Object([]), u[1..]))
      else
        match ReadMembers(u)
        case None => None
        case Some((members, rest)) => Some((Object(members), rest))
    else None
  }

  /** A name, a colon and a value. */
  function ReadMember(s: string): (r: Option<(Member, string)>)
    ensures r.Some? ==> |r.value.1| < |s|
    decreases |s|, 1
  {
    match ReadString(SkipWhite(s))
    case None => None
    case Some((name, rest)) =>
      var t := SkipWhite(rest);
      if t == "" || t[0] != ':' then None
      else
        match ReadValue(t[1..])
        case None => None
        case Some((value, more)) => Some((Member(name, value), more))
  }

  /** One or more members and the closing brace. */
  function ReadMembers(s: string): (r: Option<(seq<Member>, string)>)
    ensures r.Some? ==> |r.value.1| < |s|
    decreases |s|, 2
  {
    match ReadMember(s)
    case None => None
    case Some((member, rest)) =>
      var t := SkipWhite(rest);
      if t == "" then None
      else if t[0] == '}' then Some(([member], t[1..]))
      else if t[0] != ',' then None
      else
        match ReadMembers(t[1..])
        case None => None
        case Some((members, more)) => Some(([member] + members, more))
  }

  /** A whole text: one value and nothing but white space after it. */
  function ReadText(s: string): Option<Value> {
    match ReadValue(s)
    case None => None
    case Some((value, rest)) => if SkipWhite(rest) == "" then Some(value) else None
  }
}
