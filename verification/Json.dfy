/**
 The JSON the tunnel prints about its agents (`json_escape`, `make_status_payload` and
 `make_auth_payload` in agent/src/tunnel/main.cpp), and that a JSON reader gets back what was meant.
 */
module Json {
  import opened Text
  import opened JsonReader

  // ---- escaping ---------------------------------------------------------------------------------

  const HEX := "0123456789abcdef"

  function EscapeChar(c: char): string {
    if c == '"' then ['\\', '"']
    else if c == '\\' then ['\\', '\\']
    else if c == '\n' then ['\\', 'n']
    else if c == '\r' then ['\\', 'r']
    else if c == '\t' then ['\\', 't']
    else if c < ' ' then ['\\', 'u', '0', '0', HEX[c as int / 16], HEX[c as int % 16]]
    else [c]
  }

  function Escape(s: string): string {
    if s == "" then "" else EscapeChar(s[0]) + Escape(s[1..])
  }

  method JsonEscape(value: string) returns (escaped: string)
    ensures escaped == Escape(value)
  {
    escaped := "";
    for i := 0 to |value|
      invariant escaped + Escape(value[i..]) == Escape(value)
    {
      var ch := value[i];
      EscapeStep(value, i, escaped);
      if ch == '"' {
        escaped := escaped + ['\\', '"'];
      } else if ch == '\\' {
        escaped := escaped + ['\\', '\\'];
      } else if ch == '\n' {
        escaped := escaped + ['\\', 'n'];
      } else if ch == '\r' {
        escaped := escaped + ['\\', 'r'];
      } else if ch == '\t' {
        escaped := escaped + ['\\', 't'];
      } else if ch < ' ' {
        escaped := escaped + ['\\', 'u', '0', '0', HEX[ch as int / 16], HEX[ch as int % 16]];
      } else {
        escaped := escaped + [ch];
      }
    }
  }

  lemma EscapeStep(value: string, i: nat, done: string)
    requires i < |value|
    ensures done + Escape(value[i..]) == done + EscapeChar(value[i]) + Escape(value[i + 1..])
  {
    assert value[i..][1..] == value[i + 1..];
  }

  // ---- printing a value -------------------------------------------------------------------------

  function Quoted(s: string): string {
    ['"'] + Escape(s) + ['"']
  }

  /** The compact text of a value. */
  function Print(v: Value): string
    decreases v, 0
  {
    match v
    case Str(text) => Quoted(text)
    case Object(members) => ['{'] + PrintMembers(members) + ['}']
  }

  function PrintMembers(members: seq<Member>): string
    decreases members, 1
  {
    if members == [] then ""
    else
      Quoted(members[0].name) + [':'] + Print(members[0].value)
      + (if members[1..] == [] then "" else [','] + PrintMembers(members[1..]))
  }

  // ---- the reader undoes the printer --------------------------------------------------------------

  lemma HexDigits(n: nat)
    requires n < 0x20
    ensures HexValue(HEX[n / 16]) == Some(n / 16) && HexValue(HEX[n % 16]) == Some(n % 16)
  {
  }

  lemma ReadControlChar(c: char, more: string)
    requires c < ' '
    ensures ReadChars(['\\', 'u', '0', '0', HEX[c as int / 16], HEX[c as int % 16]] + more)
            == Prepend([c], ReadChars(more))
  {
    var n := c as int;
    var s := ['\\', 'u', '0', '0', HEX[n / 16], HEX[n % 16]] + more;
    HexDigits(n);
    assert Hex4(s, 2) == Some(n) by {
      assert HexValue('0') == Some(0);
    }
    assert ReadEscape(s) == Some(([c], 6));
    assert s[6..] == more;
  }

  lemma ReadEscapedChar(c: char, more: string)
    ensures ReadChars(EscapeChar(c) + more) == Prepend([c], ReadChars(more))
  {
    var s := EscapeChar(c) + more;
    if c == '"' || c == '\\' || c == '\n' || c == '\r' || c == '\t' {
      assert s[2..] == more;
    } else if c < ' ' {
      ReadControlChar(c, more);
    } else {
      assert s[1..] == more;
    }
  }

  lemma {:induction false} ReadEscaped(s: string, more: string)
    ensures ReadChars(Escape(s) + ['"'] + more) == Some((s, more))
  {
    hide EscapeChar;
    if s == "" {
      assert Escape(s) + ['"'] + more == ['"'] + more;
    } else {
      var tail := Escape(s[1..]) + ['"'] + more;
      assert Escape(s) + ['"'] + more == EscapeChar(s[0]) + tail;
      ReadEscapedChar(s[0], tail);
      ReadEscaped(s[1..], more);
      assert [s[0]] + s[1..] == s;
    }
  }

  lemma ReadQuoted(s: string, more: string)
    ensures ReadString(Quoted(s) + more) == Some((s, more))
    ensures SkipWhite(Quoted(s) + more) == Quoted(s) + more
    ensures (Quoted(s) + more)[0] == '"'
  {
    ReadEscaped(s, more);
    hide Escape, ReadChars;
    assert (Quoted(s) + more)[1..] == Escape(s) + ['"'] + more;
  }

  lemma {:induction false} ReadPrinted(v: Value, more: string)
    ensures ReadValue(Print(v) + more) == Some((v, more))
    decreases v, 0
  {
    hide ReadString, Quoted, ReadMembers;
    var s := Print(v) + more;
    match v
    case Str(text) =>
      ReadQuoted(text, more);
    case Object(members) =>
      var inner := PrintMembers(members) + ['}'] + more;
      assert s == ['{'] + inner && s[1..] == inner;
      if members == [] {
        assert inner == ['}'] + more && inner[1..] == more;
      } else {
        ReadPrintedMembers(members, more);
      }
  }

  lemma {:induction false} ReadPrintedMembers(members: seq<Member>, more: string)
    requires members != []
    ensures
      var s := PrintMembers(members) + ['}'] + more;
      && ReadMembers(s) == Some((members, more))
      && SkipWhite(s) == s && s[0] == '"'
    decreases members, 1
  {
    hide *;
    var rest, tail := members[1..], Tail(members[1..], more);
    var s := MemberText(members[0], tail);
    PrintedMember(members, more);
    ReadPrinted(members[0].value, tail);
    ReadPrintedMember(members[0], tail);
    TailStarts(rest, more);
    if rest == [] {
      ReadLast(s, members[0], tail);
      assert [members[0]] == members;
    } else {
      ReadPrintedMembers(rest, more);
      ReadNext(s, members[0], tail, rest, more);
      assert [members[0]] + rest == members;
    }
  }

  lemma ReadLast(s: string, member: Member, tail: string)
    requires ReadMember(s) == Some((member, tail)) && tail != "" && tail[0] == '}'
    ensures ReadMembers(s) == Some(([member], tail[1..]))
  {
  }

  lemma ReadNext(s: string, member: Member, tail: string, rest: seq<Member>, more: string)
    requires ReadMember(s) == Some((member, tail)) && tail != "" && tail[0] == ','
    requires ReadMembers(tail[1..]) == Some((rest, more))
    ensures ReadMembers(s) == Some(([member] + rest, more))
  {
  }

  lemma TailStarts(rest: seq<Member>, more: string)
    ensures var tail := Tail(rest, more);
            tail != "" && if rest == [] then tail[0] == '}' && tail[1..] == more
                          else tail[0] == ',' && tail[1..] == PrintMembers(rest) + ['}'] + more
  {
  }

  /** What follows a member whose object has `rest` still to come. */
  function Tail(rest: seq<Member>, more: string): string {
    if rest == [] then ['}'] + more else [','] + (PrintMembers(rest) + ['}'] + more)
  }

  function MemberText(member: Member, tail: string): string {
    Quoted(member.name) + ([':'] + (Print(member.value) + tail))
  }

  lemma PrintedMember(members: seq<Member>, more: string)
    requires members != []
    ensures PrintMembers(members) + ['}'] + more == MemberText(members[0], Tail(members[1..], more))
  {
    var name, value, rest := Quoted(members[0].name), Print(members[0].value), members[1..];
    assert PrintMembers(members) == name + [':'] + value + (if rest == [] then "" else [','] + PrintMembers(rest));
    hide *;
    Rebracket(name, value, if rest == [] then "" else [','] + PrintMembers(rest), more);
    TailText(rest, more);
    MemberTextIs(members[0], Tail(rest, more));
  }

  lemma Rebracket(a: string, b: string, c: string, more: string)
    ensures (a + [':'] + b + c) + ['}'] + more == a + ([':'] + (b + (c + (['}'] + more))))
  {
  }

  lemma TailText(rest: seq<Member>, more: string)
    ensures Tail(rest, more) == (if rest == [] then "" else [','] + PrintMembers(rest)) + (['}'] + more)
  {
    hide PrintMembers;
  }

  lemma MemberTextIs(member: Member, tail: string)
    ensures MemberText(member, tail) == Quoted(member.name) + ([':'] + (Print(member.value) + tail))
  {
  }

  lemma ReadPrintedMember(member: Member, tail: string)
    requires ReadValue(Print(member.value) + tail) == Some((member.value, tail))
    ensures ReadMember(MemberText(member, tail)) == Some((member, tail))
    ensures MemberText(member, tail) != "" && SkipWhite(MemberText(member, tail)) == MemberText(member, tail)
    ensures MemberText(member, tail)[0] == '"'
  {
    hide ReadString, Quoted, ReadValue, Print;
    var afterName := [':'] + (Print(member.value) + tail);
    ReadQuoted(member.name, afterName);
    assert afterName[1..] == Print(member.value) + tail;
  }

  /** Every value is read back from its compact text. */
  lemma PrintThenRead(v: Value)
    ensures ReadText(Print(v)) == Some(v)
  {
    ReadPrinted(v, "");
    assert Print(v) + "" == Print(v);
  }

  // ---- the payloads -----------------------------------------------------------------------------

  /** The pairs of a `std::map`, in the order it keeps them. */
  type Entries = seq<(string, string)>

  function Members(entries: Entries): (members: seq<Member>)
    ensures |members| == |entries|
    ensures forall i :: 0 <= i < |entries| ==> members[i] == Member(entries[i].0, Str(entries[i].1))
  {
    seq(|entries|, i requires 0 <= i < |entries| => Member(entries[i].0, Str(entries[i].1)))
  }

  function StatusValue(agentId: string, event: string, metadata: Entries): Value {
    Object([Member("agent_id", Str(agentId)), Member("event", Str(event)),
            Member("metadata", Object(Members(metadata)))])
  }

  function AuthValue(agentId: string, nonce: string, proof: string, metadata: Entries): Value {
    Object([Member("agent_id", Str(agentId)), Member("nonce", Str(nonce)), Member("proof", Str(proof)),
            Member("metadata", Object(Members(metadata)))])
  }

  /** A name that needs no escaping. */
  predicate Plain(s: string) {
    forall i :: 0 <= i < |s| ==> s[i] >= ' ' && s[i] != '"' && s[i] != '\\'
  }

  lemma {:induction false} EscapePlain(s: string)
    requires Plain(s)
    ensures Escape(s) == s
  {
    if s != "" {
      EscapePlain(s[1..]);
    }
  }

  /** The text of a member whose value is a string. */
  function Pair(name: string, value: string): string {
    Quoted(name) + [':'] + Quoted(value)
  }

  /** The same text as the printers write it. */
  lemma PairText(name: string, value: string)
    ensures ['"'] + Escape(name) + ['"', ':', '"'] + Escape(value) + ['"'] == Pair(name, value)
  {
    hide Escape;
  }

  lemma PrintMembersStep(name: string, value: string, rest: seq<Member>)
    ensures PrintMembers([Member(name, Str(value))] + rest)
            == Pair(name, value) + (if rest == [] then "" else [','] + PrintMembers(rest))
  {
    var members := [Member(name, Str(value))] + rest;
    assert members[1..] == rest;
    assert Print(members[0].value) == Quoted(value);
    hide Quoted;
  }

  /** What the metadata loop still has to write from entry `i` on. */
  function Pending(entries: Entries, i: nat): string
    requires i <= |entries|
  {
    var text := PrintMembers(Members(entries)[i..]);
    if 0 < i < |entries| then [','] + text else text
  }

  lemma PendingEnds(entries: Entries)
    ensures Pending(entries, 0) == PrintMembers(Members(entries))
    ensures Pending(entries, |entries|) == ""
  {
    assert Members(entries)[0..] == Members(entries);
  }

  lemma PendingStep(entries: Entries, i: nat, done: string)
    requires i < |entries|
    ensures
      var start := if i > 0 then done + [','] else done;
      done + Pending(entries, i) == start + Pair(entries[i].0, entries[i].1) + Pending(entries, i + 1)
  {
    var rest := Members(entries)[i + 1..];
    var pair := Pair(entries[i].0, entries[i].1);
    assert Members(entries)[i..] == [Member(entries[i].0, Str(entries[i].1))] + rest;
    PrintMembersStep(entries[i].0, entries[i].1, rest);
    PrintNone();
    hide Pair, PrintMembers, Members;
    assert PrintMembers(Members(entries)[i..]) == pair + Pending(entries, i + 1);
    hide Pending;
    Regroup(done, [','], pair, Pending(entries, i + 1));
  }

  lemma Regroup(a: string, b: string, c: string, d: string)
    ensures a + (b + (c + d)) == a + b + c + d
    ensures a + (c + d) == a + c + d
  {
  }

  lemma PrintNone()
    ensures PrintMembers([]) == ""
  {
  }

  /** The loop both printers share. */
  method WriteMetadata(start: string, metadata: Entries) returns (payload: string)
    ensures payload == start + PrintMembers(Members(metadata))
  {
    hide *;
    payload := start;
    var first := true;
    PendingEnds(metadata);
    for i := 0 to |metadata|
      invariant first == (i == 0)
      invariant payload + Pending(metadata, i) == start + Pending(metadata, 0)
    {
      PendingStep(metadata, i, payload);
      PairText(metadata[i].0, metadata[i].1);
      if !first {
        payload := payload + [','];
      }
      first := false;
      var key := JsonEscape(metadata[i].0);
      var value := JsonEscape(metadata[i].1);
      payload := payload + (['"'] + key + ['"', ':', '"'] + value + ['"']);
    }
  }

  /** A plain name in quotes, a colon, and the character that opens the value. */
  function Opening(name: string, bracket: char): string {
    ['"'] + name + ['"', ':', bracket]
  }

  lemma OpeningIsQuoted(name: string, bracket: char)
    requires Plain(name)
    ensures Opening(name, bracket) == Quoted(name) + [':'] + [bracket]
  {
    EscapePlain(name);
    hide Escape;
  }

  /** One string member as the payload printers write it, the comma after it included. */
  function FieldText(name: string, value: string): string {
    Opening(name, '"') + Escape(value) + ['"', ',']
  }

  lemma FieldTextIsPair(name: string, value: string)
    requires Plain(name)
    ensures FieldText(name, value) == Pair(name, value) + [',']
  {
    EscapePlain(name);
    hide Escape;
  }

  lemma FieldStep(done: string, name: string, value: string, rest: seq<Member>)
    requires Plain(name) && rest != []
    ensures done + PrintMembers([Member(name, Str(value))] + rest)
            == (done + FieldText(name, value)) + PrintMembers(rest)
  {
    hide *;
    PrintMembersStep(name, value, rest);
    FieldTextIsPair(name, value);
    Regroup(done, Pair(name, value), [','], PrintMembers(rest));
    assert PrintMembers([Member(name, Str(value))] + rest) == Pair(name, value) + ([','] + PrintMembers(rest));
  }

  lemma MetadataText(metadata: Entries)
    ensures PrintMembers([Member("metadata", Object(Members(metadata)))])
            == Opening("metadata", '{') + (PrintMembers(Members(metadata)) + ['}'])
  {
    var member := Member("metadata", Object(Members(metadata)));
    assert Plain("metadata");
    OpeningIsQuoted("metadata", '{');
    assert [member][1..] == [];
    assert PrintMembers([member]) == Quoted("metadata") + [':'] + Print(member.value) + "";
    assert Print(member.value) == ['{'] + PrintMembers(Members(metadata)) + ['}'];
    hide *;
    Braces(Quoted("metadata") + [':'], PrintMembers(Members(metadata)));
  }

  lemma Braces(a: string, b: string)
    ensures a + (['{'] + b + ['}']) + "" == a + ['{'] + (b + ['}'])
  {
  }

  lemma MetadataStep(done: string, metadata: Entries)
    ensures done + PrintMembers([Member("metadata", Object(Members(metadata)))]) + ['}']
            == done + Opening("metadata", '{') + PrintMembers(Members(metadata)) + ['}', '}']
  {
    MetadataText(metadata);
    hide *;
    var opening, text := Opening("metadata", '{'), PrintMembers(Members(metadata));
    assert done + (opening + (text + ['}'])) + ['}'] == done + opening + text + ['}', '}'];
  }

  /** One string member, as each printer writes several of them. */
  method WriteField(start: string, name: string, value: string) returns (payload: string)
    ensures payload == start + FieldText(name, value)
  {
    var escaped := JsonEscape(value);
    payload := start + (Opening(name, '"') + escaped + ['"', ',']);
  }

  lemma PlainNames()
    ensures Plain("agent_id") && Plain("event") && Plain("nonce") && Plain("proof")
  {
  }

  lemma StatusMembers(agentId: string, event: string, metadata: Entries)
    ensures
      var rest := [Member("event", Str(event))] + [Member("metadata", Object(Members(metadata)))];
      Print(StatusValue(agentId, event, metadata)) == ['{'] + PrintMembers([Member("agent_id", Str(agentId))] + rest) + ['}']
  {
    var rest := [Member("event", Str(event))] + [Member("metadata", Object(Members(metadata)))];
    assert StatusValue(agentId, event, metadata) == Object([Member("agent_id", Str(agentId))] + rest);
    hide PrintMembers;
  }

  lemma AuthMembers(agentId: string, nonce: string, proof: string, metadata: Entries)
    ensures
      var rest := [Member("proof", Str(proof))] + [Member("metadata", Object(Members(metadata)))];
      Print(AuthValue(agentId, nonce, proof, metadata))
      == ['{'] + PrintMembers([Member("agent_id", Str(agentId))] + ([Member("nonce", Str(nonce))] + rest)) + ['}']
  {
    var rest := [Member("proof", Str(proof))] + [Member("metadata", Object(Members(metadata)))];
    assert AuthValue(agentId, nonce, proof, metadata)
        == Object([Member("agent_id", Str(agentId))] + ([Member("nonce", Str(nonce))] + rest));
    hide PrintMembers;
  }

  lemma StatusText(agentId: string, event: string, metadata: Entries)
    ensures Print(StatusValue(agentId, event, metadata))
            == ['{'] + FieldText("agent_id", agentId) + FieldText("event", event)
               + Opening("metadata", '{') + PrintMembers(Members(metadata)) + ['}', '}']
  {
    var rest := [Member("metadata", Object(Members(metadata)))];
    var rest' := [Member("event", Str(event))] + rest;
    hide *;
    PlainNames();
    StatusMembers(agentId, event, metadata);
    FieldStep(['{'], "agent_id", agentId, rest');
    FieldStep(['{'] + FieldText("agent_id", agentId), "event", event, rest);
    MetadataStep(['{'] + FieldText("agent_id", agentId) + FieldText("event", event), metadata);
  }

  method MakeStatusPayload(agentId: string, event: string, metadata: Entries) returns (payload: string)
    ensures payload == Print(StatusValue(agentId, event, metadata))
  {
    hide *;
    payload := WriteField(['{'], "agent_id", agentId);
    payload := WriteField(payload, "event", event);
    payload := WriteMetadata(payload + Opening("metadata", '{'), metadata);
    payload := payload + ['}', '}'];
    StatusText(agentId, event, metadata);
  }

  lemma AuthText(agentId: string, nonce: string, proof: string, metadata: Entries)
    ensures Print(AuthValue(agentId, nonce, proof, metadata))
            == ['{'] + FieldText("agent_id", agentId) + FieldText("nonce", nonce) + FieldText("proof", proof)
               + Opening("metadata", '{') + PrintMembers(Members(metadata)) + ['}', '}']
  {
    var rest := [Member("metadata", Object(Members(metadata)))];
    var rest' := [Member("proof", Str(proof))] + rest;
    var rest'' := [Member("nonce", Str(nonce))] + rest';
    hide *;
    PlainNames();
    AuthMembers(agentId, nonce, proof, metadata);
    var agentText, nonceText := FieldText("agent_id", agentId), FieldText("nonce", nonce);
    FieldStep(['{'], "agent_id", agentId, rest'');
    FieldStep(['{'] + agentText, "nonce", nonce, rest');
    FieldStep(['{'] + agentText + nonceText, "proof", proof, rest);
    MetadataStep(['{'] + agentText + nonceText + FieldText("proof", proof), metadata);
  }

  method MakeAuthPayload(agentId: string, nonce: string, proof: string, metadata: Entries) returns (payload: string)
    ensures payload == Print(AuthValue(agentId, nonce, proof, metadata))
  {
    hide *;
    payload := WriteField(['{'], "agent_id", agentId);
    payload := WriteField(payload, "nonce", nonce);
    payload := WriteField(payload, "proof", proof);
    payload := WriteMetadata(payload + Opening("metadata", '{'), metadata);
    payload := payload + ['}', '}'];
    AuthText(agentId, nonce, proof, metadata);
  }

  // ---- what a reader makes of them ----------------------------------------------------------------

  /** `entries` lists `m`, each key once, as iterating over a `std::map` does. */
  ghost predicate Lists(entries: Entries, m: map<string, string>) {
    && (forall i, j :: 0 <= i < j < |entries| ==> entries[i].0 != entries[j].0)
    && (forall k :: k in m <==> exists i :: 0 <= i < |entries| && entries[i].0 == k)
    && (forall i :: 0 <= i < |entries| && entries[i].0 in m ==> m[entries[i].0] == entries[i].1)
  }

  /** An object that maps exactly the keys of `m` to exactly its values, naming none twice. */
  ghost predicate Denotes(v: Value, m: map<string, string>) {
    && v.Object?
    && (forall i, j :: 0 <= i < j < |v.members| ==> v.members[i].name != v.members[j].name)
    && (forall k :: k in m <==> exists i :: 0 <= i < |v.members| && v.members[i].name == k)
    && (forall i :: 0 <= i < |v.members| && v.members[i].name in m ==> v.members[i].value == Str(m[v.members[i].name]))
  }

  lemma ListedIsDenoted(entries: Entries, m: map<string, string>)
    requires Lists(entries, m)
    ensures Denotes(Object(Members(entries)), m)
  {
    var members := Members(entries);
    assert forall i :: 0 <= i < |entries| ==> members[i].name == entries[i].0;
  }

  /** A JSON reader gets back the agent, the event and the whole metadata map, and nothing else. */
  lemma StatusReadBack(agentId: string, event: string, metadata: map<string, string>, entries: Entries)
    requires Lists(entries, metadata)
    ensures
      var r := ReadText(Print(StatusValue(agentId, event, entries)));
      && r.Some? && r.value.Object? && |r.value.members| == 3
      && r.value.members[0] == Member("agent_id", Str(agentId))
      && r.value.members[1] == Member("event", Str(event))
      && r.value.members[2].name == "metadata" && Denotes(r.value.members[2].value, metadata)
  {
    PrintThenRead(StatusValue(agentId, event, entries));
    ListedIsDenoted(entries, metadata);
  }

  lemma AuthReadBack(agentId: string, nonce: string, proof: string, metadata: map<string, string>, entries: Entries)
    requires Lists(entries, metadata)
    ensures
      var r := ReadText(Print(AuthValue(agentId, nonce, proof, entries)));
      && r.Some? && r.value.Object? && |r.value.members| == 4
      && r.value.members[0] == Member("agent_id", Str(agentId))
      && r.value.members[1] == Member("nonce", Str(nonce))
      && r.value.members[2] == Member("proof", Str(proof))
      && r.value.members[3].name == "metadata" && Denotes(r.value.members[3].value, metadata)
  {
    PrintThenRead(AuthValue(agentId, nonce, proof, entries));
    ListedIsDenoted(entries, metadata);
  }

  // ---- inside the quotes --------------------------------------------------------------------------

  predicate NoControl(s: string) {
    forall i :: 0 <= i < |s| ==> s[i] >= ' '
  }

  /** No quote in `s` but those a backslash escapes, and no backslash is left without what it escapes. */
  predicate QuotesEscaped(s: string) {
    s == "" ||
    if s[0] == '\\' then |s| >= 2 && QuotesEscaped(s[2..])
    else s[0] != '"' && QuotesEscaped(s[1..])
  }

  lemma {:induction false} EscapeIsClosed(s: string)
    ensures NoControl(Escape(s)) && QuotesEscaped(Escape(s))
  {
    if s != "" {
      EscapeIsClosed(s[1..]);
      UnitIsClosed(s[0], Escape(s[1..]));
    }
  }

  lemma UnitIsClosed(c: char, more: string)
    requires NoControl(more) && QuotesEscaped(more)
    ensures NoControl(EscapeChar(c) + more) && QuotesEscaped(EscapeChar(c) + more)
  {
    var s := EscapeChar(c) + more;
    if c == '"' || c == '\\' || c == '\n' || c == '\r' || c == '\t' {
      assert s[2..] == more;
    } else if c < ' ' {
      ControlIsClosed(c, more);
    } else {
      assert s[1..] == more;
    }
  }

  lemma ControlIsClosed(c: char, more: string)
    requires c < ' ' && NoControl(more) && QuotesEscaped(more)
    ensures var unit := ['\\', 'u', '0', '0', HEX[c as int / 16], HEX[c as int % 16]];
            NoControl(unit + more) && QuotesEscaped(unit + more)
  {
    HexIsPlain(c as int);
    hide *;
    SixAreClosed(HEX[c as int / 16], HEX[c as int % 16], more);
  }

  lemma SixAreClosed(h: char, l: char, more: string)
    requires h >= '0' && l >= '0' && h != '\\' && l != '\\' && NoControl(more) && QuotesEscaped(more)
    ensures var unit := ['\\', 'u', '0', '0', h, l]; NoControl(unit + more) && QuotesEscaped(unit + more)
  {
    var digits := ['0', '0', h, l];
    var unit := ['\\', 'u', '0', '0', h, l];
    assert (unit + more)[2..] == digits + more;
    PlainThenEscaped(digits, more);
    NoControlAppend(unit, more);
  }

  lemma HexIsPlain(n: nat)
    requires n < 0x20
    ensures HEX[n / 16] >= '0' && HEX[n % 16] >= '0' && HEX[n / 16] != '\\' && HEX[n % 16] != '\\'
  {
  }

  lemma NoControlAppend(a: string, b: string)
    requires NoControl(a) && NoControl(b)
    ensures NoControl(a + b)
  {
  }

  lemma {:induction false} PlainThenEscaped(a: string, b: string)
    requires Plain(a) && QuotesEscaped(b)
    ensures QuotesEscaped(a + b)
  {
    if a == "" {
      assert a + b == b;
    } else {
      PlainThenEscaped(a[1..], b);
      assert (a + b)[1..] == a[1..] + b;
    }
  }

  lemma {:induction false} PrintHasNoControl(v: Value)
    ensures NoControl(Print(v))
    decreases v, 0
  {
    match v
    case Str(text) => EscapeIsClosed(text);
    case Object(members) => PrintMembersHasNoControl(members);
  }

  lemma {:induction false} PrintMembersHasNoControl(members: seq<Member>)
    ensures NoControl(PrintMembers(members))
    decreases members, 1
  {
    if members != [] {
      EscapeIsClosed(members[0].name);
      PrintHasNoControl(members[0].value);
      PrintMembersHasNoControl(members[1..]);
    }
  }
}
