/**
 Which targets an agent is given, and what any loaded file makes of an agent's settings
 (webhook_ops/webhooks/agents.py, agent/src/agent/main.cpp).
 */
module EnrollmentLaws {
  import opened Text
  import opened TextLaws
  import opened Endpoints
  import opened ConfigFile
  import opened Enrollment

  // ---- normalized_allowed_targets -----------------------------------------------------------------

  /** White space for Python: what `isspace` takes for it, four separators, and the spaces beyond ASCII. */
  lemma PySpaceCodes(c: char)
    ensures IsSpace(c) ==> PySpace(c)
    ensures c as int < 128 ==> (PySpace(c) <==> 9 <= c as int <= 13 || 28 <= c as int <= 32)
  {
  }

  predicate PySpaces(s: string) {
    forall i :: 0 <= i < |s| ==> PySpace(s[i])
  }

  predicate PyTight(s: string) {
    s != "" && !PySpace(s[0]) && !PySpace(s[|s| - 1])
  }

  lemma {:induction false} StartOf(a: string, t: string)
    requires PySpaces(a) && (t == "" || !PySpace(t[0]))
    ensures PyTrimStart(a + t) == t
  {
    if a == "" {
      assert a + t == t;
    } else {
      StartOf(a[1..], t);
      assert (a + t)[1..] == a[1..] + t;
    }
  }

  lemma {:induction false} EndOf(t: string, b: string)
    requires PySpaces(b) && (t == "" || !PySpace(t[|t| - 1]))
    ensures PyTrimEnd(t + b) == t
  {
    if b == "" {
      assert t + b == t;
    } else {
      var n := |b| - 1;
      EndOf(t, b[..n]);
      assert (t + b)[..|t + b| - 1] == t + b[..n];
    }
  }

  /** `str.strip` takes the white space off both ends and nothing else. */
  lemma StripOf(a: string, t: string, b: string)
    requires PySpaces(a) && PySpaces(b) && PyTight(t)
    ensures PyStrip(a + (t + b)) == t
  {
    StartOf(a, t + b);
    EndOf(t, b);
  }

  lemma StripOfSpaces(a: string)
    requires PySpaces(a)
    ensures PyStrip(a) == ""
  {
    StartOf(a, "");
    assert a + "" == a;
  }

  lemma {:induction false} ListOfTwo(a: seq<string>, b: seq<string>)
    ensures NormalizedList(a + b) == NormalizedList(a) + NormalizedList(b)
  {
    hide PyStrip;
    if a == [] {
      assert a + b == b;
    } else {
      ListOfTwo(a[1..], b);
      assert (a + b)[1..] == a[1..] + b;
      var head := if PyStrip(a[0]) == "" then [] else [PyStrip(a[0])];
      assert NormalizedList(a) == head + NormalizedList(a[1..]);
      assert NormalizedList(a + b) == head + NormalizedList(a[1..] + b);
      hide NormalizedList;
      Associate(head, NormalizedList(a[1..]), NormalizedList(b));
    }
  }

  /** A target is kept, in its place and without outer white space, unless there is nothing else to it; and
      what is no list gives none. */
  lemma TargetKept(before: seq<string>, a: string, t: string, b: string, after: seq<string>)
    requires PySpaces(a) && PySpaces(b) && (t == "" || PyTight(t))
    ensures Normalized(Some(before + [a + (t + b)] + after))
            == Normalized(Some(before)) + (if t == "" then [] else [t]) + Normalized(Some(after))
    ensures Normalized(None) == [] && Normalized(Some([])) == []
  {
    var raw := a + (t + b);
    if t == "" {
      assert raw == a + b;
      StripOfSpaces(raw);
    } else {
      StripOf(a, t, b);
    }
    assert [raw][1..] == [];
    assert NormalizedList([raw]) == if t == "" then [] else [t];
    hide NormalizedList;
    ListOfTwo(before + [raw], after);
    ListOfTwo(before, [raw]);
  }

  // ---- apply_node_config ----------------------------------------------------------------------------

  predicate Yes(value: string) {
    value in {"true", "1", "yes"}
  }

  lemma YesIsTrue(value: string)
    ensures IsTrue(value) <==> Yes(value)
  {
  }

  /** A loaded file is accepted exactly when the tunnel endpoint it names, if any, and all its allow entries
      parse. */
  lemma AcceptedFiles(file: Values, s: Settings)
    ensures Apply(file, s).0 <==>
            && (ConfigGet(file, "tunnel", "") == "" || ParseHostPort(ConfigGet(file, "tunnel", ""), 0).Some?)
            && forall i :: 0 <= i < |ConfigGetAll(file, "allow")| ==> ParseHostPort(ConfigGetAll(file, "allow")[i], 0).Some?
  {
    var tunnel := ConfigGet(file, "tunnel", "");
    var s1 := if tunnel != "" && ParseHostPort(tunnel, 0).Some? then
                s.(host := ParseHostPort(tunnel, 0).value.host, port := ParseHostPort(tunnel, 0).value.port)
              else s;
    AllowedAreParsed(ConfigGetAll(file, "allow"), ApplyIdentity(file, s1).allowlist);
    hide ParseHostPort, ConfigGet, ConfigGetAll, ApplyIdentity, ApplyTls, AddAllowed;
  }

  /** What each setting becomes: the file's value if it gives one and the old one if not; a `secret` goes
      before a `token`, allow entries are added, and any of the three TLS settings turns TLS on. */
  lemma AppliedSettings(file: Values, s: Settings)
    requires Apply(file, s).0
    ensures
      var s' := Apply(file, s).1;
      var tunnel, id := ConfigGet(file, "tunnel", ""), ConfigGet(file, "id", "");
      var secret, token := ConfigGet(file, "secret", ""), ConfigGet(file, "token", "");
      && (tunnel == "" ==> s'.host == s.host && s'.port == s.port)
      && (tunnel != "" ==> ParseHostPort(tunnel, 0) == Some(Endpoint(s'.host, s'.port)))
      && s'.id == (if id != "" then id else s.id)
      && s'.secret == (if secret != "" then secret else if token != "" then token else s.secret)
      && s'.allowlist == s.allowlist + AllowSet(ConfigGetAll(file, "allow"))
      && TlsSettings(file, s, s')
  {
    AcceptedFiles(file, s);
    hide *;
    var s1 := Placed(file, s);
    var s2 := ApplyIdentity(file, s1);
    PlacedIs(file, s);
    IdentityIs(file, s1);
    AllowedAreParsed(ConfigGetAll(file, "allow"), s2.allowlist);
    AppliedInOrder(file, s);
    var s3 := s2.(allowlist := AddAllowed(ConfigGetAll(file, "allow"), s2.allowlist).1);
    TlsApplied(file, s3);
    TlsCarries(file, s, s3, Apply(file, s).1);
  }

  /** With the tunnel endpoint of the file. */
  function Placed(file: Values, s: Settings): Settings {
    var tunnel := ConfigGet(file, "tunnel", "");
    var endpoint := ParseHostPort(tunnel, 0);
    if tunnel != "" && endpoint.Some? then s.(host := endpoint.value.host, port := endpoint.value.port) else s
  }

  lemma PlacedIs(file: Values, s: Settings)
    requires ConfigGet(file, "tunnel", "") == "" || ParseHostPort(ConfigGet(file, "tunnel", ""), 0).Some?
    ensures
      var tunnel, s' := ConfigGet(file, "tunnel", ""), Placed(file, s);
      && (tunnel == "" ==> s' == s) && s' == s.(host := s'.host, port := s'.port)
      && (tunnel != "" ==> ParseHostPort(tunnel, 0) == Some(Endpoint(s'.host, s'.port)))
  {
    hide ConfigGet, ParseHostPort;
  }

  lemma IdentityIs(file: Values, s: Settings)
    ensures
      var id, secret, token := ConfigGet(file, "id", ""), ConfigGet(file, "secret", ""), ConfigGet(file, "token", "");
      ApplyIdentity(file, s) == s.(id := if id != "" then id else s.id,
                                   secret := if secret != "" then secret else if token != "" then token else s.secret)
  {
    hide ConfigGet;
  }

  lemma AppliedInOrder(file: Values, s: Settings)
    requires Apply(file, s).0
    ensures
      var s2 := ApplyIdentity(file, Placed(file, s));
      var allowed := AddAllowed(ConfigGetAll(file, "allow"), s2.allowlist);
      allowed.0 && Apply(file, s).1 == ApplyTls(file, s2.(allowlist := allowed.1))
  {
    hide ConfigGet, ConfigGetAll, ParseHostPort, ApplyIdentity, ApplyTls, AddAllowed;
  }

  lemma TlsCarries(file: Values, s: Settings, s2: Settings, s': Settings)
    requires s2.tls == s.tls && s2.caPath == s.caPath && s2.insecure == s.insecure && TlsSettings(file, s2, s')
    ensures TlsSettings(file, s, s')
  {
    hide ConfigGet, Yes;
  }

  predicate TlsSettings(file: Values, s: Settings, s': Settings) {
    var yes, ca, lax := Yes(ConfigGet(file, "tls", "")), ConfigGet(file, "tls_ca", ""), Yes(ConfigGet(file, "tls_insecure", ""));
    && s'.tls == (s.tls || yes || ca != "" || lax)
    && s'.caPath == (if ca != "" then ca else s.caPath)
    && s'.insecure == (s.insecure || lax)
  }

  lemma TlsApplied(file: Values, s: Settings)
    ensures var s' := ApplyTls(file, s);
            TlsSettings(file, s, s') && s' == s.(tls := s'.tls, caPath := s'.caPath, insecure := s'.insecure)
  {
    YesIsTrue(ConfigGet(file, "tls", ""));
    YesIsTrue(ConfigGet(file, "tls_insecure", ""));
    hide ConfigGet, IsTrue, Yes;
  }
}
