/**
 Which fields of a delivery make its key and its event type, provider by provider, and when two
 deliveries are one event (webhook_ops/webhooks/ingestion.py).
 */
module IngestionLaws {
  import opened Text
  import opened TextLaws
  import opened Ingestion

  // ---- fields as they are sent --------------------------------------------------------------------

  /** The same header name, in any case of its letters. */
  predicate SameName(name: string, other: string) {
    |name| == |other| && forall i :: 0 <= i < |name| ==> SameLetter(name[i], other[i])
  }

  /** The value of the last header of that name, or nothing. */
  function HeaderOf(headers: seq<(string, string)>, name: string): string {
    if headers == [] then ""
    else
      var n := |headers| - 1;
      if SameName(headers[n].0, name) then headers[n].1 else HeaderOf(headers[..n], name)
  }

  /** The text of a payload field that is there and not false. */
  function FieldOf(payload: map<string, string>, name: string): string {
    if name in payload then payload[name] else ""
  }

  lemma {:induction false} HeaderIsLast(headers: seq<(string, string)>, name: string)
    ensures Get(NormalizeHeaders(headers), Lower(name)) == HeaderOf(headers, name)
  {
    if headers != [] {
      var n := |headers| - 1;
      HeaderIsLast(headers[..n], name);
      SameInLower(headers[n].0, name);
    }
  }

  /** For a name spelt in lower case. */
  lemma LowerHeader(headers: seq<(string, string)>, name: string)
    requires forall i :: 0 <= i < |name| ==> !(65 <= name[i] as int <= 90)
    ensures Get(NormalizeHeaders(headers), name) == HeaderOf(headers, name)
  {
    HeaderIsLast(headers, name);
    assert forall i :: 0 <= i < |name| ==> Lower(name)[i] == name[i];
    assert Lower(name) == name;
  }

  /** The first text that is not empty. */
  function FirstGiven(texts: seq<string>): string {
    if texts == [] then "" else if texts[0] != "" then texts[0] else FirstGiven(texts[1..])
  }

  lemma FirstOfOne(a: string)
    ensures FirstGiven([a]) == a
  {
    assert [a][1..] == [];
  }

  lemma FirstOfTwo(a: string, b: string)
    ensures FirstGiven([a, b]) == FirstOf(a, b)
  {
    assert [a, b][1..] == [b];
    FirstOfOne(b);
  }

  lemma FirstOfThree(a: string, b: string, c: string)
    ensures FirstGiven([a, b, c]) == FirstOf(FirstOf(a, b), c)
  {
    assert [a, b, c][1..] == [b, c];
    FirstOfTwo(b, c);
  }

  lemma FirstOfFour(a: string, b: string, c: string, d: string)
    ensures FirstGiven([a, b, c, d]) == FirstOf(FirstOf(FirstOf(a, b), c), d)
  {
    assert [a, b, c, d][1..] == [b, c, d];
    FirstOfThree(b, c, d);
  }

  // ---- provider by provider -----------------------------------------------------------------------

  lemma GitHubFields(r: Request)
    requires r.provider.GitHub?
    ensures Key(r) == FirstGiven([HeaderOf(r.headers, "x-github-delivery"), r.bodyHash])
    ensures NewEvent(r).eventType == HeaderOf(r.headers, "x-github-event")
  {
    LowerHeader(r.headers, "x-github-delivery");
    LowerHeader(r.headers, "x-github-event");
    FirstOfTwo(HeaderOf(r.headers, "x-github-delivery"), r.bodyHash);
    hide HeaderOf, NormalizeHeaders, FirstGiven;
  }

  lemma ShopifyFields(r: Request)
    requires r.provider.Shopify?
    ensures Key(r) == FirstGiven([HeaderOf(r.headers, "x-shopify-webhook-id"), r.bodyHash])
    ensures NewEvent(r).eventType == HeaderOf(r.headers, "x-shopify-topic")
  {
    LowerHeader(r.headers, "x-shopify-webhook-id");
    LowerHeader(r.headers, "x-shopify-topic");
    FirstOfTwo(HeaderOf(r.headers, "x-shopify-webhook-id"), r.bodyHash);
    hide HeaderOf, NormalizeHeaders, FirstGiven;
  }

  lemma StripeFields(r: Request)
    requires r.provider.Stripe?
    ensures Key(r) == FirstGiven([FieldOf(r.payload, "id"), r.bodyHash])
    ensures NewEvent(r).eventType == FieldOf(r.payload, "type")
  {
    FirstOfTwo(FieldOf(r.payload, "id"), r.bodyHash);
    hide NormalizeHeaders, FirstGiven;
  }

  lemma SlackFields(r: Request)
    requires r.provider.Slack?
    ensures Key(r) == FirstGiven([FieldOf(r.payload, "event_id"), FieldOf(r.payload, "trigger_id"), r.bodyHash])
    ensures NewEvent(r).eventType == FieldOf(r.payload, "type")
  {
    FirstOfThree(FieldOf(r.payload, "event_id"), FieldOf(r.payload, "trigger_id"), r.bodyHash);
    hide NormalizeHeaders, FirstGiven;
  }

  lemma GenericFields(r: Request)
    requires r.provider.Generic?
    ensures Key(r) == FirstGiven([HeaderOf(r.headers, "x-webhook-id"), HeaderOf(r.headers, "x-event-id"),
                                  HeaderOf(r.headers, "x-request-id"), r.bodyHash])
    ensures NewEvent(r).eventType == HeaderOf(r.headers, "x-event-type")
  {
    LowerHeader(r.headers, "x-webhook-id");
    LowerHeader(r.headers, "x-event-id");
    LowerHeader(r.headers, "x-request-id");
    LowerHeader(r.headers, "x-event-type");
    FirstOfFour(HeaderOf(r.headers, "x-webhook-id"), HeaderOf(r.headers, "x-event-id"),
                HeaderOf(r.headers, "x-request-id"), r.bodyHash);
    hide HeaderOf, NormalizeHeaders, FirstGiven;
  }

  /** The other columns of a new row: the provider's id is the key unless there was none, and the event
      is queued exactly when its source has an active destination. */
  lemma NewRow(r: Request)
    ensures
      var e := NewEvent(r);
      && e.source == r.source && e.key == Key(r)
      && (e.providerId == "" ==> e.key == r.bodyHash) && (e.providerId != "" ==> e.key == e.providerId)
      && (e.status.Queued? <==> r.activeDestination) && (e.status.Received? <==> !r.activeDestination)
  {
    hide Metadata;
  }

  // ---- when two deliveries are one event ------------------------------------------------------------

  /** Once all calls are done, two of them have returned the same row exactly when they were given the
      same source and the same key. */
  lemma OneEventEach(start: Sys, steps: seq<Step>, t: nat, u: nat)
    requires Init(start) && t < |start.calls| && u < |start.calls|
    requires forall i :: 0 <= i < |start.calls| ==> Run(start, steps).calls[i].Done?
    ensures
      var s := Run(start, steps);
      s.calls[t].event == s.calls[u].event
      <==> start.requests[t].source == start.requests[u].source && Key(start.requests[t]) == Key(start.requests[u])
  {
    var s := Run(start, steps);
    InitInv(start);
    RunKeepsInv(start, |start.db.events|, steps);
    assert CallOk(s.db, s.calls[t], s.requests[t]) && CallOk(s.db, s.calls[u], s.requests[u]);
    OneRow(s.db.events, s.calls[t].event, s.calls[u].event, s.requests[t]);
    hide Key, Run, Audited, Unique;
  }

  /** So two deliveries of one GitHub source with different delivery ids are two events, even with the
      same event type and the same body. */
  lemma TwoDeliveriesTwoEvents(start: Sys, steps: seq<Step>, t: nat, u: nat)
    requires Init(start) && t < |start.calls| && u < |start.calls|
    requires forall i :: 0 <= i < |start.calls| ==> Run(start, steps).calls[i].Done?
    requires start.requests[t].provider.GitHub? && start.requests[u].provider.GitHub?
    requires HeaderOf(start.requests[t].headers, "x-github-delivery") != ""
    requires HeaderOf(start.requests[u].headers, "x-github-delivery") != ""
    requires HeaderOf(start.requests[t].headers, "x-github-delivery") != HeaderOf(start.requests[u].headers, "x-github-delivery")
    ensures Run(start, steps).calls[t].event != Run(start, steps).calls[u].event
  {
    OneEventEach(start, steps, t, u);
    GitHubFields(start.requests[t]);
    GitHubFields(start.requests[u]);
  }
}
