/**
 * The two provider event tables (payment events and transfer events): the
 * webhook intake that stores an event once per provider event id, and the
 * batch of unprocessed events a worker takes, oldest first.
 */
module Events {
  import opened Outcomes
  import opened Selection

  /** The payload fields the handlers read; a field the payload lacks is None. */
  datatype Payload = Payload(
    paymentIntentId: Option<string>, reason: Option<string>, refundProviderFee: Option<bool>,
    transferId: Option<string>, providerRef: Option<string>,
    failureCode: Option<string>, failureReason: Option<string>)

  /** A stored event; its position in its table stands for its row id. */
  datatype Event = Event(providerEventId: string, kind: string, payload: Payload, processed: bool, createdAt: int)

  /** A webhook body: the payload is None when it is missing or not a JSON object. */
  datatype WebhookBody = WebhookBody(providerEventId: Option<string>, kind: Option<string>, payload: Option<Payload>)

  datatype IntakeOutcome = Rejected | DuplicateIgnored | Stored

  predicate KnownEventId(events: seq<Event>, id: string) {
    exists i :: 0 <= i < |events| && events[i].providerEventId == id
  }

  /** `provider_event_id` is unique in the table. */
  predicate UniqueEventIds(events: seq<Event>) {
    forall i, j :: 0 <= i < j < |events| ==> events[i].providerEventId != events[j].providerEventId
  }

  /** A webhook needs an id, a type and a payload; an id already stored is acknowledged and dropped. */
  function Intake(events: seq<Event>, body: WebhookBody, now: int): (r: (seq<Event>, IntakeOutcome))
    ensures r.1 != Stored ==> r.0 == events
  {
    var id := body.providerEventId.GetOr("");
    var kind := body.kind.GetOr("");
    if id == "" || kind == "" || body.payload.None? then (events, Rejected)
    else if KnownEventId(events, id) then (events, DuplicateIgnored)
    else (events + [Event(id, kind, body.payload.value, false, now)], Stored)
  }

  /**
   * An intake stores exactly one new unprocessed event when the body is
   * complete and its id is new, and nothing otherwise; the ids stay unique.
   */
  lemma IntakeSpec(events: seq<Event>, body: WebhookBody, now: int)
    requires UniqueEventIds(events)
    ensures var (evs, outcome) := Intake(events, body, now);
            && UniqueEventIds(evs)
            && (outcome == Stored <==>
                  body.providerEventId.GetOr("") != "" && body.kind.GetOr("") != "" && body.payload.Some?
                  && !KnownEventId(events, body.providerEventId.value))
            && (outcome == Stored ==>
                  evs == events + [Event(body.providerEventId.value, body.kind.value, body.payload.value, false, now)])
  {
    var (evs, outcome) := Intake(events, body, now);
    if outcome == Stored {
      forall i, j | 0 <= i < j < |evs| ensures evs[i].providerEventId != evs[j].providerEventId {
        if j == |events| {
          assert evs[i] == events[i];
        }
      }
    }
  }

  /** Delivering the same webhook twice stores it once: the second delivery is acknowledged as a duplicate. */
  lemma RedeliveryIgnored(events: seq<Event>, body: WebhookBody, now: int, later: int)
    requires Intake(events, body, now).1 == Stored
    ensures var evs := Intake(events, body, now).0;
            Intake(evs, body, later) == (evs, DuplicateIgnored)
  {
    var evs := Intake(events, body, now).0;
    assert evs[|events|].providerEventId == body.providerEventId.value;
  }

  // ----- the worker's batch -----

  const BATCH_LIMIT: nat := 50

  /** The unprocessed events as candidates ordered by `created_at`, positions ascending. */
  function Unprocessed(events: seq<Event>): (cands: seq<Candidate>)
    ensures forall i :: 0 <= i < |cands| ==>
              cands[i].position < |events| && !events[cands[i].position].processed
              && cands[i].stamp == events[cands[i].position].createdAt
    ensures forall i, j :: 0 <= i < j < |cands| ==> cands[i].position < cands[j].position
    ensures Distinct(cands)
    ensures forall p :: 0 <= p < |events| && !events[p].processed ==> Candidate(events[p].createdAt, p) in cands
  {
    if events == [] then []
    else
      var n := |events| - 1;
      var init := Unprocessed(events[..n]);
      assert forall p :: 0 <= p < n ==> events[..n][p] == events[p];
      init + (if events[n].processed then [] else [Candidate(events[n].createdAt, n)])
  }

  /** The positions of the events a worker run takes. */
  function Batch(events: seq<Event>): (b: seq<nat>)
    ensures var picked := Oldest(Unprocessed(events), BATCH_LIMIT);
            |b| == |picked| && forall i :: 0 <= i < |b| ==> b[i] == picked[i].position
  {
    var picked := Oldest(Unprocessed(events), BATCH_LIMIT);
    seq(|picked|, i requires 0 <= i < |picked| => picked[i].position)
  }

  /** Each batch entry is an unprocessed event, named by its candidate. */
  lemma BatchEntry(events: seq<Event>, i: nat)
    requires i < |Batch(events)|
    ensures var b := Batch(events);
            && b[i] < |events| && !events[b[i]].processed
            && Oldest(Unprocessed(events), BATCH_LIMIT)[i] == Candidate(events[b[i]].createdAt, b[i])
  {
    var cands := Unprocessed(events);
    OldestSpec(cands, BATCH_LIMIT);
    var picked := Oldest(cands, BATCH_LIMIT);
    assert picked[i] in picked;
    var k :| 0 <= k < |cands| && cands[k] == picked[i];
  }

  /**
   * A batch holds at most 50 distinct unprocessed events, oldest first (ties
   * in insertion order), and no unprocessed event left out is older than one
   * taken.
   */
  lemma BatchSpec(events: seq<Event>)
    ensures var b := Batch(events);
            && |b| <= BATCH_LIMIT
            && (forall i :: 0 <= i < |b| ==> b[i] < |events| && !events[b[i]].processed)
            && (forall i, j :: 0 <= i < j < |b| ==> b[i] != b[j])
            && (forall i, j :: 0 <= i < j < |b| ==> events[b[i]].createdAt <= events[b[j]].createdAt)
            && (forall i, p :: 0 <= i < |b| && 0 <= p < |events| && !events[p].processed && p !in b ==>
                  events[b[i]].createdAt <= events[p].createdAt)
  {
    var cands := Unprocessed(events);
    OldestSpec(cands, BATCH_LIMIT);
    var picked := Oldest(cands, BATCH_LIMIT);
    var b := Batch(events);
    forall i | 0 <= i < |b|
      ensures b[i] < |events| && !events[b[i]].processed && picked[i] == Candidate(events[b[i]].createdAt, b[i])
    {
      BatchEntry(events, i);
    }
    forall i, j | 0 <= i < j < |b| ensures b[i] != b[j] && events[b[i]].createdAt <= events[b[j]].createdAt {
      assert Before(picked[i], picked[j]);
    }
    forall i, p | 0 <= i < |b| && 0 <= p < |events| && !events[p].processed && p !in b
      ensures events[b[i]].createdAt <= events[p].createdAt
    {
      var y := Candidate(events[p].createdAt, p);
      assert y in cands;
      assert forall k :: 0 <= k < |picked| ==> picked[k] != y;
      assert picked[i] in picked;
      assert Before(picked[i], y);
    }
  }

  /** When at most 50 events are waiting, the batch takes every one of them. */
  lemma BatchTakesAll(events: seq<Event>)
    requires |Unprocessed(events)| <= BATCH_LIMIT
    ensures forall p :: 0 <= p < |events| && !events[p].processed ==> p in Batch(events)
  {
    var cands := Unprocessed(events);
    OldestSpec(cands, BATCH_LIMIT);
    var picked := Oldest(cands, BATCH_LIMIT);
    var b := Batch(events);
    forall p | 0 <= p < |events| && !events[p].processed ensures p in b {
      var y := Candidate(events[p].createdAt, p);
      assert y in cands;
      assert y in multiset(picked);
      var k :| 0 <= k < |picked| && picked[k] == y;
      assert b[k] == p;
    }
  }
}
