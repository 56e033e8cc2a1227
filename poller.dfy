/**
 * The unknown-status poller as a fold over the rows it selected: what one
 * row does to the transfer table, the transfer events and the poll's
 * counters, and what the whole pass does.
 */
module Poller {
  import opened Outcomes
  import opened Ids
  import opened Transfers
  import opened Events

  /** The tables one poll writes, and its three counters. */
  datatype PollState = PollState(
    transfers: map<string, Transfer>, events: seq<Event>, nextId: nat,
    polled: nat, generated: nat, escalated: nat)

  /** The provider's answer for a transfer: the caller's entry for it, `unknown` when there is none. */
  function ResultFor(results: map<string, string>, transferId: string): string {
    if transferId in results then results[transferId] else "unknown"
  }

  /** What the poller decides for a row, the missing submission time being taken as the poll time. */
  function RowAction(t: Transfer, transferId: string, results: map<string, string>, now: int): PollAction {
    PollDecision(now, t.submittedAt.GetOr(now), t.lastPolledAt, ResultFor(results, transferId))
  }

  /** The webhook the poller feeds itself: id `poll_<transfer id>_<suffix>`, the event's type, and only the transfer id. */
  function PollWebhook(transferId: string, k: EventKind, suffix: nat): WebhookBody {
    WebhookBody(Some("poll_" + transferId + "_" + Uuid(suffix)), Some(EventTypeName(k)),
                Some(Payload(None, None, None, Some(transferId), None, None, None)))
  }

  /**
   * One row of the poll: the row is updated as `PolledRow` says; a row that
   * was not throttled counts as polled; a provider answer with an event
   * stores that event (unless its id is taken) and counts it as generated
   * either way; an escalation counts as escalated.
   */
  function PollOne(st: PollState, transferId: string, results: map<string, string>, now: int): (r: PollState)
    requires transferId in st.transfers
    ensures r.transfers.Keys == st.transfers.Keys
    ensures forall id :: id in st.transfers && id != transferId ==> r.transfers[id] == st.transfers[id]
    ensures r.transfers[transferId] == PolledRow(st.transfers[transferId], now, RowAction(st.transfers[transferId], transferId, results, now))
    ensures r.polled <= st.polled + 1
    ensures r.generated - st.generated + r.escalated - st.escalated == r.polled - st.polled
              - (if RowAction(st.transfers[transferId], transferId, results, now) in {Unmapped, StillUnknown} then 1 else 0)
    ensures r.generated >= st.generated && r.escalated >= st.escalated
    ensures r.nextId == st.nextId + (r.generated - st.generated)
    ensures st.events <= r.events
  {
    var t := st.transfers[transferId];
    var action := RowAction(t, transferId, results, now);
    var ts := st.transfers[transferId := PolledRow(t, now, action)];
    match action
    case Throttled => st.(transfers := ts)
    case Enqueued(k) =>
      var stored := Intake(st.events, PollWebhook(transferId, k, st.nextId), now).0;
      st.(transfers := ts, events := stored, nextId := st.nextId + 1, polled := st.polled + 1, generated := st.generated + 1)
    case Escalated => st.(transfers := ts, polled := st.polled + 1, escalated := st.escalated + 1)
    case _ => st.(transfers := ts, polled := st.polled + 1)
  }

  /** `PollOne` field by field. */
  lemma PollOneFields(st: PollState, transferId: string, results: map<string, string>, now: int)
    requires transferId in st.transfers
    ensures var r := PollOne(st, transferId, results, now);
            var t := st.transfers[transferId];
            var a := RowAction(t, transferId, results, now);
      && r.transfers == st.transfers[transferId := PolledRow(t, now, a)]
      && r.events == (if a.Enqueued? then Intake(st.events, PollWebhook(transferId, a.kind, st.nextId), now).0 else st.events)
      && r.nextId == st.nextId + (if a.Enqueued? then 1 else 0)
      && r.polled == st.polled + (if a.Throttled? then 0 else 1)
      && r.generated == st.generated + (if a.Enqueued? then 1 else 0)
      && r.escalated == st.escalated + (if a.Escalated? then 1 else 0)
  {
  }

  /** The whole pass, row by row in the order selected. */
  function PollAll(st: PollState, rows: seq<string>, results: map<string, string>, now: int): (r: PollState)
    requires forall i :: 0 <= i < |rows| ==> rows[i] in st.transfers
    ensures r.transfers.Keys == st.transfers.Keys
    decreases |rows|
  {
    if rows == [] then st
    else
      var before := PollAll(st, rows[..|rows| - 1], results, now);
      PollOne(before, rows[|rows| - 1], results, now)
  }

  /** Polling one more row is one more step of the pass. */
  lemma PollAllStep(st: PollState, rows: seq<string>, i: nat, results: map<string, string>, now: int)
    requires i < |rows|
    requires forall j :: 0 <= j < |rows| ==> rows[j] in st.transfers
    ensures PollAll(st, rows[..i + 1], results, now) == PollOne(PollAll(st, rows[..i], results, now), rows[i], results, now)
  {
    assert rows[..i + 1][..i] == rows[..i];
  }

  /**
   * The counters of a pass: every row is polled at most once, every polled
   * row generates an event, escalates, or neither, and one id suffix is
   * used per generated event; stored events are only ever appended.
   */
  lemma {:induction false} PollAllCounts(st: PollState, rows: seq<string>, results: map<string, string>, now: int)
    requires forall i :: 0 <= i < |rows| ==> rows[i] in st.transfers
    ensures var r := PollAll(st, rows, results, now);
      && st.polled <= r.polled <= st.polled + |rows|
      && st.generated <= r.generated && st.escalated <= r.escalated
      && r.generated - st.generated + r.escalated - st.escalated <= r.polled - st.polled
      && r.nextId == st.nextId + (r.generated - st.generated)
      && st.events <= r.events
    decreases |rows|
  {
    if rows != [] {
      PollAllCounts(st, rows[..|rows| - 1], results, now);
    }
  }

  /** A transfer that is not among the rows is untouched by the pass. */
  lemma {:induction false} PollAllOthers(st: PollState, rows: seq<string>, results: map<string, string>, now: int, id: string)
    requires forall i :: 0 <= i < |rows| ==> rows[i] in st.transfers
    requires id in st.transfers && id !in rows
    ensures PollAll(st, rows, results, now).transfers[id] == st.transfers[id]
    decreases |rows|
  {
    if rows != [] {
      assert id !in rows[..|rows| - 1];
      PollAllOthers(st, rows[..|rows| - 1], results, now, id);
    }
  }

  /**
   * With distinct rows, the transfer of row `i` ends as one poll of its
   * original row makes it.
   */
  lemma {:induction false} PollAllRow(st: PollState, rows: seq<string>, results: map<string, string>, now: int, i: nat)
    requires forall j :: 0 <= j < |rows| ==> rows[j] in st.transfers
    requires forall a, b :: 0 <= a < b < |rows| ==> rows[a] != rows[b]
    requires i < |rows|
    ensures PollAll(st, rows, results, now).transfers[rows[i]]
            == PolledRow(st.transfers[rows[i]], now, RowAction(st.transfers[rows[i]], rows[i], results, now))
    decreases |rows|
  {
    var init := rows[..|rows| - 1];
    var last := rows[|rows| - 1];
    if i == |rows| - 1 {
      assert last !in init by {
        forall j | 0 <= j < |init| ensures init[j] != last { assert init[j] == rows[j]; }
      }
      PollAllOthers(st, init, results, now, last);
    } else {
      assert init[i] == rows[i];
      PollAllRow(st, init, results, now, i);
    }
  }

  /**
   * With distinct rows, every selected transfer ends as one poll of its
   * original row makes it, and every other transfer is untouched.
   */
  lemma PollAllRows(st: PollState, rows: seq<string>, results: map<string, string>, now: int)
    requires forall i :: 0 <= i < |rows| ==> rows[i] in st.transfers
    requires forall i, j :: 0 <= i < j < |rows| ==> rows[i] != rows[j]
    ensures var r := PollAll(st, rows, results, now);
      && (forall i :: 0 <= i < |rows| ==>
            r.transfers[rows[i]] == PolledRow(st.transfers[rows[i]], now, RowAction(st.transfers[rows[i]], rows[i], results, now)))
      && (forall id :: id in st.transfers && id !in rows ==> r.transfers[id] == st.transfers[id])
  {
    forall i | 0 <= i < |rows|
      ensures PollAll(st, rows, results, now).transfers[rows[i]]
              == PolledRow(st.transfers[rows[i]], now, RowAction(st.transfers[rows[i]], rows[i], results, now))
    {
      PollAllRow(st, rows, results, now, i);
    }
    forall id | id in st.transfers && id !in rows
      ensures PollAll(st, rows, results, now).transfers[id] == st.transfers[id]
    {
      PollAllOthers(st, rows, results, now, id);
    }
  }

  /** An escalated row goes to manual review with the timeout failure; a throttled one keeps its status and poll time. */
  lemma PolledRowOutcome(t: Transfer, transferId: string, results: map<string, string>, now: int)
    requires t.status == Unknown
    ensures var action := RowAction(t, transferId, results, now);
            var u := PolledRow(t, now, action);
      && (action == Escalated <==>
            (t.lastPolledAt.None? || now - t.lastPolledAt.value >= TRANSFER_POLL_MIN_INTERVAL_SECONDS)
            && ResultFor(results, transferId) == "unknown"
            && now - t.submittedAt.GetOr(now) >= TRANSFER_UNKNOWN_SLA_SECONDS)
      && (action == Escalated ==> u.status == ManualReview && u.failureCode == Some("UNKNOWN_TIMEOUT"))
      && (action != Escalated ==> u.status == Unknown)
      && (action == Throttled ==> u.lastPolledAt == t.lastPolledAt)
  {
    EscalationCondition(now, t.submittedAt.GetOr(now), t.lastPolledAt, ResultFor(results, transferId));
  }
}
