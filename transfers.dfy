/**
 * Bank transfers out of a user's wallet: their record, the status guards of
 * the five provider events, and the decision the unknown-status poller makes
 * for each transfer it looks at.
 */
module Transfers {
  import opened Outcomes
  import opened Ledger
  import opened Accounts
  import opened Selection

  datatype TransferStatus =
    | WalletHeld | Submitted | Unknown | CreditConfirmed | FailedNoDebit
    | FailedDebited | ReversalInitiated | Reversed | ManualReview

  /** The status as stored in the `transfers` table. */
  function StatusName(s: TransferStatus): string {
    match s
    case WalletHeld => "wallet_held"
    case Submitted => "submitted"
    case Unknown => "unknown"
    case CreditConfirmed => "credit_confirmed"
    case FailedNoDebit => "failed_no_debit"
    case FailedDebited => "failed_debited"
    case ReversalInitiated => "reversal_initiated"
    case Reversed => "reversed"
    case ManualReview => "manual_review"
  }

  /** One row of the `transfers` table. */
  datatype Transfer = Transfer(
    userId: string, amount: int, fee: int, currency: string,
    bankCode: string, bankAccount: string, narration: string,
    status: TransferStatus, providerRef: Option<string>,
    failureCode: Option<string>, failureReason: Option<string>,
    createdAt: int, updatedAt: int, idempotencyKey: string,
    submittedAt: Option<int>, lastPolledAt: Option<int>)
  {
    /** What was moved from the wallet into the transfer's hold account. */
    function TotalHold(): int { amount + fee }
  }

  /**
   * The status update shared by the event handlers: the status and the update
   * time are overwritten, the reference and failure fields only when a new
   * value is given (SQL `COALESCE`).
   */
  function WithStatus(t: Transfer, status: TransferStatus, providerRef: Option<string>,
                      failureCode: Option<string>, failureReason: Option<string>, now: int): (u: Transfer)
    ensures u.status == status && u.updatedAt == now
    ensures u.providerRef == (if providerRef.Some? then providerRef else t.providerRef)
    ensures u.failureCode == (if failureCode.Some? then failureCode else t.failureCode)
    ensures u.failureReason == (if failureReason.Some? then failureReason else t.failureReason)
    ensures u.(status := t.status, updatedAt := t.updatedAt, providerRef := t.providerRef,
               failureCode := t.failureCode, failureReason := t.failureReason) == t
  {
    t.(status := status,
       providerRef := if providerRef.Some? then providerRef else t.providerRef,
       failureCode := if failureCode.Some? then failureCode else t.failureCode,
       failureReason := if failureReason.Some? then failureReason else t.failureReason,
       updatedAt := now)
  }

  /** A status update never erases a reference or failure field that was set. */
  lemma WithStatusKeepsFields(t: Transfer, status: TransferStatus, now: int)
    ensures var u := WithStatus(t, status, None, None, None, now);
            u.providerRef == t.providerRef && u.failureCode == t.failureCode && u.failureReason == t.failureReason
  {
  }

  // ----- provider events and their guards -----

  datatype EventKind = SubmittedEvent | CreditConfirmedEvent | FailedNoDebitEvent | FailedDebitedEvent | ReversedEvent

  /** The `type` of a stored transfer event. */
  function EventTypeName(k: EventKind): string {
    match k
    case SubmittedEvent => "transfer_submitted"
    case CreditConfirmedEvent => "transfer_credit_confirmed"
    case FailedNoDebitEvent => "transfer_failed_no_debit"
    case FailedDebitedEvent => "transfer_failed_debited"
    case ReversedEvent => "transfer_reversed"
  }

  /** The worker's dispatch: a type it does not know runs no handler. */
  function ParseEventType(name: string): (k: Option<EventKind>)
    ensures k.Some? ==> EventTypeName(k.value) == name
  {
    if name == "transfer_submitted" then Some(SubmittedEvent)
    else if name == "transfer_credit_confirmed" then Some(CreditConfirmedEvent)
    else if name == "transfer_failed_no_debit" then Some(FailedNoDebitEvent)
    else if name == "transfer_failed_debited" then Some(FailedDebitedEvent)
    else if name == "transfer_reversed" then Some(ReversedEvent)
    else None
  }

  /** Every event type name is recognised as its own kind. */
  lemma ParseEventTypeName(k: EventKind)
    ensures ParseEventType(EventTypeName(k)) == Some(k)
  {
  }

  /** `transfer_submitted` is ignored once the transfer is beyond submission. */
  predicate SubmittedIgnored(s: TransferStatus) {
    s in {CreditConfirmed, FailedNoDebit, FailedDebited, ReversalInitiated, Reversed}
  }

  /** `transfer_credit_confirmed` is ignored only by a transfer already credit-confirmed. */
  predicate CreditConfirmedIgnored(s: TransferStatus) {
    s == CreditConfirmed
  }

  /** `transfer_failed_no_debit` is ignored only by a transfer already failed without debit, or reversed. */
  predicate FailedNoDebitIgnored(s: TransferStatus) {
    s in {FailedNoDebit, Reversed}
  }

  /** `transfer_failed_debited` is ignored by a transfer already failed with debit, reversing, or reversed. */
  predicate FailedDebitedIgnored(s: TransferStatus) {
    s in {FailedDebited, ReversalInitiated, Reversed}
  }

  /** `transfer_reversed` is ignored only by a transfer already reversed. */
  predicate ReversedIgnored(s: TransferStatus) {
    s == Reversed
  }

  /** `submitTransfer` accepts a transfer only while it is held or unknown. */
  predicate Submittable(s: TransferStatus) {
    s == WalletHeld || s == Unknown
  }

  /** What a handler does with the hold: nothing, pay it out (amount to the bank, fee to revenue), or refund it to the wallet. */
  datatype Movement = NoMovement | PayOut | Refund

  datatype Effect = Ignored | Apply(status: TransferStatus, movement: Movement)

  /** The status table of the five handlers, one guard each. */
  function Transition(k: EventKind, s: TransferStatus): Effect {
    match k
    case SubmittedEvent => if SubmittedIgnored(s) then Ignored else Apply(Submitted, NoMovement)
    case CreditConfirmedEvent => if CreditConfirmedIgnored(s) then Ignored else Apply(CreditConfirmed, PayOut)
    case FailedNoDebitEvent => if FailedNoDebitIgnored(s) then Ignored else Apply(FailedNoDebit, Refund)
    case FailedDebitedEvent => if FailedDebitedIgnored(s) then Ignored else Apply(FailedDebited, NoMovement)
    case ReversedEvent => if ReversedIgnored(s) then Ignored else Apply(Reversed, Refund)
  }

  /** Replaying a history of events from a status: the final status and every movement of the hold, in order. */
  function Replay(s: TransferStatus, kinds: seq<EventKind>): (TransferStatus, seq<Movement>)
    decreases |kinds|
  {
    if kinds == [] then (s, [])
    else
      match Transition(kinds[0], s)
      case Ignored => Replay(s, kinds[1..])
      case Apply(s', m) =>
        var rest := Replay(s', kinds[1..]);
        (rest.0, [m] + rest.1)
  }

  /** How many movements actually draw on the hold. */
  function Draws(moves: seq<Movement>): nat {
    if moves == [] then 0
    else (if moves[0] == NoMovement then 0 else 1) + Draws(moves[1..])
  }

  /** One step of a replay. */
  lemma ReplayStep(s: TransferStatus, k: EventKind, rest: seq<EventKind>)
    ensures var e := Transition(k, s);
            Replay(s, [k] + rest) ==
              if e.Ignored? then Replay(s, rest) else (Replay(e.status, rest).0, [e.movement] + Replay(e.status, rest).1)
  {
    assert ([k] + rest)[0] == k && ([k] + rest)[1..] == rest;
  }

  /** A one-event replay. */
  lemma ReplayOne(s: TransferStatus, k: EventKind)
    ensures var e := Transition(k, s);
            Replay(s, [k]) == if e.Ignored? then (s, []) else (e.status, [e.movement])
  {
    assert [k][0] == k && [k][1..] == [];
    var e := Transition(k, s);
    if e.Apply? {
      assert [e.movement] + [] == [e.movement];
    }
  }

  /** Delivering the same money or failure event twice in a row changes nothing the second time; `transfer_submitted` is applied again. */
  lemma RepeatIgnored(k: EventKind, s: TransferStatus)
    ensures Transition(k, s).Apply? && k != SubmittedEvent ==> Transition(k, Transition(k, s).status) == Ignored
    ensures Transition(SubmittedEvent, Submitted) == Apply(Submitted, NoMovement)
  {
  }

  /** `transfer_submitted` and `transfer_failed_debited` only ever change the status. */
  lemma StatusOnlyEvents(s: TransferStatus)
    ensures Transition(SubmittedEvent, s).Apply? ==> Transition(SubmittedEvent, s).movement == NoMovement
    ensures Transition(FailedDebitedEvent, s).Apply? ==> Transition(FailedDebitedEvent, s).movement == NoMovement
  {
  }

  /** The sequence of the tests: failed with debit keeps the hold, the reversal then refunds it once. */
  lemma FailedDebitedThenReversed()
    ensures Replay(WalletHeld, [FailedDebitedEvent, ReversedEvent]) == (Reversed, [NoMovement, Refund])
    ensures Replay(WalletHeld, [FailedDebitedEvent, ReversedEvent, ReversedEvent]) == (Reversed, [NoMovement, Refund])
  {
    ReplayOne(FailedDebited, ReversedEvent);
    ReplayOne(Reversed, ReversedEvent);
    ReplayStep(WalletHeld, FailedDebitedEvent, [ReversedEvent]);
    ReplayStep(FailedDebited, ReversedEvent, [ReversedEvent]);
    ReplayStep(WalletHeld, FailedDebitedEvent, [ReversedEvent, ReversedEvent]);
    assert [FailedDebitedEvent] + [ReversedEvent] == [FailedDebitedEvent, ReversedEvent];
    assert [NoMovement] + [Refund] == [NoMovement, Refund] && [Refund] + [] == [Refund];
    assert [ReversedEvent] + [ReversedEvent] == [ReversedEvent, ReversedEvent];
    assert [FailedDebitedEvent] + [ReversedEvent, ReversedEvent] == [FailedDebitedEvent, ReversedEvent, ReversedEvent];
  }

  /**
   * The guards let the hold be drawn twice: a refund without debit followed
   * by a credit confirmation or by a reversal, and a payout followed by a
   * reversal.
   */
  lemma DoubleMoves()
    ensures Replay(WalletHeld, [FailedNoDebitEvent, CreditConfirmedEvent]) == (CreditConfirmed, [Refund, PayOut])
    ensures Replay(WalletHeld, [FailedNoDebitEvent, ReversedEvent]) == (Reversed, [Refund, Refund])
    ensures Replay(WalletHeld, [CreditConfirmedEvent, ReversedEvent]) == (Reversed, [PayOut, Refund])
    ensures Replay(Reversed, [CreditConfirmedEvent]) == (CreditConfirmed, [PayOut])
  {
    ReplayOne(FailedNoDebit, CreditConfirmedEvent);
    ReplayOne(FailedNoDebit, ReversedEvent);
    ReplayOne(CreditConfirmed, ReversedEvent);
    ReplayOne(Reversed, CreditConfirmedEvent);
    ReplayStep(WalletHeld, FailedNoDebitEvent, [CreditConfirmedEvent]);
    ReplayStep(WalletHeld, FailedNoDebitEvent, [ReversedEvent]);
    ReplayStep(WalletHeld, CreditConfirmedEvent, [ReversedEvent]);
    assert [FailedNoDebitEvent] + [CreditConfirmedEvent] == [FailedNoDebitEvent, CreditConfirmedEvent];
    assert [Refund] + [PayOut] == [Refund, PayOut] && [Refund] + [Refund] == [Refund, Refund] && [PayOut] + [Refund] == [PayOut, Refund];
    assert [FailedNoDebitEvent] + [ReversedEvent] == [FailedNoDebitEvent, ReversedEvent];
    assert [CreditConfirmedEvent] + [ReversedEvent] == [CreditConfirmedEvent, ReversedEvent];
  }

  /** Alternating credit confirmations and reversals, `n` pairs. */
  function Alternating(n: nat): seq<EventKind> {
    if n == 0 then [] else [CreditConfirmedEvent, ReversedEvent] + Alternating(n - 1)
  }

  /** The guards put no bound on how often a hold is drawn: every event of an alternating history moves it. */
  lemma {:induction false} AlternatingDrawsUnbounded(s: TransferStatus, n: nat)
    requires s != CreditConfirmed
    ensures Replay(s, Alternating(n)).0 == (if n == 0 then s else Reversed)
    ensures Draws(Replay(s, Alternating(n)).1) == 2 * n
    decreases n
  {
    if n > 0 {
      var h := Alternating(n);
      assert h[0] == CreditConfirmedEvent && h[1..][0] == ReversedEvent && h[1..][1..] == Alternating(n - 1);
      AlternatingDrawsUnbounded(Reversed, n - 1);
      var tail := Replay(Reversed, Alternating(n - 1));
      assert Replay(s, h) == (tail.0, [PayOut] + ([Refund] + tail.1));
      assert ([PayOut] + ([Refund] + tail.1))[1..] == [Refund] + tail.1;
      assert ([Refund] + tail.1)[1..] == tail.1;
    }
  }

  /** The refund events alone: without debit, and reversed. */
  predicate RefundKind(k: EventKind) {
    k == FailedNoDebitEvent || k == ReversedEvent
  }

  /**
   * Refund events alone draw on a hold at most twice (once without debit,
   * once reversed), and at most once from a status that already refunded.
   */
  lemma {:induction false} RefundsDrawAtMostTwice(s: TransferStatus, kinds: seq<EventKind>)
    requires forall i :: 0 <= i < |kinds| ==> RefundKind(kinds[i])
    ensures Draws(Replay(s, kinds).1) <= (if s == Reversed then 0 else if s == FailedNoDebit then 1 else 2)
    ensures s == Reversed ==> Replay(s, kinds) == (Reversed, [])
    decreases |kinds|
  {
    if kinds != [] {
      var rest := kinds[1..];
      assert forall i :: 0 <= i < |rest| ==> RefundKind(rest[i]) by {
        forall i | 0 <= i < |rest| ensures RefundKind(rest[i]) {
          assert rest[i] == kinds[i + 1];
        }
      }
      match Transition(kinds[0], s)
      case Ignored =>
        RefundsDrawAtMostTwice(s, rest);
      case Apply(s', m) =>
        RefundsDrawAtMostTwice(s', rest);
        var tail := Replay(s', rest);
        assert ([m] + tail.1)[1..] == tail.1;
    }
  }

  // ----- the unknown-status poller -----

  const TRANSFER_UNKNOWN_SLA_SECONDS: int := 120
  const TRANSFER_POLL_MIN_INTERVAL_SECONDS: int := 15
  const DEFAULT_POLL_LIMIT: nat := 20

  /** The batch size of one poll: the requested limit, or 20 when it is missing or not positive. */
  function PollLimit(requested: Option<int>): (limit: nat)
    ensures limit >= 1
    ensures requested.Some? && requested.value > 0 ==> limit == requested.value
    ensures (requested.None? || requested.value <= 0) ==> limit == DEFAULT_POLL_LIMIT
  {
    var l := requested.GetOr(DEFAULT_POLL_LIMIT);
    if l <= 0 then DEFAULT_POLL_LIMIT else l
  }

  /** The event a provider query result is turned into; `unknown` and anything unrecognised give none. */
  function ResultEvent(result: string): Option<EventKind> {
    if result == "credit_confirmed" then Some(CreditConfirmedEvent)
    else if result == "failed_no_debit" then Some(FailedNoDebitEvent)
    else if result == "failed_debited" then Some(FailedDebitedEvent)
    else if result == "reversed" then Some(ReversedEvent)
    else None
  }

  /** The poller never reports a submission. */
  lemma ResultEventNeverSubmitted(result: string)
    ensures ResultEvent(result) != Some(SubmittedEvent)
    ensures ResultEvent("unknown") == None
  {
  }

  /** What the poller does with one transfer. */
  datatype PollAction =
    | Throttled             // polled less than 15 seconds ago: left alone
    | Enqueued(kind: EventKind)  // the provider answered: a transfer event is stored
    | Unmapped              // the provider answered something with no event
    | Escalated             // still unknown past the 120-second SLA: manual review
    | StillUnknown          // still unknown within the SLA

  function PollDecision(now: int, submittedAt: int, lastPolledAt: Option<int>, result: string): PollAction {
    if lastPolledAt.Some? && now - lastPolledAt.value < TRANSFER_POLL_MIN_INTERVAL_SECONDS then Throttled
    else if result != "unknown" then
      (match ResultEvent(result) case Some(k) => Enqueued(k) case None => Unmapped)
    else if now - submittedAt >= TRANSFER_UNKNOWN_SLA_SECONDS then Escalated
    else StillUnknown
  }

  /** A transfer counts as polled unless it was throttled. */
  predicate Polled(a: PollAction) { !a.Throttled? }

  /**
   * Escalation happens exactly when the transfer was not polled in the last
   * 15 seconds, the provider still answers `unknown`, and 120 seconds have
   * passed since submission; a provider answer always takes precedence.
   */
  lemma EscalationCondition(now: int, submittedAt: int, lastPolledAt: Option<int>, result: string)
    ensures PollDecision(now, submittedAt, lastPolledAt, result) == Escalated
            <==> && (lastPolledAt.None? || now - lastPolledAt.value >= TRANSFER_POLL_MIN_INTERVAL_SECONDS)
                 && result == "unknown"
                 && now - submittedAt >= TRANSFER_UNKNOWN_SLA_SECONDS
    ensures ResultEvent(result).Some? && !PollDecision(now, submittedAt, lastPolledAt, result).Throttled? ==>
              PollDecision(now, submittedAt, lastPolledAt, result) == Enqueued(ResultEvent(result).value)
  {
  }

  /** A transfer polled at `now` is throttled at every later time before `now + 15`, whatever the provider answers. */
  lemma PollThrottles(now: int, later: int, submittedAt: int, result: string)
    requires now <= later < now + TRANSFER_POLL_MIN_INTERVAL_SECONDS
    ensures PollDecision(later, submittedAt, Some(now), result) == Throttled
  {
  }

  /** What one poll writes to the row: a missing submission time, then (unless throttled) the poll time, and for an escalation the status and failure fields. */
  function PolledRow(t: Transfer, now: int, action: PollAction): (u: Transfer)
    ensures u.submittedAt.Some?
    ensures action.Throttled? ==> u == t.(submittedAt := Some(t.submittedAt.GetOr(now)))
    ensures !action.Throttled? ==> u.lastPolledAt == Some(now)
    ensures action.Escalated? ==>
              u.status == ManualReview && u.failureCode == Some("UNKNOWN_TIMEOUT")
              && u.failureReason == Some("exceeded_unknown_sla") && u.updatedAt == now
    ensures !action.Escalated? ==> u.status == t.status && u.updatedAt == t.updatedAt
    ensures u.amount == t.amount && u.fee == t.fee && u.userId == t.userId && u.providerRef == t.providerRef
  {
    var filled := t.(submittedAt := Some(t.submittedAt.GetOr(now)));
    if action.Throttled? then filled
    else
      var polled := filled.(lastPolledAt := Some(now));
      if action.Escalated? then WithStatus(polled, ManualReview, None, Some("UNKNOWN_TIMEOUT"), Some("exceeded_unknown_sla"), now)
      else polled
  }

  // ----- the journals the handlers post -----

  /** A confirmed credit releases the hold: the amount leaves settlement cash and the fee becomes revenue. */
  function PayoutLines(transferId: string, t: Transfer): seq<Line> {
    [Line(AcctTransferHold(transferId), Debit, t.TotalHold()),
     Line(PLATFORM_SETTLEMENT_CASH, Credit, t.amount),
     Line(TRANSFER_FEE_REVENUE, Credit, t.fee)]
  }

  /** A refund returns the whole hold, fee included, to the user's wallet. */
  function RefundLines(transferId: string, t: Transfer): seq<Line> {
    [Line(AcctTransferHold(transferId), Debit, t.TotalHold()),
     Line(AcctUserWallet(t.userId), Credit, t.TotalHold())]
  }

  /** The journal a movement of the transition table posts; none for a status-only event. */
  function MovementLines(m: Movement, transferId: string, t: Transfer): seq<Line> {
    match m
    case NoMovement => []
    case PayOut => PayoutLines(transferId, t)
    case Refund => RefundLines(transferId, t)
  }

  /**
   * The payout journal balances: the hold is debited the amount plus the fee,
   * settlement cash is credited the amount and fee revenue the fee; with a
   * positive amount and fee the ledger accepts it.
   */
  lemma PayoutBalanced(transferId: string, t: Transfer)
    ensures var lines := PayoutLines(transferId, t);
      && LineSum(lines, Some(AcctTransferHold(transferId)), Debit) == t.amount + t.fee
      && LineSum(lines, Some(PLATFORM_SETTLEMENT_CASH), Credit) == t.amount
      && LineSum(lines, Some(TRANSFER_FEE_REVENUE), Credit) == t.fee
      && LineSum(lines, None, Debit) == LineSum(lines, None, Credit) == t.amount + t.fee
      && (t.amount > 0 && t.fee > 0 ==> Postable(lines))
  {
    var lines := PayoutLines(transferId, t);
    var hold := AcctTransferHold(transferId);
    PerEntityNames(transferId);
    FixedNamesNotPerEntity();
    assert PLATFORM_ACCOUNTS[8].0 == PLATFORM_SETTLEMENT_CASH && PLATFORM_ACCOUNTS[9].0 == TRANSFER_FEE_REVENUE;
    assert hold != PLATFORM_SETTLEMENT_CASH && hold != TRANSFER_FEE_REVENUE;
    LineSumOfThree(lines[0], lines[1], lines[2], Some(hold), Debit);
    LineSumOfThree(lines[0], lines[1], lines[2], Some(PLATFORM_SETTLEMENT_CASH), Credit);
    LineSumOfThree(lines[0], lines[1], lines[2], Some(TRANSFER_FEE_REVENUE), Credit);
    LineSumOfThree(lines[0], lines[1], lines[2], None, Debit);
    LineSumOfThree(lines[0], lines[1], lines[2], None, Credit);
  }

  /** The refund journal moves the whole hold from the hold account to the wallet, and is accepted when the hold is positive. */
  lemma RefundBalanced(transferId: string, t: Transfer)
    ensures var lines := RefundLines(transferId, t);
      && (Postable(lines) <==> t.TotalHold() > 0)
      && LineSum(lines, Some(AcctTransferHold(transferId)), Debit) == t.TotalHold()
      && LineSum(lines, Some(AcctUserWallet(t.userId)), Credit) == t.TotalHold()
  {
    TransferLines(AcctTransferHold(transferId), AcctUserWallet(t.userId), t.TotalHold());
  }

  /** Every movement a handler makes for a transfer with a positive amount and fee is accepted by the ledger. */
  lemma MovementPostable(m: Movement, transferId: string, t: Transfer)
    requires m != NoMovement && t.amount > 0 && t.fee > 0
    ensures Postable(MovementLines(m, transferId, t))
  {
    if m == PayOut { PayoutBalanced(transferId, t); } else { RefundBalanced(transferId, t); }
  }

  // ----- which unknown transfers a poll looks at -----

  /** The transfers in status `unknown` as candidates ordered by `updated_at`, positions in insertion order. */
  function UnknownCandidates(ts: map<string, Transfer>, order: seq<string>): (cands: seq<Candidate>)
    requires forall i :: 0 <= i < |order| ==> order[i] in ts
    ensures forall i :: 0 <= i < |cands| ==>
              cands[i].position < |order| && ts[order[cands[i].position]].status == Unknown
              && cands[i].stamp == ts[order[cands[i].position]].updatedAt
    ensures forall i, j :: 0 <= i < j < |cands| ==> cands[i].position < cands[j].position
    ensures Distinct(cands)
    ensures forall p :: 0 <= p < |order| && ts[order[p]].status == Unknown ==> Candidate(ts[order[p]].updatedAt, p) in cands
  {
    if order == [] then []
    else
      var n := |order| - 1;
      var init := UnknownCandidates(ts, order[..n]);
      assert forall p :: 0 <= p < n ==> order[..n][p] == order[p];
      var t := ts[order[n]];
      init + (if t.status == Unknown then [Candidate(t.updatedAt, n)] else [])
  }

  /** The ids a poll with batch size `limit` looks at, in query order. */
  function UnknownRows(ts: map<string, Transfer>, order: seq<string>, limit: nat): (rows: seq<string>)
    requires forall i :: 0 <= i < |order| ==> order[i] in ts
    ensures var picked := Oldest(UnknownCandidates(ts, order), limit);
            |rows| == |picked| && forall i :: 0 <= i < |rows| ==> picked[i].position < |order| && rows[i] == order[picked[i].position]
  {
    var cands := UnknownCandidates(ts, order);
    var picked := Oldest(cands, limit);
    OldestSpec(cands, limit);
    forall i | 0 <= i < |picked| ensures picked[i].position < |order| {
      assert picked[i] in picked;
    }
    seq(|picked|, i requires 0 <= i < |picked| => order[picked[i].position])
  }

  /** Each polled row is a transfer in status `unknown`, named by its candidate. */
  lemma UnknownRowEntry(ts: map<string, Transfer>, order: seq<string>, limit: nat, i: nat)
    requires forall i :: 0 <= i < |order| ==> order[i] in ts
    requires i < |UnknownRows(ts, order, limit)|
    ensures var picked := Oldest(UnknownCandidates(ts, order), limit);
            var p := picked[i].position;
            && p < |order| && ts[order[p]].status == Unknown
            && picked[i] == Candidate(ts[order[p]].updatedAt, p)
  {
    var cands := UnknownCandidates(ts, order);
    OldestSpec(cands, limit);
    var picked := Oldest(cands, limit);
    assert picked[i] in picked;
    var k :| 0 <= k < |cands| && cands[k] == picked[i];
  }

  /**
   * A poll looks at no more than `limit` distinct unknown transfers, least
   * recently updated first, and no unknown transfer left out was updated
   * earlier than one taken.
   */
  lemma UnknownRowsSpec(ts: map<string, Transfer>, order: seq<string>, limit: nat)
    requires forall i :: 0 <= i < |order| ==> order[i] in ts
    requires forall i, j :: 0 <= i < j < |order| ==> order[i] != order[j]
    requires forall id :: id in ts ==> id in order
    ensures var rows := UnknownRows(ts, order, limit);
      && |rows| <= limit
      && (forall i :: 0 <= i < |rows| ==> rows[i] in ts && ts[rows[i]].status == Unknown)
      && (forall i, j :: 0 <= i < j < |rows| ==> rows[i] != rows[j])
      && (forall i, j :: 0 <= i < j < |rows| ==> ts[rows[i]].updatedAt <= ts[rows[j]].updatedAt)
      && (forall i, id :: 0 <= i < |rows| && id in ts && ts[id].status == Unknown && id !in rows ==>
            ts[rows[i]].updatedAt <= ts[id].updatedAt)
  {
    var cands := UnknownCandidates(ts, order);
    OldestSpec(cands, limit);
    var picked := Oldest(cands, limit);
    var rows := UnknownRows(ts, order, limit);
    forall i | 0 <= i < |rows|
      ensures picked[i].position < |order| && ts[order[picked[i].position]].status == Unknown
      ensures picked[i] == Candidate(ts[order[picked[i].position]].updatedAt, picked[i].position)
    {
      UnknownRowEntry(ts, order, limit, i);
    }
    forall i, j | 0 <= i < j < |rows| ensures rows[i] != rows[j] && ts[rows[i]].updatedAt <= ts[rows[j]].updatedAt {
      assert Before(picked[i], picked[j]);
    }
    forall i, id | 0 <= i < |rows| && id in ts && ts[id].status == Unknown && id !in rows
      ensures ts[rows[i]].updatedAt <= ts[id].updatedAt
    {
      UnknownRowLeftOut(ts, order, limit, i, id);
    }
  }

  /** An unknown transfer a poll leaves out was not updated earlier than any row it takes. */
  lemma UnknownRowLeftOut(ts: map<string, Transfer>, order: seq<string>, limit: nat, i: nat, id: string)
    requires forall i :: 0 <= i < |order| ==> order[i] in ts
    requires forall id :: id in ts ==> id in order
    requires i < |UnknownRows(ts, order, limit)|
    requires id in ts && ts[id].status == Unknown && id !in UnknownRows(ts, order, limit)
    ensures ts[UnknownRows(ts, order, limit)[i]].updatedAt <= ts[id].updatedAt
  {
    var cands := UnknownCandidates(ts, order);
    OldestSpec(cands, limit);
    var picked := Oldest(cands, limit);
    var rows := UnknownRows(ts, order, limit);
    UnknownRowEntry(ts, order, limit, i);
    var p :| 0 <= p < |order| && order[p] == id;
    var y := Candidate(ts[id].updatedAt, p);
    assert y in cands;
    forall k | 0 <= k < |picked| ensures picked[k] != y {
      assert rows[k] == order[picked[k].position];
    }
    assert picked[i] in picked;
    assert Before(picked[i], y);
  }
}
