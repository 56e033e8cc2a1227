/**
 * The payment engine: merchants, payment intents, the provider event
 * workers, release and settlement of merchant funds, user wallets and bank
 * transfers, all over one ledger. Every table of the database is a field of
 * the `App` object; the clock is the `now` parameter of each operation.
 */
module App {
  import opened Outcomes
  import opened FeePolicy
  import opened TransferFeePolicy
  import opened Ledger
  import opened Ids
  import opened Accounts
  import opened Payments
  import opened Transfers
  import opened Selection
  import opened Events
  import opened Messages
  import opened Poller

  datatype IntentStatus = Created | Succeeded | Failed

  /** A row of `payment_intents`; `fee_mode` is read by the success handler but never written. */
  datatype Intent = Intent(
    merchantId: string, amount: int, currency: string, status: IntentStatus,
    feeMode: Option<string>, idempotencyKey: string, createdAt: int, updatedAt: int)

  datatype User = User(name: string, createdAt: int)

  datatype Dispute = Dispute(
    paymentIntentId: string, kind: string, amount: int, currency: string,
    status: string, reason: string, createdAt: int, closedAt: Option<int>)

  /** A row of `reversals`, keyed by the payment intent it reverses. */
  datatype Reversal = Reversal(reversalId: string, kind: string, createdAt: int)

  datatype Settlement = Settlement(merchantId: string, amount: int, currency: string, status: string, createdAt: int)

  /** Why an event handler raised: a fee function refused its argument, or the ledger refused a journal. */
  datatype Fault = FeeFault(quoteError: QuoteError) | LedgerFault(postError: PostError)

  const PAYMENT_SUCCEEDED: string := "payment_succeeded"
  const PAYMENT_CHARGEBACK: string := "payment_chargeback"

  const MEMO_COLLECTION: string := "Payment succeeded: cash received and held"
  const MEMO_ALLOCATION: string := "Allocate held funds: merchant payable + fees"
  const MEMO_REVERSAL: string := "Chargeback reversal: undo allocation to merchant/revenue/provider"
  const MEMO_CLAWBACK: string := "Chargeback reversal: provider clawback reduces platform cash"
  const MEMO_RELEASE: string := "Release pending payable to available payable"
  const MEMO_SETTLEMENT: string := "Pay out merchant"
  const MEMO_FUND: string := "Fund user wallet"
  const MEMO_HOLD: string := "Move funds from user wallet into transfer hold"
  const MEMO_PAYOUT: string := "Transfer succeeded: pay out + take fee"
  const MEMO_REFUND_NO_DEBIT: string := "Transfer failed with no debit: refund user from hold"
  const MEMO_REFUND_REVERSED: string := "Reversal confirmed: refund user from hold"

  /** The account table right after start-up: the eleven `ensureAccount` calls leave nine accounts. */
  const STARTUP_ACCOUNTS: map<string, AccountType> := map[
    PLATFORM_CASH := Asset, PROVIDER_CLEARING := Asset, PLATFORM_REVENUE := Revenue,
    PROVIDER_PAYABLE := Liability, VAT_PAYABLE := Liability, CUSTOMER_FUNDS := Liability,
    PLATFORM_SETTLEMENT_CASH := Asset, TRANSFER_FEE_REVENUE := Revenue, PROVIDER_FEE_PAYABLE := Liability]

  /** The tables the payment handlers write. */
  datatype PaymentTables = PaymentTables(
    accounts: map<string, AccountType>, journals: seq<Journal>, postings: seq<Posting>,
    intents: map<string, Intent>, disputes: map<string, Dispute>, reversals: map<string, Reversal>, nextId: nat)

  /** A snapshot of every table. */
  datatype Tables = Tables(
    accounts: map<string, AccountType>, journals: seq<Journal>, postings: seq<Posting>,
    merchants: map<string, string>, users: map<string, User>, intents: map<string, Intent>,
    transfers: map<string, Transfer>, transferOrder: seq<string>,
    idempotency: map<string, IdempotencyRecord>,
    providerEvents: seq<Event>, transferEvents: seq<Event>,
    disputes: map<string, Dispute>, reversals: map<string, Reversal>, settlements: map<string, Settlement>,
    nextId: nat)

  /** Every id the counter will issue from `next` on is still unused by the tables that key rows by issued ids. */
  ghost predicate IdsFresh(next: nat, merchants: map<string, string>, users: map<string, User>, intents: map<string, Intent>,
                     transfers: map<string, Transfer>, disputes: map<string, Dispute>, settlements: map<string, Settlement>)
  {
    forall k: nat {:trigger Uuid(k)} :: k >= next ==>
      Uuid(k) !in merchants && Uuid(k) !in users && Uuid(k) !in intents && Uuid(k) !in transfers
      && Uuid(k) !in disputes && Uuid(k) !in settlements
  }

  /** Every per-entity account is a LIABILITY. */
  predicate AccountsOk(accounts: map<string, AccountType>) {
    forall name {:trigger accounts[name]} :: name in accounts && PerEntityName(name) ==> accounts[name] == Liability
  }

  /** Intents have a positive amount and never a stored fee mode. */
  predicate IntentsOk(intents: map<string, Intent>) {
    forall id :: id in intents ==> intents[id].amount > 0 && intents[id].feeMode.None?
  }

  /** Transfers have a positive amount and the flat fee. */
  predicate TransfersOk(transfers: map<string, Transfer>) {
    forall id :: id in transfers ==> transfers[id].amount > 0 && transfers[id].fee == FLAT_TRANSFER_FEE
  }

  /** `transferOrder` lists every transfer id once, in insertion order. */
  predicate OrderOk(transfers: map<string, Transfer>, order: seq<string>) {
    && (forall i, j :: 0 <= i < j < |order| ==> order[i] != order[j])
    && (forall i :: 0 <= i < |order| ==> order[i] in transfers)
    && (forall id :: id in transfers ==> id in order)
  }

  /** The start-up accounts are exactly the ones the engine's constructor list names, each with the type it is given there. */
  lemma StartupAccountsAgree()
    ensures forall i :: 0 <= i < |PLATFORM_ACCOUNTS| ==>
              PLATFORM_ACCOUNTS[i].0 in STARTUP_ACCOUNTS && STARTUP_ACCOUNTS[PLATFORM_ACCOUNTS[i].0] == PLATFORM_ACCOUNTS[i].1
    ensures forall name :: name in STARTUP_ACCOUNTS ==> exists i :: 0 <= i < |PLATFORM_ACCOUNTS| && PLATFORM_ACCOUNTS[i].0 == name
  {
    forall name | name in STARTUP_ACCOUNTS
      ensures exists i :: 0 <= i < |PLATFORM_ACCOUNTS| && PLATFORM_ACCOUNTS[i].0 == name
    {
      if name == PLATFORM_CASH { assert PLATFORM_ACCOUNTS[0].0 == name; }
      else if name == PROVIDER_CLEARING { assert PLATFORM_ACCOUNTS[1].0 == name; }
      else if name == PLATFORM_REVENUE { assert PLATFORM_ACCOUNTS[2].0 == name; }
      else if name == PROVIDER_PAYABLE { assert PLATFORM_ACCOUNTS[4].0 == name; }
      else if name == VAT_PAYABLE { assert PLATFORM_ACCOUNTS[5].0 == name; }
      else if name == CUSTOMER_FUNDS { assert PLATFORM_ACCOUNTS[6].0 == name; }
      else if name == PLATFORM_SETTLEMENT_CASH { assert PLATFORM_ACCOUNTS[8].0 == name; }
      else if name == TRANSFER_FEE_REVENUE { assert PLATFORM_ACCOUNTS[9].0 == name; }
      else { assert PLATFORM_ACCOUNTS[10].0 == name; }
    }
  }

  /** No start-up account has a per-entity name. */
  lemma StartupAccountsNotPerEntity()
    ensures forall name :: name in STARTUP_ACCOUNTS ==> !PerEntityName(name)
  {
    FixedNamesNotPerEntity();
    StartupAccountsAgree();
  }

  /** The account table after both accounts of a merchant are ensured. */
  function WithMerchantAccounts(accounts: map<string, AccountType>, merchantId: string): map<string, AccountType> {
    Ensured(Ensured(accounts, AcctPending(merchantId), Liability), AcctAvailable(merchantId), Liability)
  }

  /** Ensuring a per-entity account as a LIABILITY keeps the account invariant. */
  lemma EnsureKeepsAccountsOk(accounts: map<string, AccountType>, name: string)
    requires AccountsOk(accounts) && PerEntityName(name)
    ensures AccountsOk(Ensured(accounts, name, Liability))
  {
  }

  /**
   * After a merchant's accounts are ensured both exist as LIABILITY, they are
   * different accounts, and every account that existed keeps its type.
   */
  lemma MerchantAccountsOk(accounts: map<string, AccountType>, merchantId: string)
    requires AccountsOk(accounts)
    ensures var acc := WithMerchantAccounts(accounts, merchantId);
      && AccountsOk(acc)
      && AcctPending(merchantId) in acc && acc[AcctPending(merchantId)] == Liability
      && AcctAvailable(merchantId) in acc && acc[AcctAvailable(merchantId)] == Liability
      && AcctPending(merchantId) != AcctAvailable(merchantId)
      && (forall a :: a in accounts ==> a in acc && acc[a] == accounts[a])
  {
    PerEntityNames(merchantId);
    NamesDistinct(merchantId, merchantId);
    EnsureKeepsAccountsOk(accounts, AcctPending(merchantId));
    EnsureKeepsAccountsOk(Ensured(accounts, AcctPending(merchantId), Liability), AcctAvailable(merchantId));
  }

  /**
   * The reversal journal a chargeback posts for a merchant's payment of
   * `amount`, given the ledger as it stands: the recomputed fees, and the
   * merchant's share taken from pending, then available, then receivable.
   */
  function ChargebackPlan(accounts: map<string, AccountType>, postings: seq<Posting>, merchantId: string,
                          amount: nat, refundProviderFee: bool): seq<Line>
  {
    var fees := ChargebackFeesOf(amount);
    var s := SplitChargeback(fees.merchantNet, BalanceIn(accounts, postings, AcctPending(merchantId)),
                             BalanceIn(accounts, postings, AcctAvailable(merchantId)));
    ReversalLines(merchantId, amount, fees, s, refundProviderFee)
  }

  /**
   * While the merchant's two payable balances are not negative, the reversal
   * journal of a positive amount balances at that amount and the ledger
   * accepts it.
   */
  lemma ChargebackPlanPostable(accounts: map<string, AccountType>, postings: seq<Posting>, merchantId: string,
                               amount: nat, refundProviderFee: bool)
    requires amount > 0
    requires BalanceIn(accounts, postings, AcctPending(merchantId)) >= 0
    requires BalanceIn(accounts, postings, AcctAvailable(merchantId)) >= 0
    ensures var lines := ChargebackPlan(accounts, postings, merchantId, amount, refundProviderFee);
            && Postable(lines)
            && LineSum(lines, None, Debit) == amount && LineSum(lines, None, Credit) == amount
  {
    var fees := ChargebackFeesOf(amount);
    var pending := BalanceIn(accounts, postings, AcctPending(merchantId));
    var available := BalanceIn(accounts, postings, AcctAvailable(merchantId));
    SplitSound(fees.merchantNet, pending, available);
    ReversalBalanced(merchantId, amount, SplitChargeback(fees.merchantNet, pending, available), refundProviderFee);
  }

  /** The success handler raises for this payload: its intent is due to succeed but cannot be quoted, or the merchant's net is zero. */
  predicate SuccessRaises(intents: map<string, Intent>, payload: Payload) {
    var id := payload.paymentIntentId.GetOr("");
    && id != "" && id in intents && intents[id].status != Succeeded
    && var quote := QuotePayment(intents[id].amount, MERCHANT_PAYS);
       !(quote.Ok? && quote.value.merchantNet > 0)
  }

  /** The chargeback handler raises for this payload: its intent is due to be reversed but the ledger refuses the reversal journal. */
  predicate ChargebackRaises(intents: map<string, Intent>, reversals: map<string, Reversal>,
                             accounts: map<string, AccountType>, postings: seq<Posting>, payload: Payload)
    requires IntentsOk(intents)
  {
    var id := payload.paymentIntentId.GetOr("");
    && id != "" && id !in reversals && id in intents && intents[id].status == Succeeded
    && var m := intents[id].merchantId;
       !Postable(ChargebackPlan(WithMerchantAccounts(accounts, m), postings, m, intents[id].amount,
                                payload.refundProviderFee.GetOr(false)))
  }

  /** The payment event types the worker has a handler for. */
  predicate IsPaymentHandled(kind: string) {
    kind == PAYMENT_SUCCEEDED || kind == PAYMENT_CHARGEBACK
  }

  /**
   * `after` is `before` with some of the events at `positions` marked
   * processed and nothing else changed; among those, every event of a type no
   * handler knows is marked.
   */
  predicate MarksWithin(before: seq<Event>, after: seq<Event>, positions: seq<nat>) {
    && |after| == |before|
    && (forall q :: 0 <= q < |before| ==>
          after[q] == before[q] || (q in positions && after[q] == before[q].(processed := true)))
    && (forall q :: 0 <= q < |before| && q in positions && !IsPaymentHandled(before[q].kind) ==> after[q].processed)
  }

  /** Writing a key twice leaves the second value. */
  lemma UpdateTwice<K, V>(m: map<K, V>, k: K, a: V, b: V)
    ensures m[k := a][k := b] == m[k := b]
  {
  }

  /** Positions of a batch are distinct, so the next one has not been visited. */
  lemma NextNotVisited(batch: seq<nat>, i: nat)
    requires i < |batch|
    requires forall a, b :: 0 <= a < b < |batch| ==> batch[a] != batch[b]
    ensures batch[i] !in batch[..i]
  {
  }

  /** The prefix up to `i + 1` is the one up to `i` and the next element, and the full prefix is the sequence. */
  lemma PrefixStep<T>(s: seq<T>, i: nat)
    requires i <= |s|
    ensures i < |s| ==> s[..i + 1] == s[..i] + [s[i]]
    ensures s[..|s|] == s
  {
  }

  /** A worker step on a position not yet visited extends the marks to it. */
  lemma MarkStep(before: seq<Event>, mid: seq<Event>, after: seq<Event>, positions: seq<nat>, p: nat)
    requires MarksWithin(before, mid, positions)
    requires p < |before| && p !in positions
    requires after == mid || after == mid[p := mid[p].(processed := true)]
    requires !IsPaymentHandled(mid[p].kind) ==> after == mid[p := mid[p].(processed := true)]
    ensures MarksWithin(before, after, positions + [p])
  {
  }

  /** The release journal: debit the merchant's pending payable, credit its available payable. */
  function ReleaseLines(merchantId: string, amount: int): seq<Line> {
    [Line(AcctPending(merchantId), Debit, amount), Line(AcctAvailable(merchantId), Credit, amount)]
  }

  /**
   * A release of `amount` lowers the pending balance and raises the available
   * balance by that amount, both being LIABILITY accounts, and no other
   * balance changes.
   */
  lemma ReleaseMoves(accounts: map<string, AccountType>, ps: seq<Posting>, j: nat, merchantId: string, amount: int)
    requires AcctPending(merchantId) in accounts && accounts[AcctPending(merchantId)] == Liability
    requires AcctAvailable(merchantId) in accounts && accounts[AcctAvailable(merchantId)] == Liability
    ensures var after := ps + PostingsOf(j, ReleaseLines(merchantId, amount));
      && BalanceIn(accounts, after, AcctPending(merchantId)) == BalanceIn(accounts, ps, AcctPending(merchantId)) - amount
      && BalanceIn(accounts, after, AcctAvailable(merchantId)) == BalanceIn(accounts, ps, AcctAvailable(merchantId)) + amount
      && forall a :: a != AcctPending(merchantId) && a != AcctAvailable(merchantId) ==>
           BalanceIn(accounts, after, a) == BalanceIn(accounts, ps, a)
  {
    NamesDistinct(merchantId, merchantId);
    MoveBalances(accounts, ps, j, AcctPending(merchantId), AcctAvailable(merchantId), amount);
  }

  /** The settlement journal the engine writes first: two debits and no credit. */
  function SettlementLines(merchantId: string, amount: int): seq<Line> {
    [Line(AcctAvailable(merchantId), Debit, amount), Line(BANK_OUTGOING, Debit, amount)]
  }

  /** The first settlement journal is refused for every positive amount: its debits are twice the amount, its credits zero. */
  lemma SettlementUnbalanced(merchantId: string, amount: int)
    requires amount > 0
    ensures AllPositive(SettlementLines(merchantId, amount))
    ensures LineSum(SettlementLines(merchantId, amount), None, Debit) == 2 * amount
    ensures LineSum(SettlementLines(merchantId, amount), None, Credit) == 0
    ensures !Balanced(SettlementLines(merchantId, amount))
  {
    var lines := SettlementLines(merchantId, amount);
    LineSumOfTwo(lines[0], lines[1], None, Debit);
    LineSumOfTwo(lines[0], lines[1], None, Credit);
  }

  /** The wallet funding journal: debit settlement cash, credit the user's wallet. */
  function FundingLines(userId: string, amount: int): seq<Line> {
    [Line(PLATFORM_SETTLEMENT_CASH, Debit, amount), Line(AcctUserWallet(userId), Credit, amount)]
  }

  /**
   * Funding raises both settlement cash (an ASSET) and the wallet (a
   * LIABILITY) by the amount, and no other balance.
   */
  lemma FundingMoves(accounts: map<string, AccountType>, ps: seq<Posting>, j: nat, userId: string, amount: int)
    requires PLATFORM_SETTLEMENT_CASH in accounts && accounts[PLATFORM_SETTLEMENT_CASH] == Asset
    requires AcctUserWallet(userId) in accounts && accounts[AcctUserWallet(userId)] == Liability
    ensures var after := ps + PostingsOf(j, FundingLines(userId, amount));
      && BalanceIn(accounts, after, PLATFORM_SETTLEMENT_CASH) == BalanceIn(accounts, ps, PLATFORM_SETTLEMENT_CASH) + amount
      && BalanceIn(accounts, after, AcctUserWallet(userId)) == BalanceIn(accounts, ps, AcctUserWallet(userId)) + amount
      && forall a :: a != PLATFORM_SETTLEMENT_CASH && a != AcctUserWallet(userId) ==>
           BalanceIn(accounts, after, a) == BalanceIn(accounts, ps, a)
  {
    PerEntityNames(userId);
    FixedNamesNotPerEntity();
    assert PLATFORM_ACCOUNTS[8].0 == PLATFORM_SETTLEMENT_CASH;
    MoveBalances(accounts, ps, j, PLATFORM_SETTLEMENT_CASH, AcctUserWallet(userId), amount);
  }

  /** The hold journal of a new transfer: debit the user's wallet, credit the transfer's hold account. */
  function HoldLines(userId: string, transferId: string, total: int): seq<Line> {
    [Line(AcctUserWallet(userId), Debit, total), Line(AcctTransferHold(transferId), Credit, total)]
  }

  /**
   * The hold moves `total` from the wallet to the hold account, both
   * LIABILITY accounts, and leaves every other balance as it was.
   */
  lemma HoldMoves(accounts: map<string, AccountType>, ps: seq<Posting>, j: nat, userId: string, transferId: string, total: int)
    requires AcctUserWallet(userId) in accounts && accounts[AcctUserWallet(userId)] == Liability
    requires AcctTransferHold(transferId) in accounts && accounts[AcctTransferHold(transferId)] == Liability
    ensures var after := ps + PostingsOf(j, HoldLines(userId, transferId, total));
      && BalanceIn(accounts, after, AcctUserWallet(userId)) == BalanceIn(accounts, ps, AcctUserWallet(userId)) - total
      && BalanceIn(accounts, after, AcctTransferHold(transferId)) == BalanceIn(accounts, ps, AcctTransferHold(transferId)) + total
      && forall a :: a != AcctUserWallet(userId) && a != AcctTransferHold(transferId) ==>
           BalanceIn(accounts, after, a) == BalanceIn(accounts, ps, a)
  {
    NamesDistinct(userId, transferId);
    MoveBalances(accounts, ps, j, AcctUserWallet(userId), AcctTransferHold(transferId), total);
  }

  /** The memo of the journal a moving transfer handler posts. */
  function HandlerMemo(k: EventKind): string {
    match k
    case CreditConfirmedEvent => MEMO_PAYOUT
    case FailedNoDebitEvent => MEMO_REFUND_NO_DEBIT
    case _ => MEMO_REFUND_REVERSED
  }

  /** The provider reference a handler writes: the payload's, and only for a submission. */
  function RefUpdate(k: EventKind, payload: Payload): Option<string> {
    if k == SubmittedEvent then Some(payload.providerRef.GetOr("")) else None
  }

  /** The failure code a handler writes: the payload's or the handler's default, and only for the two failures. */
  function CodeUpdate(k: EventKind, payload: Payload): Option<string> {
    match k
    case FailedNoDebitEvent => Some(payload.failureCode.GetOr("FAILED"))
    case FailedDebitedEvent => Some(payload.failureCode.GetOr("FAILED_DEBITED"))
    case _ => None
  }

  /** The failure reason a handler writes: the payload's or the handler's default, and only for the two failures. */
  function ReasonUpdate(k: EventKind, payload: Payload): Option<string> {
    match k
    case FailedNoDebitEvent => Some(payload.failureReason.GetOr("failed_no_debit"))
    case FailedDebitedEvent => Some(payload.failureReason.GetOr("failed_but_debited"))
    case _ => None
  }

  /**
   * A transfer handler returns 0 without writing: no transfer id, a
   * submission without a provider reference, an unknown transfer, or a
   * status its guard ignores.
   */
  predicate TransferEventSkipped(transfers: map<string, Transfer>, k: EventKind, payload: Payload) {
    var tid := payload.transferId.GetOr("");
    || tid == ""
    || (k == SubmittedEvent && payload.providerRef.GetOr("") == "")
    || tid !in transfers
    || Transition(k, transfers[tid].status).Ignored?
  }

  /** The journals a handler appends: one for a movement of the hold, none for a status-only event. */
  function HandlerJournals(k: EventKind, m: Movement, transferId: string): seq<Journal> {
    if m == NoMovement then [] else [Journal("transfer", transferId, HandlerMemo(k))]
  }

  /**
   * `after` is `before` with exactly the events at `positions` marked
   * processed.
   */
  predicate AllMarked(before: seq<Event>, after: seq<Event>, positions: seq<nat>) {
    && |after| == |before|
    && (forall q :: 0 <= q < |before| ==>
          after[q] == (if q in positions then before[q].(processed := true) else before[q]))
  }

  /** The positions of a batch are distinct indexes of the event table. */
  lemma BatchPositions(events: seq<Event>)
    ensures forall i :: 0 <= i < |Batch(events)| ==> Batch(events)[i] < |events|
    ensures forall a, b :: 0 <= a < b < |Batch(events)| ==> Batch(events)[a] != Batch(events)[b]
  {
    BatchSpec(events);
  }

  /** Marking one more position extends the marks to it. */
  lemma AllMarkedStep(before: seq<Event>, mid: seq<Event>, positions: seq<nat>, p: nat)
    requires AllMarked(before, mid, positions) && p < |before|
    ensures AllMarked(before, mid[p := mid[p].(processed := true)], positions + [p])
  {
  }

  /** A new transfer row as `createTransfer` writes it, with the request's defaults filled in. */
  function NewTransfer(body: RequestBody, key: string, now: int): (t: Transfer)
    ensures t.fee == FLAT_TRANSFER_FEE && t.status == WalletHeld && t.TotalHold() == t.amount + FLAT_TRANSFER_FEE
  {
    Transfer(body.userId.GetOr(""), body.amount.GetOr(0), FLAT_TRANSFER_FEE, body.currency.GetOr("NGN"),
             body.bankCode.GetOr(""), body.bankAccount.GetOr(""), body.narration.GetOr("Transfer"),
             WalletHeld, None, None, None, now, now, key, None, None)
  }

  /** The provider reference a submission records: `prov_` and the first ten characters of the id. */
  function ProviderRefFor(transferId: string): (ref: string)
    ensures |ref| == 5 + (if |transferId| < 10 then |transferId| else 10)
    ensures ref[..5] == "prov_" && transferId[..|ref| - 5] == ref[5..]
  {
    "prov_" + transferId[..if |transferId| < 10 then |transferId| else 10]
  }

  /** Every selected row is a transfer of the table. */
  lemma UnknownRowsInTable(ts: map<string, Transfer>, order: seq<string>, limit: nat)
    requires OrderOk(ts, order)
    ensures forall i :: 0 <= i < |UnknownRows(ts, order, limit)| ==> UnknownRows(ts, order, limit)[i] in ts
  {
    var rows := UnknownRows(ts, order, limit);
    forall i | 0 <= i < |rows| ensures rows[i] in ts {
      var picked := Oldest(UnknownCandidates(ts, order), limit);
      assert rows[i] == order[picked[i].position];
    }
  }

  /**
   * What reversing the succeeded intent `id` writes, from `before` (whose
   * accounts already hold the merchant's payables) to `after`: the reversal
   * journal planned on the merchant's balances is posted exactly when the
   * ledger accepts it, followed by the clawback journal; a closed dispute and
   * the reversal are recorded under two new ids and the intent is marked
   * failed. The accounts never change.
   */
  predicate ReversalWritten(before: PaymentTables, after: PaymentTables, id: string, reason: string, refundProviderFee: bool,
                            now: int, r: Result<nat, Fault>)
  {
    && id in before.intents && before.intents[id].amount > 0
    && after.accounts == before.accounts
    && var pi := before.intents[id];
       var lines := ChargebackPlan(before.accounts, before.postings, pi.merchantId, pi.amount, refundProviderFee);
       var j := |before.journals|;
       var disputeId := Uuid(before.nextId);
       && (r.Ok? <==> Postable(lines))
       && (r.Err? ==> r.error.LedgerFault?)
       && (r.Ok? ==>
             && r == Ok(1)
             && after.journals == before.journals + [Journal("chargeback", id, MEMO_REVERSAL), Journal("chargeback", id, MEMO_CLAWBACK)]
             && after.postings == before.postings + PostingsOf(j, lines) + PostingsOf(j + 1, ClawbackLines(pi.amount))
             && disputeId !in before.disputes
             && after.disputes == before.disputes[disputeId := Dispute(id, "chargeback", pi.amount, pi.currency, "closed", reason, now, Some(now))]
             && after.reversals == before.reversals[id := Reversal(Uuid(before.nextId + 1), "chargeback", now)]
             && after.intents == before.intents[id := pi.(status := Failed, updatedAt := now)]
             && after.nextId == before.nextId + 2)
  }

  /** `ReversalWritten`, from its conjuncts. */
  lemma ReversalWrittenIntro(before: PaymentTables, after: PaymentTables, id: string, reason: string, refundProviderFee: bool,
                             now: int, r: Result<nat, Fault>)
    requires id in before.intents && before.intents[id].amount > 0
    requires after.accounts == before.accounts
    requires var pi := before.intents[id];
             var lines := ChargebackPlan(before.accounts, before.postings, pi.merchantId, pi.amount, refundProviderFee);
             var j := |before.journals|;
             var disputeId := Uuid(before.nextId);
      && (r.Ok? <==> Postable(lines))
      && (r.Err? ==> r.error.LedgerFault?)
      && (r.Ok? ==>
            && r == Ok(1)
            && after.journals == before.journals + [Journal("chargeback", id, MEMO_REVERSAL), Journal("chargeback", id, MEMO_CLAWBACK)]
            && after.postings == before.postings + PostingsOf(j, lines) + PostingsOf(j + 1, ClawbackLines(pi.amount))
            && disputeId !in before.disputes
            && after.disputes == before.disputes[disputeId := Dispute(id, "chargeback", pi.amount, pi.currency, "closed", reason, now, Some(now))]
            && after.reversals == before.reversals[id := Reversal(Uuid(before.nextId + 1), "chargeback", now)]
            && after.intents == before.intents[id := pi.(status := Failed, updatedAt := now)]
            && after.nextId == before.nextId + 2)
    ensures ReversalWritten(before, after, id, reason, refundProviderFee, now, r)
  {
  }

  /**
   * What the `payment_succeeded` handler writes, from `before` to `after`,
   * with result `r`: a missing or already succeeded intent is skipped and
   * nothing changes; otherwise the merchant's accounts are ensured and the
   * intent is quoted as merchant pays, raising on a fee error or a zero
   * net, and on success the intent is marked succeeded and the collection
   * and allocation journals are posted. Disputes and reversals never change.
   */
  predicate SuccessWritten(before: PaymentTables, after: PaymentTables, payload: Payload, now: int, r: Result<nat, Fault>) {
    var id := payload.paymentIntentId.GetOr("");
    && after.disputes == before.disputes && after.reversals == before.reversals && after.nextId == before.nextId
    && if id == "" || id !in before.intents || before.intents[id].status == Succeeded then
         && r == Ok(0)
         && after.accounts == before.accounts && after.journals == before.journals
         && after.postings == before.postings && after.intents == before.intents
       else
         var pi := before.intents[id];
         var quote := QuotePayment(pi.amount, MERCHANT_PAYS);
         var j := |before.journals|;
         && after.accounts == WithMerchantAccounts(before.accounts, pi.merchantId)
         && (r.Ok? <==> quote.Ok? && quote.value.merchantNet > 0)
         && (quote.Err? ==> r == Err(FeeFault(quote.error)))
         && (quote.Ok? && quote.value.merchantNet == 0 ==> r == Err(LedgerFault(NonPositiveAmount)))
         && (r.Ok? ==>
               && r == Ok(1)
               && after.intents == before.intents[id := pi.(status := Succeeded, updatedAt := now)]
               && after.journals == before.journals + [Journal("payment", id, MEMO_COLLECTION), Journal("payment", id, MEMO_ALLOCATION)]
               && after.postings == before.postings + PostingsOf(j, CollectionLines(quote.value))
                                    + PostingsOf(j + 1, AllocationLines(pi.merchantId, quote.value)))
  }

  /**
   * What the `payment_chargeback` handler writes, from `before` to `after`,
   * with result `r`: a missing, already reversed or unknown intent is skipped
   * and nothing changes; otherwise the merchant's accounts are ensured first,
   * an intent that is not succeeded is then skipped, and a succeeded one is
   * reversed as `ReversalWritten` says.
   */
  predicate ChargebackWritten(before: PaymentTables, after: PaymentTables, payload: Payload, now: int, r: Result<nat, Fault>) {
    var id := payload.paymentIntentId.GetOr("");
    if id == "" || id in before.reversals || id !in before.intents then
      r == Ok(0) && after == before
    else
      var pi := before.intents[id];
      var ensured := before.(accounts := WithMerchantAccounts(before.accounts, pi.merchantId));
      if pi.status != Succeeded then
        r == Ok(0) && after == ensured
      else
        ReversalWritten(ensured, after, id, payload.reason.GetOr("unspecified"), payload.refundProviderFee.GetOr(false), now, r)
  }

  /** The tables the transfer handlers write. */
  datatype TransferTables = TransferTables(journals: seq<Journal>, postings: seq<Posting>, transfers: map<string, Transfer>)

  /**
   * What the transfer handler for `k` writes, from `before` to `after`, with
   * count `count`: a skipped event writes nothing and counts 0; otherwise the
   * movement the transition table names is posted as the handler's journal,
   * the transfer gets the new status with the handler's reference and failure
   * fields, and the event counts 1.
   */
  predicate TransferEventWritten(before: TransferTables, after: TransferTables, k: EventKind, payload: Payload, now: int, count: nat) {
    if TransferEventSkipped(before.transfers, k, payload) then
      count == 0 && after == before
    else
      var tid := payload.transferId.GetOr("");
      var t := before.transfers[tid];
      var effect := Transition(k, t.status);
      && count == 1
      && after.transfers == before.transfers[tid := WithStatus(t, effect.status, RefUpdate(k, payload),
                                                               CodeUpdate(k, payload), ReasonUpdate(k, payload), now)]
      && after.journals == before.journals + HandlerJournals(k, effect.movement, tid)
      && after.postings == before.postings + PostingsOf(|before.journals|, MovementLines(effect.movement, tid, t))
  }

  class App {
    const ledger: Ledger
    var merchants: map<string, string>
    var users: map<string, User>
    var intents: map<string, Intent>
    var transfers: map<string, Transfer>
    var transferOrder: seq<string>
    var idempotency: map<string, IdempotencyRecord>
    var providerEvents: seq<Event>
    var transferEvents: seq<Event>
    var disputes: map<string, Dispute>
    var reversals: map<string, Reversal>
    var settlements: map<string, Settlement>
    var nextId: nat

    function State(): Tables
      reads this, ledger
    {
      Tables(ledger.accounts, ledger.journals, ledger.postings, merchants, users, intents,
             transfers, transferOrder, idempotency, providerEvents, transferEvents,
             disputes, reversals, settlements, nextId)
    }

    function PaymentState(): PaymentTables
      reads this, ledger
    {
      PaymentTables(ledger.accounts, ledger.journals, ledger.postings, intents, disputes, reversals, nextId)
    }

    function TransferState(): TransferTables
      reads this, ledger
    {
      TransferTables(ledger.journals, ledger.postings, transfers)
    }

    /** What every reachable state satisfies. */
    ghost predicate Valid()
      reads this, ledger
    {
      && ledger.Valid()
      && AccountsOk(ledger.accounts)
      && IdsFresh(nextId, merchants, users, intents, transfers, disputes, settlements)
      && IntentsOk(intents)
      && TransfersOk(transfers)
      && OrderOk(transfers, transferOrder)
      && UniqueEventIds(providerEvents) && UniqueEventIds(transferEvents)
    }

    /** Start-up: empty tables and the platform accounts. */
    constructor ()
      ensures Valid() && fresh(ledger)
      ensures State() == Tables(STARTUP_ACCOUNTS, [], [], map[], map[], map[], map[], [], map[], [], [], map[], map[], map[], 0)
    {
      ledger := new Ledger();
      merchants, users, intents := map[], map[], map[];
      transfers, transferOrder, idempotency := map[], [], map[];
      providerEvents, transferEvents := [], [];
      disputes, reversals, settlements := map[], map[], map[];
      nextId := 0;
      new;
      EnsurePlatformAccounts();
      StartupAccountsNotPerEntity();
    }

    /** The eleven `ensureAccount` calls of start-up, in order. */
    method EnsurePlatformAccounts()
      requires ledger.accounts == map[]
      modifies ledger`accounts
      ensures ledger.accounts == STARTUP_ACCOUNTS
    {
      EnsureFeeAccounts();
      EnsureFundAccounts();
      assert ledger.accounts == STARTUP_ACCOUNTS;
    }

    /** The first six calls: the cash, clearing, revenue (twice), provider and VAT accounts. */
    method EnsureFeeAccounts()
      requires ledger.accounts == map[]
      modifies ledger`accounts
      ensures ledger.accounts == map[PLATFORM_CASH := Asset, PROVIDER_CLEARING := Asset, PLATFORM_REVENUE := Revenue,
                                     PROVIDER_PAYABLE := Liability, VAT_PAYABLE := Liability]
    {
      ledger.EnsureAccount(PLATFORM_CASH, Asset);
      ledger.EnsureAccount(PROVIDER_CLEARING, Asset);
      ledger.EnsureAccount(PLATFORM_REVENUE, Revenue);
      assert ledger.accounts == map[PLATFORM_CASH := Asset, PROVIDER_CLEARING := Asset, PLATFORM_REVENUE := Revenue];
      ledger.EnsureAccount(PLATFORM_REVENUE, Revenue);
      ledger.EnsureAccount(PROVIDER_PAYABLE, Liability);
      ledger.EnsureAccount(VAT_PAYABLE, Liability);
    }

    /** The last five calls: customer funds, the cash account again, settlement cash and the transfer accounts. */
    method EnsureFundAccounts()
      requires ledger.accounts == map[PLATFORM_CASH := Asset, PROVIDER_CLEARING := Asset, PLATFORM_REVENUE := Revenue,
                                      PROVIDER_PAYABLE := Liability, VAT_PAYABLE := Liability]
      modifies ledger`accounts
      ensures ledger.accounts == map[PLATFORM_CASH := Asset, PROVIDER_CLEARING := Asset, PLATFORM_REVENUE := Revenue,
                                     PROVIDER_PAYABLE := Liability, VAT_PAYABLE := Liability, CUSTOMER_FUNDS := Liability,
                                     PLATFORM_SETTLEMENT_CASH := Asset, TRANSFER_FEE_REVENUE := Revenue,
                                     PROVIDER_FEE_PAYABLE := Liability]
    {
      ledger.EnsureAccount(CUSTOMER_FUNDS, Liability);
      ledger.EnsureAccount(PLATFORM_CASH, Asset);
      assert ledger.accounts == map[PLATFORM_CASH := Asset, PROVIDER_CLEARING := Asset, PLATFORM_REVENUE := Revenue,
                                    PROVIDER_PAYABLE := Liability, VAT_PAYABLE := Liability, CUSTOMER_FUNDS := Liability];
      ledger.EnsureAccount(PLATFORM_SETTLEMENT_CASH, Asset);
      ledger.EnsureAccount(TRANSFER_FEE_REVENUE, Revenue);
      ledger.EnsureAccount(PROVIDER_FEE_PAYABLE, Liability);
    }

    /** A new id, different from every id any table holds and from every id issued later. */
    method FreshId() returns (id: string)
      requires Valid()
      modifies this`nextId
      ensures Valid()
      ensures id == Uuid(old(nextId)) && nextId == old(nextId) + 1
      ensures id !in merchants && id !in users && id !in intents && id !in transfers
      ensures id !in disputes && id !in settlements
      ensures forall k: nat {:trigger Uuid(k)} :: k >= nextId ==> Uuid(k) != id
    {
      id := Uuid(nextId);
      nextId := nextId + 1;
      forall k: nat | k >= nextId ensures Uuid(k) != id {
        UuidInjective(k, nextId - 1);
      }
    }

    method EnsureMerchantAccounts(merchantId: string)
      requires Valid()
      modifies ledger`accounts
      ensures Valid()
      ensures ledger.accounts == WithMerchantAccounts(old(ledger.accounts), merchantId)
    {
      MerchantAccountsOk(ledger.accounts, merchantId);
      ledger.EnsureAccount(AcctPending(merchantId), Liability);
      ledger.EnsureAccount(AcctAvailable(merchantId), Liability);
    }

    /** A merchant needs a name that is not blank; it gets a new id and its two payable accounts. */
    method CreateMerchant(name: Option<string>) returns (resp: Response)
      requires Valid()
      modifies this`merchants, this`nextId, ledger`accounts
      ensures Valid()
      ensures Blank(name.GetOr("")) ==>
                resp == Error(NAME_REQUIRED)
                && merchants == old(merchants) && nextId == old(nextId) && ledger.accounts == old(ledger.accounts)
      ensures !Blank(name.GetOr("")) ==>
                var id := Uuid(old(nextId));
                && resp == MerchantCreated(id, name.value)
                && id !in old(merchants)
                && merchants == old(merchants)[id := name.value]
                && ledger.accounts == WithMerchantAccounts(old(ledger.accounts), id)
                && nextId == old(nextId) + 1
    {
      var n := name.GetOr("");
      if Blank(n) {
        return Error(NAME_REQUIRED);
      }
      var id := FreshId();
      merchants := merchants[id := n];
      EnsureMerchantAccounts(id);
      resp := MerchantCreated(id, n);
    }

    /**
     * Creates a payment intent once per idempotency key. The fee mode is
     * checked first, even for a replay; a key seen before answers with its
     * stored response when the body is the same and is refused otherwise.
     */
    method CreatePaymentIntent(body: RequestBody, key: string, now: int) returns (resp: Response)
      requires Valid()
      modifies ledger`accounts, this`intents, this`idempotency, this`nextId
      ensures Valid()
      ensures var feeMode := body.feeMode.GetOr(MERCHANT_PAYS);
              var merchantId := body.merchantId.GetOr("");
              var amount := body.amount.GetOr(0);
              var lookup := LookupKey(old(idempotency), key, body);
        if !KnownFeeMode(feeMode) || !lookup.NewKey? || merchantId == "" || amount <= 0 then
          && resp == (if !KnownFeeMode(feeMode) then Error(INVALID_FEE_MODE)
                      else if lookup.Replay? then lookup.response
                      else if lookup.KeyReused? then Error(KEY_REUSED)
                      else Error(MERCHANT_AMOUNT_REQUIRED))
          && ledger.accounts == old(ledger.accounts) && intents == old(intents)
          && idempotency == old(idempotency) && nextId == old(nextId)
        else
          var id := Uuid(old(nextId));
          var currency := body.currency.GetOr("NGN");
          && resp == IntentCreated(id, merchantId, amount, currency, "created")
          && id !in old(intents)
          && ledger.accounts == WithMerchantAccounts(old(ledger.accounts), merchantId)
          && intents == old(intents)[id := Intent(merchantId, amount, currency, Created, None, key, now, now)]
          && idempotency == old(idempotency)[key := IdempotencyRecord(body, resp, now)]
          && nextId == old(nextId) + 1
    {
      var found := LookupKey(idempotency, key, body);
      var feeMode := body.feeMode.GetOr(MERCHANT_PAYS);
      if !KnownFeeMode(feeMode) {
        return Error(INVALID_FEE_MODE);
      }
      if found.Replay? {
        return found.response;
      }
      if found.KeyReused? {
        return Error(KEY_REUSED);
      }
      var merchantId := body.merchantId.GetOr("");
      var amount := body.amount.GetOr(0);
      var currency := body.currency.GetOr("NGN");
      if merchantId == "" || amount <= 0 {
        return Error(MERCHANT_AMOUNT_REQUIRED);
      }
      resp := OpenIntent(body, key, merchantId, amount, currency, now);
    }

    /** The write half of intent creation: accounts, the intent row, then the key row. */
    method OpenIntent(body: RequestBody, key: string, merchantId: string, amount: int, currency: string, now: int)
      returns (resp: Response)
      requires Valid() && amount > 0
      modifies ledger`accounts, this`intents, this`idempotency, this`nextId
      ensures Valid()
      ensures var id := Uuid(old(nextId));
              && resp == IntentCreated(id, merchantId, amount, currency, "created")
              && id !in old(intents)
              && ledger.accounts == WithMerchantAccounts(old(ledger.accounts), merchantId)
              && intents == old(intents)[id := Intent(merchantId, amount, currency, Created, None, key, now, now)]
              && idempotency == old(idempotency)[key := IdempotencyRecord(body, resp, now)]
              && nextId == old(nextId) + 1
    {
      EnsureMerchantAccounts(merchantId);
      var id := FreshId();
      intents := intents[id := Intent(merchantId, amount, currency, Created, None, key, now, now)];
      resp := IntentCreated(id, merchantId, amount, currency, "created");
      idempotency := idempotency[key := IdempotencyRecord(body, resp, now)];
    }

    /** Stores a payment event once per provider event id. */
    method SimulateProviderWebhook(body: WebhookBody, now: int) returns (resp: Response)
      requires Valid()
      modifies this`providerEvents
      ensures Valid()
      ensures var (evs, outcome) := Intake(old(providerEvents), body, now);
              && providerEvents == evs
              && resp == (match outcome
                          case Rejected => Error(EVENT_FIELDS_REQUIRED)
                          case DuplicateIgnored => Accepted(Some(DUPLICATE_EVENT_IGNORED))
                          case Stored => Accepted(None))
    {
      IntakeSpec(providerEvents, body, now);
      var id := body.providerEventId.GetOr("");
      var kind := body.kind.GetOr("");
      if id == "" || kind == "" || body.payload.None? {
        return Error(EVENT_FIELDS_REQUIRED);
      }
      if exists i :: 0 <= i < |providerEvents| && providerEvents[i].providerEventId == id {
        return Accepted(Some(DUPLICATE_EVENT_IGNORED));
      }
      providerEvents := providerEvents + [Event(id, kind, body.payload.value, false, now)];
      resp := Accepted(None);
    }

    /** Stores a transfer event once per provider event id. */
    method SimulateTransferWebhook(body: WebhookBody, now: int) returns (resp: Response)
      requires Valid()
      modifies this`transferEvents
      ensures Valid()
      ensures var (evs, outcome) := Intake(old(transferEvents), body, now);
              && transferEvents == evs
              && resp == (match outcome
                          case Rejected => Error(EVENT_FIELDS_REQUIRED)
                          case DuplicateIgnored => Accepted(Some(DUPLICATE_EVENT_IGNORED))
                          case Stored => Accepted(None))
    {
      IntakeSpec(transferEvents, body, now);
      var id := body.providerEventId.GetOr("");
      var kind := body.kind.GetOr("");
      if id == "" || kind == "" || body.payload.None? {
        return Error(EVENT_FIELDS_REQUIRED);
      }
      if exists i :: 0 <= i < |transferEvents| && transferEvents[i].providerEventId == id {
        return Accepted(Some(DUPLICATE_EVENT_IGNORED));
      }
      transferEvents := transferEvents + [Event(id, kind, body.payload.value, false, now)];
      resp := Accepted(None);
    }

    // ----- the payment event handlers -----

    /**
     * Marks a created (or failed) intent succeeded and posts its two journals:
     * the collection, then the allocation to the merchant and the fees. The fee
     * mode is never stored, so every intent is quoted as merchant pays. An
     * intent that is missing or already succeeded is skipped.
     */
    method ApplyPaymentSucceeded(payload: Payload, now: int) returns (r: Result<nat, Fault>)
      requires Valid()
      modifies ledger`accounts, ledger`journals, ledger`postings, this`intents
      ensures Valid()
      ensures SuccessWritten(old(PaymentState()), PaymentState(), payload, now, r)
    {
      var id := payload.paymentIntentId.GetOr("");
      if id == "" || id !in intents || intents[id].status == Succeeded {
        return Ok(0);
      }
      EnsureMerchantAccounts(intents[id].merchantId);
      r := CompletePayment(id, now);
    }

    /**
     * The success handler past its guards, once the merchant's accounts
     * exist: quote the fees, mark the intent succeeded, post both journals.
     */
    method CompletePayment(id: string, now: int) returns (r: Result<nat, Fault>)
      requires Valid() && id in intents && intents[id].status != Succeeded
      modifies ledger`journals, ledger`postings, this`intents
      ensures Valid()
      ensures var pi := old(intents)[id];
              var quote := QuotePayment(pi.amount, MERCHANT_PAYS);
              var j := |old(ledger.journals)|;
          && (r.Ok? <==> quote.Ok? && quote.value.merchantNet > 0)
          && (quote.Err? ==> r == Err(FeeFault(quote.error)))
          && (quote.Ok? && quote.value.merchantNet == 0 ==> r == Err(LedgerFault(NonPositiveAmount)))
          && (r.Ok? ==>
                && r == Ok(1)
                && intents == old(intents)[id := pi.(status := Succeeded, updatedAt := now)]
                && ledger.journals == old(ledger.journals) + [Journal("payment", id, MEMO_COLLECTION), Journal("payment", id, MEMO_ALLOCATION)]
                && ledger.postings == old(ledger.postings) + PostingsOf(j, CollectionLines(quote.value))
                                      + PostingsOf(j + 1, AllocationLines(pi.merchantId, quote.value)))
    {
      var pi := intents[id];
      var quote := QuotePayment(pi.amount, pi.feeMode.GetOr(MERCHANT_PAYS));
      if quote.Err? {
        return Err(FeeFault(quote.error));
      }
      var q := quote.value;
      SetIntentStatus(id, Succeeded, now);
      MerchantPaysIdentity(pi.amount);
      var posted := PostSuccessJournals(id, pi.merchantId, q);
      if posted.Err? {
        return Err(LedgerFault(posted.error));
      }
      r := Ok(1);
    }

    /** Overwrites the status and update time of an existing intent. */
    method SetIntentStatus(id: string, status: IntentStatus, now: int)
      requires Valid() && id in intents
      modifies this`intents
      ensures Valid()
      ensures intents == old(intents)[id := old(intents)[id].(status := status, updatedAt := now)]
    {
      intents := intents[id := intents[id].(status := status, updatedAt := now)];
    }

    /** The two journals of a successful payment; the second is refused when the merchant's net is zero. */
    method PostSuccessJournals(id: string, merchantId: string, q: Quote) returns (r: Result<nat, PostError>)
      requires Valid() && WellFormed(q) && q.totalCollected > 0
      modifies ledger`journals, ledger`postings
      ensures Valid()
      ensures r.Ok? <==> q.merchantNet > 0
      ensures r.Err? ==> r.error == NonPositiveAmount
      ensures var j := |old(ledger.journals)|;
        r.Ok? ==>
          && ledger.journals == old(ledger.journals) + [Journal("payment", id, MEMO_COLLECTION), Journal("payment", id, MEMO_ALLOCATION)]
          && ledger.postings == old(ledger.postings) + PostingsOf(j, CollectionLines(q)) + PostingsOf(j + 1, AllocationLines(merchantId, q))
    {
      AllocationPostable(merchantId, q);
      AllocationBalanced(merchantId, q);
      var a := ledger.Post("payment", id, MEMO_COLLECTION, CollectionLines(q));
      r := ledger.Post("payment", id, MEMO_ALLOCATION, AllocationLines(merchantId, q));
      if r.Err? {
        assert AllocationLines(merchantId, q)[1].amount == q.merchantNet;
      }
    }

    /**
     * Reverses a succeeded payment once: a payment already reversed, missing,
     * or not succeeded is skipped, although the merchant's accounts are
     * ensured before the status is looked at. A dispute is opened, the
     * allocation and the collection are reversed, the reversal is recorded,
     * the dispute closed and the intent marked failed.
     */
    method ApplyChargeback(payload: Payload, now: int) returns (r: Result<nat, Fault>)
      requires Valid()
      modifies ledger`accounts, ledger`journals, ledger`postings, this`intents, this`disputes, this`reversals, this`nextId
      ensures Valid()
      ensures ChargebackWritten(old(PaymentState()), PaymentState(), payload, now, r)
    {
      var id := payload.paymentIntentId.GetOr("");
      if id == "" || id in reversals || id !in intents {
        return Ok(0);
      }
      r := ChargebackIntent(id, payload.reason.GetOr("unspecified"), payload.refundProviderFee.GetOr(false), now);
    }

    /** The chargeback handler past its guards: the merchant's accounts are ensured, then only a succeeded intent is reversed. */
    method ChargebackIntent(id: string, reason: string, refundProviderFee: bool, now: int) returns (r: Result<nat, Fault>)
      requires Valid() && id in intents && id !in reversals
      modifies ledger`accounts, ledger`journals, ledger`postings, this`intents, this`disputes, this`reversals, this`nextId
      ensures Valid()
      ensures var pi := old(intents)[id];
          && ledger.accounts == WithMerchantAccounts(old(ledger.accounts), pi.merchantId)
          && (pi.status != Succeeded ==>
                && r == Ok(0)
                && ledger.journals == old(ledger.journals) && ledger.postings == old(ledger.postings)
                && intents == old(intents) && disputes == old(disputes) && reversals == old(reversals)
                && nextId == old(nextId))
          && (pi.status == Succeeded ==>
                ReversalWritten(old(PaymentState()).(accounts := ledger.accounts), PaymentState(), id, reason, refundProviderFee, now, r))
    {
      var pi := intents[id];
      ghost var postings0 := ledger.postings;
      EnsureMerchantAccounts(pi.merchantId);
      assert ledger.postings == postings0;
      if pi.status != Succeeded {
        return Ok(0);
      }
      r := ReverseSucceeded(id, reason, refundProviderFee, now);
    }

    /** The write half of a chargeback, for a succeeded intent whose merchant accounts exist. */
    method ReverseSucceeded(id: string, reason: string, refundProviderFee: bool, now: int) returns (r: Result<nat, Fault>)
      requires Valid() && id in intents && intents[id].status == Succeeded
      modifies ledger`journals, ledger`postings, this`intents, this`disputes, this`reversals, this`nextId
      ensures Valid()
      ensures ReversalWritten(old(PaymentState()), PaymentState(), id, reason, refundProviderFee, now, r)
    {
      ghost var before := PaymentState();
      r := ReverseSucceededPayment(id, reason, refundProviderFee, now);
      ReversalWrittenIntro(before, PaymentState(), id, reason, refundProviderFee, now, r);
    }

    /** `ReverseSucceeded`, table by table. */
    method ReverseSucceededPayment(id: string, reason: string, refundProviderFee: bool, now: int) returns (r: Result<nat, Fault>)
      requires Valid() && id in intents && intents[id].status == Succeeded
      modifies ledger`journals, ledger`postings, this`intents, this`disputes, this`reversals, this`nextId
      ensures Valid()
      ensures var pi := old(intents)[id];
              var lines := ChargebackPlan(ledger.accounts, old(ledger.postings), pi.merchantId, pi.amount, refundProviderFee);
              var j := |old(ledger.journals)|;
              var disputeId := Uuid(old(nextId));
              && (r.Ok? <==> Postable(lines))
              && (r.Err? ==> r.error.LedgerFault?)
              && (r.Ok? ==>
                    && r == Ok(1)
                    && ledger.journals == old(ledger.journals) + [Journal("chargeback", id, MEMO_REVERSAL), Journal("chargeback", id, MEMO_CLAWBACK)]
                    && ledger.postings == old(ledger.postings) + PostingsOf(j, lines) + PostingsOf(j + 1, ClawbackLines(pi.amount))
                    && disputeId !in old(disputes)
                    && disputes == old(disputes)[disputeId := Dispute(id, "chargeback", pi.amount, pi.currency, "closed", reason, now, Some(now))]
                    && reversals == old(reversals)[id := Reversal(Uuid(old(nextId) + 1), "chargeback", now)]
                    && intents == old(intents)[id := pi.(status := Failed, updatedAt := now)]
                    && nextId == old(nextId) + 2)
    {
      var pi := intents[id];
      var merchantId, amount := pi.merchantId, pi.amount;
      var lines := ChargebackPlan(ledger.accounts, ledger.postings, merchantId, amount, refundProviderFee);

      ghost var disputes0 := disputes;
      var disputeId := OpenDispute(id, amount, pi.currency, reason, now);
      var posted := PostChargebackJournals(id, lines, amount);
      if posted.Err? {
        return Err(LedgerFault(posted.error));
      }
      CloseChargeback(id, disputeId, now);
      UpdateTwice(disputes0, disputeId, Dispute(id, "chargeback", amount, pi.currency, "opened", reason, now, None),
                  Dispute(id, "chargeback", amount, pi.currency, "closed", reason, now, Some(now)));
      r := Ok(1);
    }

    /** Records an opened chargeback dispute under a new id. */
    method OpenDispute(paymentIntentId: string, amount: int, currency: string, reason: string, now: int) returns (disputeId: string)
      requires Valid()
      modifies this`disputes, this`nextId
      ensures Valid()
      ensures disputeId == Uuid(old(nextId)) && disputeId !in old(disputes) && nextId == old(nextId) + 1
      ensures disputes == old(disputes)[disputeId := Dispute(paymentIntentId, "chargeback", amount, currency, "opened", reason, now, None)]
    {
      disputeId := FreshId();
      disputes := disputes[disputeId := Dispute(paymentIntentId, "chargeback", amount, currency, "opened", reason, now, None)];
    }

    /** After the reversal journals: the reversal row, the dispute closed, the intent failed. */
    method CloseChargeback(id: string, disputeId: string, now: int)
      requires Valid() && id in intents && disputeId in disputes
      modifies this`reversals, this`disputes, this`intents, this`nextId
      ensures Valid()
      ensures reversals == old(reversals)[id := Reversal(Uuid(old(nextId)), "chargeback", now)]
      ensures disputes == old(disputes)[disputeId := old(disputes)[disputeId].(status := "closed", closedAt := Some(now))]
      ensures intents == old(intents)[id := old(intents)[id].(status := Failed, updatedAt := now)]
      ensures nextId == old(nextId) + 1
    {
      var reversalId := FreshId();
      reversals := reversals[id := Reversal(reversalId, "chargeback", now)];
      disputes := disputes[disputeId := disputes[disputeId].(status := "closed", closedAt := Some(now))];
      SetIntentStatus(id, Failed, now);
    }

    /** The two reversal journals of a chargeback; the clawback is posted only once the reversal is accepted. */
    method PostChargebackJournals(id: string, lines: seq<Line>, amount: int) returns (r: Result<nat, PostError>)
      requires Valid() && amount > 0
      modifies ledger`journals, ledger`postings
      ensures Valid()
      ensures r.Ok? <==> Postable(lines)
      ensures var j := |old(ledger.journals)|;
        r.Ok? ==>
          && ledger.journals == old(ledger.journals) + [Journal("chargeback", id, MEMO_REVERSAL), Journal("chargeback", id, MEMO_CLAWBACK)]
          && ledger.postings == old(ledger.postings) + PostingsOf(j, lines) + PostingsOf(j + 1, ClawbackLines(amount))
    {
      TransferLines(CUSTOMER_FUNDS, PLATFORM_CASH, amount);
      r := ledger.Post("chargeback", id, MEMO_REVERSAL, lines);
      if r.Err? {
        return;
      }
      r := ledger.Post("chargeback", id, MEMO_CLAWBACK, ClawbackLines(amount));
    }

    /**
     * One event of the payment worker, as one transaction: the handler for
     * its type runs (an unknown type runs none) and the event is marked
     * processed; when the handler raises, every table is as before and the
     * event stays unprocessed.
     */
    method HandleProviderEvent(p: nat, now: int) returns (count: nat)
      requires Valid() && p < |providerEvents|
      modifies ledger`accounts, ledger`journals, ledger`postings, this`intents, this`disputes, this`reversals, this`nextId
      modifies this`providerEvents
      ensures Valid()
      ensures count <= 1
      ensures var marked := old(providerEvents)[p := old(providerEvents)[p].(processed := true)];
              && (providerEvents == old(providerEvents) || providerEvents == marked)
              && (!IsPaymentHandled(old(providerEvents)[p].kind) ==> providerEvents == marked)
      ensures var e := old(providerEvents)[p];
              var raises := || (e.kind == PAYMENT_SUCCEEDED && SuccessRaises(old(intents), e.payload))
                            || (e.kind == PAYMENT_CHARGEBACK &&
                                ChargebackRaises(old(intents), old(reversals), old(ledger.accounts), old(ledger.postings), e.payload));
        && (raises ==>
              && count == 0 && providerEvents == old(providerEvents)
              && ledger.accounts == old(ledger.accounts) && ledger.journals == old(ledger.journals)
              && ledger.postings == old(ledger.postings) && intents == old(intents)
              && disputes == old(disputes) && reversals == old(reversals) && nextId == old(nextId))
        && (!raises ==> providerEvents == old(providerEvents)[p := e.(processed := true)])
        && (!raises && e.kind == PAYMENT_SUCCEEDED ==>
              SuccessWritten(old(PaymentState()), PaymentState(), e.payload, now, Ok(count)))
        && (!raises && e.kind == PAYMENT_CHARGEBACK ==>
              ChargebackWritten(old(PaymentState()), PaymentState(), e.payload, now, Ok(count)))
        && (e.kind != PAYMENT_SUCCEEDED && e.kind != PAYMENT_CHARGEBACK ==>
              && count == 0
              && ledger.accounts == old(ledger.accounts) && ledger.journals == old(ledger.journals)
              && ledger.postings == old(ledger.postings) && intents == old(intents)
              && disputes == old(disputes) && reversals == old(reversals) && nextId == old(nextId))
    {
      var e := providerEvents[p];
      var accounts0, journals0, postings0 := ledger.accounts, ledger.journals, ledger.postings;
      var intents0, disputes0, reversals0, next0 := intents, disputes, reversals, nextId;
      var r := DispatchProviderEvent(e, now);
      if r.Err? {
        RestorePaymentTables(accounts0, journals0, postings0, intents0, disputes0, reversals0, next0);
        return 0;
      }
      MarkProviderEventProcessed(p);
      count := r.value;
    }

    /** The rollback of a payment worker transaction: the tables its handlers write get their earlier contents back. */
    method RestorePaymentTables(accounts0: map<string, AccountType>, journals0: seq<Journal>, postings0: seq<Posting>,
                                intents0: map<string, Intent>, disputes0: map<string, Dispute>,
                                reversals0: map<string, Reversal>, next0: nat)
      requires Valid()
      requires StoreValid(journals0, postings0) && AccountsOk(accounts0) && IntentsOk(intents0)
      requires IdsFresh(next0, merchants, users, intents0, transfers, disputes0, settlements)
      modifies ledger`accounts, ledger`journals, ledger`postings, this`intents, this`disputes, this`reversals, this`nextId
      ensures Valid()
      ensures ledger.accounts == accounts0 && ledger.journals == journals0 && ledger.postings == postings0
      ensures intents == intents0 && disputes == disputes0 && reversals == reversals0 && nextId == next0
    {
      ledger.accounts, ledger.journals, ledger.postings := accounts0, journals0, postings0;
      intents, disputes, reversals, nextId := intents0, disputes0, reversals0, next0;
    }

    /** Sets the processed flag of one payment event. */
    method MarkProviderEventProcessed(p: nat)
      requires Valid() && p < |providerEvents|
      modifies this`providerEvents
      ensures Valid()
      ensures providerEvents == old(providerEvents)[p := old(providerEvents)[p].(processed := true)]
    {
      providerEvents := providerEvents[p := providerEvents[p].(processed := true)];
    }

    /** Runs the handler of a payment event's type; the result says whether it raised. */
    method DispatchProviderEvent(e: Event, now: int) returns (r: Result<nat, Fault>)
      requires Valid()
      modifies ledger`accounts, ledger`journals, ledger`postings, this`intents, this`disputes, this`reversals, this`nextId
      ensures Valid()
      ensures r.Ok? ==> r.value <= 1
      ensures r.Err? <==> || (e.kind == PAYMENT_SUCCEEDED && SuccessRaises(old(intents), e.payload))
                          || (e.kind == PAYMENT_CHARGEBACK &&
                              ChargebackRaises(old(intents), old(reversals), old(ledger.accounts), old(ledger.postings), e.payload))
      ensures e.kind != PAYMENT_SUCCEEDED && e.kind != PAYMENT_CHARGEBACK ==>
                && r == Ok(0)
                && ledger.accounts == old(ledger.accounts) && ledger.journals == old(ledger.journals)
                && ledger.postings == old(ledger.postings) && intents == old(intents)
                && disputes == old(disputes) && reversals == old(reversals) && nextId == old(nextId)
      ensures e.kind == PAYMENT_SUCCEEDED ==> SuccessWritten(old(PaymentState()), PaymentState(), e.payload, now, r)
      ensures e.kind == PAYMENT_CHARGEBACK ==> ChargebackWritten(old(PaymentState()), PaymentState(), e.payload, now, r)
    {
      r := Ok(0);
      if e.kind == PAYMENT_SUCCEEDED {
        r := ApplyPaymentSucceeded(e.payload, now);
      }
      if e.kind == PAYMENT_CHARGEBACK {
        r := ApplyChargeback(e.payload, now);
      }
    }

    /**
     * The payment worker: takes up to 50 unprocessed events, oldest first, and
     * handles each in its own transaction. Only processed flags of events in
     * that batch change; an event of a type no handler knows is marked
     * processed; the count is the number of handlers that did something.
     */
    method ProcessProviderEvents(now: int) returns (resp: Response)
      requires Valid()
      modifies ledger`accounts, ledger`journals, ledger`postings, this`intents, this`disputes, this`reversals, this`nextId
      modifies this`providerEvents
      ensures Valid()
      ensures resp.Processed? && resp.count <= |Batch(old(providerEvents))|
      ensures MarksWithin(old(providerEvents), providerEvents, Batch(old(providerEvents)))
    {
      var batch := Batch(providerEvents);
      BatchPositions(providerEvents);
      var count: nat := 0;
      for i := 0 to |batch|
        invariant Valid()
        invariant count <= i
        invariant MarksWithin(old(providerEvents), providerEvents, batch[..i])
      {
        NextNotVisited(batch, i);
        var c := ProviderWorkerStep(batch[i], now, old(providerEvents), batch[..i]);
        PrefixStep(batch, i);
        count := count + c;
      }
      PrefixStep(batch, |batch|);
      resp := Processed(count);
    }

    /** One event of the payment worker's batch, seen from the batch: the marks so far extend to its position. */
    method ProviderWorkerStep(p: nat, now: int, ghost start: seq<Event>, ghost visited: seq<nat>) returns (count: nat)
      requires Valid() && p < |providerEvents|
      requires MarksWithin(start, providerEvents, visited) && p !in visited
      modifies ledger`accounts, ledger`journals, ledger`postings, this`intents, this`disputes, this`reversals, this`nextId
      modifies this`providerEvents
      ensures Valid()
      ensures count <= 1
      ensures MarksWithin(start, providerEvents, visited + [p])
    {
      ghost var mid := providerEvents;
      count := HandleProviderEvent(p, now);
      MarkStep(start, mid, providerEvents, visited, p);
    }

    // ----- merchant funds -----

    /**
     * Moves `amount` of a merchant's pending payable to its available
     * payable, when at least that much is pending.
     */
    method Release(merchantId: Option<string>, amount: Option<int>) returns (resp: Response)
      requires Valid()
      modifies ledger`accounts, ledger`journals, ledger`postings, this`nextId
      ensures Valid()
      ensures var m := merchantId.GetOr("");
              var a := amount.GetOr(0);
        if m == "" || a <= 0 then
          && resp == Error(MERCHANT_AMOUNT_REQUIRED)
          && ledger.accounts == old(ledger.accounts) && ledger.journals == old(ledger.journals)
          && ledger.postings == old(ledger.postings) && nextId == old(nextId)
        else
          var accounts := WithMerchantAccounts(old(ledger.accounts), m);
          var pending := BalanceIn(accounts, old(ledger.postings), AcctPending(m));
          && ledger.accounts == accounts
          && (pending < a ==>
                && resp == ErrorWithBalance(INSUFFICIENT_PENDING, pending)
                && ledger.journals == old(ledger.journals) && ledger.postings == old(ledger.postings) && nextId == old(nextId))
          && (pending >= a ==>
                var refId := Uuid(old(nextId));
                && resp == Released(refId)
                && nextId == old(nextId) + 1
                && ledger.journals == old(ledger.journals) + [Journal("release", refId, MEMO_RELEASE)]
                && ledger.postings == old(ledger.postings) + PostingsOf(|old(ledger.journals)|, ReleaseLines(m, a)))
    {
      var m := merchantId.GetOr("");
      var a := amount.GetOr(0);
      if m == "" || a <= 0 {
        return Error(MERCHANT_AMOUNT_REQUIRED);
      }
      EnsureMerchantAccounts(m);
      var pending := ledger.Balance(AcctPending(m));
      if pending < a {
        return ErrorWithBalance(INSUFFICIENT_PENDING, pending);
      }
      var refId := FreshId();
      TransferLines(AcctPending(m), AcctAvailable(m), a);
      var posted := ledger.Post("release", refId, MEMO_RELEASE, ReleaseLines(m, a));
      resp := Released(refId);
    }

    /**
     * Pays a merchant's available payable out. After the balance check a
     * settlement row is created and `bank_outgoing` ensured, but the first
     * journal has two debits and no credit, so the ledger raises and the
     * settlement is left `created` with nothing posted.
     */
    method Settle(merchantId: Option<string>, amount: Option<int>, currency: Option<string>, now: int)
      returns (r: Result<Response, Fault>)
      requires Valid()
      modifies ledger`accounts, ledger`journals, ledger`postings, this`settlements, this`nextId
      ensures Valid()
      ensures ledger.journals == old(ledger.journals) && ledger.postings == old(ledger.postings)
      ensures var m := merchantId.GetOr("");
              var a := amount.GetOr(0);
        if m == "" || a <= 0 then
          && r == Ok(Error(MERCHANT_AMOUNT_REQUIRED))
          && ledger.accounts == old(ledger.accounts) && settlements == old(settlements) && nextId == old(nextId)
        else
          var accounts := WithMerchantAccounts(old(ledger.accounts), m);
          var available := BalanceIn(accounts, old(ledger.postings), AcctAvailable(m));
          && (available < a ==>
                && r == Ok(ErrorWithBalance(INSUFFICIENT_AVAILABLE, available))
                && ledger.accounts == accounts && settlements == old(settlements) && nextId == old(nextId))
          && (available >= a ==>
                var sid := Uuid(old(nextId));
                && r == Err(LedgerFault(UnbalancedJournal))
                && ledger.accounts == Ensured(accounts, BANK_OUTGOING, Asset)
                && sid !in old(settlements)
                && settlements == old(settlements)[sid := Settlement(m, a, currency.GetOr("NGN"), "created", now)]
                && nextId == old(nextId) + 1)
    {
      var m := merchantId.GetOr("");
      var a := amount.GetOr(0);
      var cur := currency.GetOr("NGN");
      if m == "" || a <= 0 {
        return Ok(Error(MERCHANT_AMOUNT_REQUIRED));
      }
      EnsureMerchantAccounts(m);
      var available := ledger.Balance(AcctAvailable(m));
      if available < a {
        return Ok(ErrorWithBalance(INSUFFICIENT_AVAILABLE, available));
      }
      var sid := CreateSettlement(m, a, cur, now);
      FixedNamesNotPerEntity();
      ledger.EnsureAccount(BANK_OUTGOING, Asset);
      SettlementUnbalanced(m, a);
      var posted := ledger.Post("settlement", sid, MEMO_SETTLEMENT, SettlementLines(m, a));
      r := Err(LedgerFault(posted.error));
    }

    /** Inserts a `created` settlement row under a new id. */
    method CreateSettlement(merchantId: string, amount: int, currency: string, now: int) returns (sid: string)
      requires Valid()
      modifies this`settlements, this`nextId
      ensures Valid()
      ensures sid == Uuid(old(nextId)) && sid !in old(settlements) && nextId == old(nextId) + 1
      ensures settlements == old(settlements)[sid := Settlement(merchantId, amount, currency, "created", now)]
    {
      sid := FreshId();
      settlements := settlements[sid := Settlement(merchantId, amount, currency, "created", now)];
    }

    // ----- users and wallets -----

    /** A user needs a name that is not blank; it gets a new id and a LIABILITY wallet. */
    method CreateUser(name: Option<string>, now: int) returns (resp: Response)
      requires Valid()
      modifies this`users, this`nextId, ledger`accounts
      ensures Valid()
      ensures Blank(name.GetOr("")) ==>
                resp == Error(NAME_REQUIRED)
                && users == old(users) && nextId == old(nextId) && ledger.accounts == old(ledger.accounts)
      ensures !Blank(name.GetOr("")) ==>
                var id := Uuid(old(nextId));
                && resp == UserCreated(id, name.value)
                && id !in old(users)
                && users == old(users)[id := User(name.value, now)]
                && ledger.accounts == Ensured(old(ledger.accounts), AcctUserWallet(id), Liability)
                && nextId == old(nextId) + 1
    {
      var n := name.GetOr("");
      if Blank(n) {
        return Error(NAME_REQUIRED);
      }
      var id := FreshId();
      users := users[id := User(n, now)];
      EnsureWallet(id);
      resp := UserCreated(id, n);
    }

    /** `ensureAccount` of a user's wallet, as a LIABILITY. */
    method EnsureWallet(userId: string)
      requires Valid()
      modifies ledger`accounts
      ensures Valid()
      ensures ledger.accounts == Ensured(old(ledger.accounts), AcctUserWallet(userId), Liability)
      ensures AcctUserWallet(userId) in ledger.accounts && ledger.accounts[AcctUserWallet(userId)] == Liability
    {
      PerEntityNames(userId);
      EnsureKeepsAccountsOk(ledger.accounts, AcctUserWallet(userId));
      ledger.EnsureAccount(AcctUserWallet(userId), Liability);
    }

    /**
     * Credits a wallet from settlement cash. The user id is not looked up:
     * any id gets a wallet account.
     */
    method FundWallet(userId: Option<string>, amount: Option<int>) returns (resp: Response)
      requires Valid()
      modifies ledger`accounts, ledger`journals, ledger`postings
      ensures Valid()
      ensures var u := userId.GetOr("");
              var a := amount.GetOr(0);
        if u == "" || a <= 0 then
          && resp == Error(USER_AMOUNT_REQUIRED)
          && ledger.accounts == old(ledger.accounts) && ledger.journals == old(ledger.journals)
          && ledger.postings == old(ledger.postings)
        else
          && resp == Funded(|old(ledger.journals)|)
          && ledger.accounts == Ensured(old(ledger.accounts), AcctUserWallet(u), Liability)
          && ledger.journals == old(ledger.journals) + [Journal("wallet_fund", u, MEMO_FUND)]
          && ledger.postings == old(ledger.postings) + PostingsOf(|old(ledger.journals)|, FundingLines(u, a))
    {
      var u := userId.GetOr("");
      var a := amount.GetOr(0);
      if u == "" || a <= 0 {
        return Error(USER_AMOUNT_REQUIRED);
      }
      EnsureWallet(u);
      TransferLines(PLATFORM_SETTLEMENT_CASH, AcctUserWallet(u), a);
      var posted := ledger.Post("wallet_fund", u, MEMO_FUND, FundingLines(u, a));
      resp := Funded(posted.value);
    }

    // ----- transfers -----

    /**
     * Creates a transfer out of a user's wallet. A known key answers as
     * before or refuses a different body; then the request is validated, the
     * wallet must cover the amount plus the flat fee, and the whole hold moves
     * from the wallet to the transfer's own hold account.
     */
    method CreateTransfer(body: RequestBody, key: string, now: int) returns (resp: Response)
      requires Valid()
      modifies ledger`accounts, ledger`journals, ledger`postings, this`transfers, this`transferOrder
      modifies this`idempotency, this`nextId
      ensures Valid()
      ensures var lookup := LookupKey(old(idempotency), key, body);
              var u := body.userId.GetOr("");
              var a := body.amount.GetOr(0);
        if !lookup.NewKey? || u == "" || a <= 0 || body.bankCode.GetOr("") == "" || body.bankAccount.GetOr("") == "" then
          && resp == (if lookup.Replay? then lookup.response
                      else if lookup.KeyReused? then Error(KEY_REUSED)
                      else Error(INVALID_TRANSFER_REQUEST))
          && ledger.accounts == old(ledger.accounts) && ledger.journals == old(ledger.journals)
          && ledger.postings == old(ledger.postings) && transfers == old(transfers)
          && transferOrder == old(transferOrder) && idempotency == old(idempotency) && nextId == old(nextId)
        else
          var accounts := Ensured(old(ledger.accounts), AcctUserWallet(u), Liability);
          var balance := BalanceIn(accounts, old(ledger.postings), AcctUserWallet(u));
          var hold := a + FLAT_TRANSFER_FEE;
          && (balance < hold ==>
                && resp == InsufficientWallet(balance, hold)
                && ledger.accounts == accounts && ledger.journals == old(ledger.journals)
                && ledger.postings == old(ledger.postings) && transfers == old(transfers)
                && transferOrder == old(transferOrder) && idempotency == old(idempotency) && nextId == old(nextId))
          && (balance >= hold ==>
                var tid := Uuid(old(nextId));
                && resp == TransferCreated(tid, "wallet_held", a, FLAT_TRANSFER_FEE, hold)
                && tid !in old(transfers)
                && transfers == old(transfers)[tid := NewTransfer(body, key, now)]
                && transferOrder == old(transferOrder) + [tid]
                && ledger.accounts == Ensured(accounts, AcctTransferHold(tid), Liability)
                && ledger.journals == old(ledger.journals) + [Journal("transfer", tid, MEMO_HOLD)]
                && ledger.postings == old(ledger.postings) + PostingsOf(|old(ledger.journals)|, HoldLines(u, tid, hold))
                && idempotency == old(idempotency)[key := IdempotencyRecord(body, resp, now)]
                && nextId == old(nextId) + 1)
    {
      var found := LookupKey(idempotency, key, body);
      if found.Replay? {
        return found.response;
      }
      if found.KeyReused? {
        return Error(KEY_REUSED);
      }
      var u := body.userId.GetOr("");
      var a := body.amount.GetOr(0);
      if u == "" || a <= 0 || body.bankCode.GetOr("") == "" || body.bankAccount.GetOr("") == "" {
        return Error(INVALID_TRANSFER_REQUEST);
      }
      EnsureWallet(u);
      var fee := TransferFee(a);
      var hold := a + fee;
      var balance := ledger.Balance(AcctUserWallet(u));
      if balance < hold {
        return InsufficientWallet(balance, hold);
      }
      resp := OpenTransfer(body, key, now);
    }

    /** The write half of transfer creation: the transfer row, its hold account and journal, then the key row. */
    method OpenTransfer(body: RequestBody, key: string, now: int) returns (resp: Response)
      requires Valid() && body.amount.GetOr(0) > 0
      modifies ledger`accounts, ledger`journals, ledger`postings, this`transfers, this`transferOrder
      modifies this`idempotency, this`nextId
      ensures Valid()
      ensures var tid := Uuid(old(nextId));
              var a := body.amount.GetOr(0);
              var hold := a + FLAT_TRANSFER_FEE;
              && resp == TransferCreated(tid, "wallet_held", a, FLAT_TRANSFER_FEE, hold)
              && tid !in old(transfers)
              && transfers == old(transfers)[tid := NewTransfer(body, key, now)]
              && transferOrder == old(transferOrder) + [tid]
              && ledger.accounts == Ensured(old(ledger.accounts), AcctTransferHold(tid), Liability)
              && ledger.journals == old(ledger.journals) + [Journal("transfer", tid, MEMO_HOLD)]
              && ledger.postings == old(ledger.postings) + PostingsOf(|old(ledger.journals)|, HoldLines(body.userId.GetOr(""), tid, hold))
              && idempotency == old(idempotency)[key := IdempotencyRecord(body, resp, now)]
              && nextId == old(nextId) + 1
    {
      var t := NewTransfer(body, key, now);
      var tid := InsertTransfer(t);
      HoldFunds(t.userId, tid, t.TotalHold());
      resp := TransferCreated(tid, "wallet_held", t.amount, t.fee, t.TotalHold());
      idempotency := idempotency[key := IdempotencyRecord(body, resp, now)];
    }

    /** Inserts a transfer row under a new id, last in insertion order. */
    method InsertTransfer(t: Transfer) returns (tid: string)
      requires Valid() && t.amount > 0 && t.fee == FLAT_TRANSFER_FEE
      modifies this`transfers, this`transferOrder, this`nextId
      ensures Valid()
      ensures tid == Uuid(old(nextId)) && tid !in old(transfers) && nextId == old(nextId) + 1
      ensures transfers == old(transfers)[tid := t] && transferOrder == old(transferOrder) + [tid]
    {
      tid := FreshId();
      transfers := transfers[tid := t];
      transferOrder := transferOrder + [tid];
    }

    /** Ensures the hold account and posts the hold journal, which the ledger always accepts. */
    method HoldFunds(userId: string, tid: string, total: int)
      requires Valid() && total > 0
      modifies ledger`accounts, ledger`journals, ledger`postings
      ensures Valid()
      ensures ledger.accounts == Ensured(old(ledger.accounts), AcctTransferHold(tid), Liability)
      ensures ledger.journals == old(ledger.journals) + [Journal("transfer", tid, MEMO_HOLD)]
      ensures ledger.postings == old(ledger.postings) + PostingsOf(|old(ledger.journals)|, HoldLines(userId, tid, total))
    {
      PerEntityNames(tid);
      EnsureKeepsAccountsOk(ledger.accounts, AcctTransferHold(tid));
      ledger.EnsureAccount(AcctTransferHold(tid), Liability);
      NamesDistinct(userId, tid);
      TransferLines(AcctUserWallet(userId), AcctTransferHold(tid), total);
      var posted := ledger.Post("transfer", tid, MEMO_HOLD, HoldLines(userId, tid, total));
    }

    /**
     * One of the five transfer handlers, chosen by `k`: unless the event is
     * skipped, it posts the movement the transition table names (which the
     * ledger accepts) and writes the new status with the handler's reference
     * and failure fields.
     */
    method ApplyTransferEvent(k: EventKind, payload: Payload, now: int) returns (count: nat)
      requires Valid()
      modifies ledger`journals, ledger`postings, this`transfers
      ensures Valid()
      ensures TransferEventWritten(old(TransferState()), TransferState(), k, payload, now, count)
    {
      var tid := payload.transferId.GetOr("");
      if tid == "" || (k == SubmittedEvent && payload.providerRef.GetOr("") == "") || tid !in transfers {
        return 0;
      }
      var t := transfers[tid];
      var effect := Transition(k, t.status);
      if effect.Ignored? {
        return 0;
      }
      PostMovement(k, effect.movement, tid, t);
      SetTransferRow(tid, WithStatus(t, effect.status, RefUpdate(k, payload), CodeUpdate(k, payload), ReasonUpdate(k, payload), now));
      count := 1;
    }

    /** Posts the journal of a handler's movement of the hold, if any; the ledger accepts it. */
    method PostMovement(k: EventKind, m: Movement, tid: string, t: Transfer)
      requires Valid() && t.amount > 0 && t.fee > 0
      modifies ledger`journals, ledger`postings
      ensures Valid()
      ensures ledger.journals == old(ledger.journals) + HandlerJournals(k, m, tid)
      ensures ledger.postings == old(ledger.postings) + PostingsOf(|old(ledger.journals)|, MovementLines(m, tid, t))
    {
      if m != NoMovement {
        MovementPostable(m, tid, t);
        var posted := ledger.Post("transfer", tid, HandlerMemo(k), MovementLines(m, tid, t));
      }
    }

    /**
     * Handles the transfer event at position `p` and marks it processed: no
     * transfer handler raises, so the mark is always written; a type with no
     * handler changes nothing else.
     */
    method HandleTransferEvent(p: nat, now: int) returns (count: nat)
      requires Valid() && p < |transferEvents|
      modifies ledger`journals, ledger`postings, this`transfers, this`transferEvents
      ensures Valid()
      ensures count <= 1
      ensures transferEvents == old(transferEvents)[p := old(transferEvents)[p].(processed := true)]
      ensures var e := old(transferEvents)[p];
        match ParseEventType(e.kind)
        case None =>
          count == 0 && transfers == old(transfers)
          && ledger.journals == old(ledger.journals) && ledger.postings == old(ledger.postings)
        case Some(k) =>
          TransferEventWritten(old(TransferState()), TransferState(), k, e.payload, now, count)
    {
      var e := transferEvents[p];
      count := 0;
      var kind := ParseEventType(e.kind);
      if kind.Some? {
        count := ApplyTransferEvent(kind.value, e.payload, now);
      }
      transferEvents := transferEvents[p := transferEvents[p].(processed := true)];
    }

    /**
     * The transfer worker: takes up to 50 unprocessed events, oldest first,
     * and handles each; every event of the batch, and no other, ends
     * processed.
     */
    method ProcessTransferEvents(now: int) returns (resp: Response)
      requires Valid()
      modifies ledger`journals, ledger`postings, this`transfers, this`transferEvents
      ensures Valid()
      ensures resp.Processed? && resp.count <= |Batch(old(transferEvents))|
      ensures AllMarked(old(transferEvents), transferEvents, Batch(old(transferEvents)))
    {
      var batch := Batch(transferEvents);
      BatchPositions(transferEvents);
      var count: nat := 0;
      for i := 0 to |batch|
        invariant Valid()
        invariant count <= i
        invariant AllMarked(old(transferEvents), transferEvents, batch[..i])
      {
        ghost var mid := transferEvents;
        var c := HandleTransferEvent(batch[i], now);
        AllMarkedStep(old(transferEvents), mid, batch[..i], batch[i]);
        PrefixStep(batch, i);
        count := count + c;
      }
      PrefixStep(batch, |batch|);
      resp := Processed(count);
    }

    /**
     * Records a submission attempt of a held or unknown transfer: mode
     * `submitted` sets the status and a reference derived from the id, any
     * other mode records a timeout as status `unknown`; both keep the first
     * submission time.
     */
    method SubmitTransfer(transferId: Option<string>, mode: Option<string>, now: int) returns (resp: Response)
      requires Valid()
      modifies this`transfers
      ensures Valid()
      ensures var tid := transferId.GetOr("");
        if tid == "" || tid !in old(transfers) || !Submittable(old(transfers)[tid].status) then
          && transfers == old(transfers)
          && resp == (if tid == "" then Error(TRANSFER_ID_REQUIRED)
                      else if tid !in old(transfers) then Error(TRANSFER_NOT_FOUND)
                      else InvalidState(StatusName(old(transfers)[tid].status)))
        else
          var t := old(transfers)[tid];
          var submitted := t.(submittedAt := Some(t.submittedAt.GetOr(now)), updatedAt := now);
          if mode.GetOr("unknown") == "submitted" then
            var ref := ProviderRefFor(tid);
            && resp == SubmissionRecorded("submitted", Some(ref))
            && transfers == old(transfers)[tid := submitted.(status := Submitted, providerRef := Some(ref))]
          else
            && resp == SubmissionRecorded("unknown", None)
            && transfers == old(transfers)[tid := submitted.(status := Unknown)]
    {
      var tid := transferId.GetOr("");
      if tid == "" {
        return Error(TRANSFER_ID_REQUIRED);
      }
      if tid !in transfers {
        return Error(TRANSFER_NOT_FOUND);
      }
      var t := transfers[tid];
      if !Submittable(t.status) {
        return InvalidState(StatusName(t.status));
      }
      var submitted := t.(submittedAt := Some(t.submittedAt.GetOr(now)), updatedAt := now);
      if mode.GetOr("unknown") == "submitted" {
        var ref := ProviderRefFor(tid);
        transfers := transfers[tid := submitted.(status := Submitted, providerRef := Some(ref))];
        resp := SubmissionRecorded("submitted", Some(ref));
      } else {
        transfers := transfers[tid := submitted.(status := Unknown)];
        resp := SubmissionRecorded("unknown", None);
      }
    }

    // ----- the unknown-status poller -----

    /**
     * Polls the oldest `unknown` transfers, at most `limit` of them (20 when
     * missing or not positive). `results` stands for the provider's answers,
     * by transfer id. When any event was generated the transfer worker runs
     * once afterwards.
     */
    method PollUnknownTransfers(limit: Option<int>, results: map<string, string>, now: int) returns (resp: Response)
      requires Valid()
      modifies ledger`journals, ledger`postings, this`transfers, this`transferEvents, this`nextId
      ensures Valid()
      ensures var rows := UnknownRows(old(transfers), old(transferOrder), PollLimit(limit));
              var r := PollAll(PollState(old(transfers), old(transferEvents), old(nextId), 0, 0, 0), rows, results, now);
        && resp == PollReport(r.polled, r.generated, r.escalated)
        && nextId == r.nextId
        && (r.generated == 0 ==>
              && transfers == r.transfers && transferEvents == r.events
              && ledger.journals == old(ledger.journals) && ledger.postings == old(ledger.postings))
        && (r.generated > 0 ==> AllMarked(r.events, transferEvents, Batch(r.events)))
    {
      var rows := UnknownRows(transfers, transferOrder, PollLimit(limit));
      UnknownRowsInTable(transfers, transferOrder, PollLimit(limit));
      var polled, generated, escalated := PollRows(rows, results, now);
      if generated > 0 {
        var worked := ProcessTransferEvents(now);
      }
      resp := PollReport(polled, generated, escalated);
    }

    /** The poll loop over the selected rows, as the fold `PollAll` describes it. */
    method PollRows(rows: seq<string>, results: map<string, string>, now: int) returns (polled: nat, generated: nat, escalated: nat)
      requires Valid()
      requires forall i :: 0 <= i < |rows| ==> rows[i] in transfers
      modifies this`transfers, this`transferEvents, this`nextId
      ensures Valid()
      ensures PollState(transfers, transferEvents, nextId, polled, generated, escalated)
              == PollAll(PollState(old(transfers), old(transferEvents), old(nextId), 0, 0, 0), rows, results, now)
    {
      ghost var start := PollState(transfers, transferEvents, nextId, 0, 0, 0);
      polled, generated, escalated := 0, 0, 0;
      for i := 0 to |rows|
        invariant Valid()
        invariant PollState(transfers, transferEvents, nextId, polled, generated, escalated) == PollAll(start, rows[..i], results, now)
      {
        PollAllStep(start, rows, i, results, now);
        polled, generated, escalated := PollTransfer(rows[i], results, now, polled, generated, escalated);
      }
      PrefixStep(rows, |rows|);
    }

    /** Polls one transfer, as `PollOne` describes it, carrying the poll's counters. */
    method PollTransfer(id: string, results: map<string, string>, now: int, polled: nat, generated: nat, escalated: nat)
      returns (polled': nat, generated': nat, escalated': nat)
      requires Valid() && id in transfers
      modifies this`transfers, this`transferEvents, this`nextId
      ensures Valid()
      ensures PollState(transfers, transferEvents, nextId, polled', generated', escalated')
              == PollOne(PollState(old(transfers), old(transferEvents), old(nextId), polled, generated, escalated), id, results, now)
    {
      PollOneFields(PollState(transfers, transferEvents, nextId, polled, generated, escalated), id, results, now);
      var t := transfers[id];
      var action := RowAction(t, id, results, now);
      SetTransferRow(id, PolledRow(t, now, action));
      polled', generated', escalated' := polled, generated, escalated;
      match action {
        case Throttled =>
        case Enqueued(k) =>
          EnqueuePollEvent(id, k, now);
          polled', generated' := polled + 1, generated + 1;
        case Escalated =>
          polled', escalated' := polled + 1, escalated + 1;
        case _ =>
          polled' := polled + 1;
      }
    }

    /** Overwrites an existing transfer row with one of the same amount and fee. */
    method SetTransferRow(id: string, u: Transfer)
      requires Valid() && id in transfers && u.amount == transfers[id].amount && u.fee == transfers[id].fee
      modifies this`transfers
      ensures Valid()
      ensures transfers == old(transfers)[id := u]
    {
      transfers := transfers[id := u];
    }

    /** Feeds the poller's webhook for an answered transfer to the transfer intake, using up one id suffix. */
    method EnqueuePollEvent(id: string, k: EventKind, now: int)
      requires Valid()
      modifies this`transferEvents, this`nextId
      ensures Valid()
      ensures transferEvents == Intake(old(transferEvents), PollWebhook(id, k, old(nextId)), now).0
      ensures nextId == old(nextId) + 1
    {
      var suffix := nextId;
      nextId := nextId + 1;
      var stored := SimulateTransferWebhook(PollWebhook(id, k, suffix), now);
    }
  }
}
