# mini-payments: a verified model of the accounting core

This project models the accounting and reconciliation core of the
mini-payments engine: a double-entry ledger whose postings always balance,
the fee policy (integer rounding in basis points, a capped platform fee, VAT
on the platform fee, a flat transfer fee), and the `App` engine. The engine
covers:

- merchants and payment intents, with idempotency keys;
- payment and transfer webhooks, deduplicated by provider event id;
- the two event workers, which take the 50 oldest unprocessed events and run
  each in its own transaction;
- payment success and chargeback;
- release and settlement of merchant funds;
- user wallets and bank transfers, with their five status handlers;
- submission of transfers, and the poller that settles transfers left in
  status `unknown`.

Each database table is a field of the `App` class (`map`s keyed by row id,
`seq`s for the event tables), or of its `Ledger` object (accounts, journals,
postings). Every operation is a method whose `ensures` states the new
contents of every table it writes and the response it returns. The
exceptions are the two worker loops and the poller: their weaker contracts
are listed under "Left out". The
properties of the system are proved as lemmas about the functions those
contracts use:

- how `Div` and `PercentBps` round;
- the fee formulas and the fee-split identities;
- that every journal the engine posts is accepted exactly when the code
  would accept it;
- how each posting moves balances;
- the one-time intake of webhooks;
- the batch order of the workers;
- the transfer status table and what its guards allow;
- the poller as a fold over the rows it selects.

The model keeps the behaviour of the code where it differs from what the
code's own comments and tests say it is for:

- **Settlement never pays out.** `settle` first posts a journal with two
  debits and no credit. The ledger always refuses it, so the corrective
  journal and the status `paid` are never reached, although the comment
  inside the journal (src/App.php:417-418) says it needs a credit. A
  settlement row stays `created`, and `bank_outgoing` has been ensured
  (`App.App.Settle`, `App.SettlementUnbalanced`).
- **The fee mode is never stored.** `fee_mode` is checked on creation but
  not written, so every payment is quoted as merchant pays. A one-kobo
  payment therefore has a zero merchant net, and its event is rolled back
  (`Payments.OneKoboMerchantPaysRejected`).
- **Chargebacks recompute the fees differently.** They use 1.5% and 1%,
  both rounded down, with no cap and no VAT, so they do not mirror the
  success journal, which the comment at src/App.php:476 says they must
  (`Payments.ChargebackFeesDiffer`).
- **Chargebacks ensure accounts early.** The merchant's accounts are
  ensured before the intent's status is checked.
- **The transfer guards are narrow.** They let a hold be drawn more than
  once, for example a refund without debit followed by a credit
  confirmation (`Transfers.DoubleMoves`, `Transfers.AlternatingDrawsUnbounded`).
  A hold is meant to be drawn exactly once, either paid out or refunded:
  the test at tests/Unit/TransferFailedDebitedVariant1Test.php:56-76 keeps
  it through a failure with debit and refunds it once on the reversal. Each
  guard, though, rejects only its own status, and the no-debit refund also
  `reversed` (src/App.php:905, 945, 996). So the payout never rejects a
  refunded transfer, and neither refund rejects a paid-out one.

Modules:

- `Outcomes`: Option and Result.
- `Rounding`, `FeePolicy`, `TransferFeePolicy`: the fee arithmetic.
- `Ledger`: the `Ledger` class and the sums over lines and postings.
- `Ids`: fresh ids from a counter.
- `Accounts`: account names.
- `Messages`: requests, responses and the idempotency table.
- `Events`: webhook intake and worker batches.
- `Selection`: `ORDER BY ... LIMIT`.
- `Payments`: fee quotes and payment journals.
- `Transfers`: the transfer record, the status table and the poll decision.
- `Poller`: the poll as a fold.
- `App`: the engine class.

## Model

| member | source | states |
|---|---|---|
| Rounding.Div | src/Money/Rounding.php:19-52 | a rounded quotient is never negative |
| Rounding.DivFails | src/Money/Rounding.php:19-52 | division raises exactly for a non-positive denominator, a negative numerator, or an unknown mode with a remainder, each with its own error |
| Rounding.DivExact | src/Money/Rounding.php:32-34 | an exact division succeeds in every mode, even an unknown one, and gives the exact quotient |
| Rounding.DivFloor | src/Money/Rounding.php:36-38 | FLOOR gives the largest q with d*q <= n |
| Rounding.DivCeil | src/Money/Rounding.php:40-42 | CEIL gives the least q with n <= d*q |
| Rounding.DivHalfUp | src/Money/Rounding.php:44-49 | HALF_UP rounds up exactly when twice the remainder reaches the denominator |
| Rounding.DivModesOrdered | src/Money/Rounding.php:29-49 | for the same arguments FLOOR <= HALF_UP <= CEIL <= FLOOR+1 |
| Rounding.PercentBps | src/Money/Rounding.php:58-66 | a percentage is never negative |
| Rounding.PercentBpsIsDiv | src/Money/Rounding.php:58-66 | negative amount or rate raise; otherwise the result is Div(amount*bps, 10000) while the product fits a 64-bit PHP integer, and a TypeError beyond |
| Rounding.PercentBpsExamples | tests/Unit/RoundingTest.php:10-64 | the tested values: 10/3 floor 3 and ceil 4, half-up of 10/4, 9/4, 11/4, 1.5% of 500000, 1% of 1 both ways, and the two rejected inputs |
| FeePolicy.PlatformFee | src/Fee/FeePolicy.php:21-28 | the platform fee is between 0 and the 200000 cap |
| FeePolicy.PlatformFeeFormula | src/Fee/FeePolicy.php:21-28 | platform fee = min(floor(1.5% of amount), 200000) |
| FeePolicy.ProviderFee | src/Fee/FeePolicy.php:30-33 | the provider fee is between 0 and the amount |
| FeePolicy.ProviderFeeFormula | src/Fee/FeePolicy.php:30-33 | provider fee = ceil(1% of amount), at least 1 for any positive amount |
| FeePolicy.VatOnPlatformFee | src/Fee/FeePolicy.php:38-41 | VAT is between 0 and the platform fee it is charged on |
| FeePolicy.VatFormula | src/Fee/FeePolicy.php:38-41 | VAT = floor(7.5% of the platform fee) and never exceeds it |
| FeePolicy.FeesDefined | src/Fee/FeePolicy.php:21-41 | the fees are defined exactly for non-negative amounts whose 1.5% product fits a PHP integer |
| FeePolicy.NegativeAmountFails | src/Fee/FeePolicy.php:21-41 | every fee of a negative amount raises the negative-amount error |
| FeePolicy.FeeExamples | tests/Unit/FeePolicyTest.php:10-39 | the tested values: the cap at 100000000, 7500 and VAT 562 at 500000, provider fee 1 at 1 |
| TransferFeePolicy.TransferFee | src/Fee/TransferFeePolicy.php:10-13 | the transfer fee is positive |
| TransferFeePolicy.FeeIgnoresAmount | src/Fee/TransferFeePolicy.php:10-13 | the fee is 1000 for every amount |
| TransferFeePolicy.HoldExceedsAmount | src/App.php:710-717 | the hold (amount plus fee) exceeds the amount; 500000 holds 501000 |
| Ids.Uuid | src/App.php:44-47 | an issued id is never empty |
| Ids.UuidInjective | src/App.php:44-47 | distinct counter values give distinct ids |
| Accounts.PerEntityNames | src/App.php:49-57 | pending, available, wallet and hold account names are per-entity names |
| Accounts.FixedNamesNotPerEntity | src/App.php:24-34 | no platform account, nor bank_outgoing, merchant_receivable or chargeback_loss, has a per-entity name |
| Accounts.NamesDistinct | src/App.php:633-641 | names of different buckets never coincide, and within a bucket the name determines the entity |
| Ledger.Ledger.constructor | src/Ledger/Ledger.php:11 | a new ledger has no accounts, journals or postings |
| Ledger.Ledger.EnsureAccount | src/Ledger/Ledger.php:23-29 | the account is inserted with the type only when absent |
| Ledger.Ledger.Balance | src/Ledger/Ledger.php:31-37 | the `v_balances` signed sum of one account; `Ledger.BalanceWithoutPostings` proves its 0 default and `Ledger.BalanceAfterPost` how a journal moves it |
| Ledger.EnsuredFirstWriteWins | src/Ledger/Ledger.php:23-29 | ensuring twice, with any type, keeps the first type and touches no other account |
| Ledger.Ledger.Post | src/Ledger/Ledger.php:44-103 | a non-positive line is refused, then an unbalanced journal; a refusal writes nothing; otherwise one journal and one posting per line are appended, in order, and the totals stay balanced |
| Ledger.PostingsOf | src/Ledger/Ledger.php:86-95 | one posting per line, in order, under the journal's id |
| Ledger.AppendKeepsStoreValid | src/Ledger/Ledger.php:44-103 | appending an accepted journal keeps every posting positive, attached to a journal, and debits equal to credits |
| Ledger.AppendKeepsBalance | src/Ledger/Ledger.php:59-61 | a balanced journal keeps the whole posting table balanced |
| Ledger.BalanceAfterPost | src/Ledger/Ledger.php:31-37 | a journal changes an account's signed balance by exactly its own effect on that account |
| Ledger.MoveBalances | src/Ledger/Ledger.php:31-37 | a debit/credit pair moves the amount with each account's sign and leaves every other balance unchanged |
| Ledger.BalanceWithoutPostings | src/Ledger/Ledger.php:31-37 | an account without postings has balance 0 |
| Ledger.TransferLines | src/Ledger/Ledger.php:48-61 | a two-line transfer journal is accepted exactly when its amount is positive |
| Ledger.OtherDirectionIgnored | src/Ledger/Ledger.php:55-56 | a line tagged neither D nor C counts in neither total |
| Ledger.BalancedPairExample | tests/Unit/LedgerTest.php:23-57 | the two ledger tests: a balanced debit and credit of 100 is accepted and gives cash and customer funds a balance of 100 each; a debit of 100 against a credit of 99 is refused as unbalanced |
| Messages.LookupKey | src/App.php:89-104 | a new key proceeds; a known key with the same body replays its stored response; a different body is refused |
| Messages.ReplayAfterStore | src/App.php:141-151 | once stored, the same body replays the response, any other body is refused, and other keys are unaffected |
| Messages.Blank | src/App.php:71 | the `trim($name) === ''` test of createMerchant and createUser: every character is one `trim` strips; `Messages.BlankExamples` gives the accepted and refused names |
| Messages.BlankExamples | src/App.php:68-80 | the names `trim` empties are refused and the others accepted |
| Events.Intake | src/App.php:159-187 | a webhook that is not stored leaves the table unchanged |
| Events.IntakeSpec | src/App.php:159-187 | a complete webhook with a new id appends exactly one unprocessed event, otherwise nothing; ids stay unique |
| Events.RedeliveryIgnored | src/App.php:159-187 | delivering the same webhook again is acknowledged as a duplicate and stores nothing |
| Events.Unprocessed | src/App.php:194-196 | the candidates are exactly the unprocessed events, with their creation times, in table order |
| Events.Batch | src/App.php:194-196 | the batch is the positions of the oldest candidates |
| Events.BatchSpec | src/App.php:194-196 | at most 50 distinct unprocessed events, oldest first, none left out older than one taken |
| Events.BatchTakesAll | src/App.php:194-196 | with 50 or fewer waiting, every unprocessed event is in the batch |
| Selection.SortSpec | src/App.php:194-196 | sorting distinct candidates orders them by time then position and keeps each exactly once |
| Selection.Oldest | src/App.php:1093 | `ORDER BY ... LIMIT`: the first `limit` candidates in time order; `Selection.OldestSpec` states the count, membership, order and what is left out |
| Selection.OldestSpec | src/App.php:1092-1098 | the selection has min(limit, n) rows, all candidates, in order, each before every one left out |
| Payments.KnownFeeMode | src/App.php:93-96 | the two fee modes an intent request may name; `App.App.CreatePaymentIntent` refuses any other with `invalid_fee_mode` before anything else |
| Payments.QuotePayment | src/App.php:249-266 | a quote's fees are non-negative and net plus fees is what was collected |
| Payments.Quote.Fees | src/App.php:258-260 | the sum `platformFee + vat + providerFee`; `Payments.QuotePayment` proves net plus this sum is what was collected |
| Payments.FeeBounds | src/Fee/FeePolicy.php:21-41 | the platform fee is at most 1.5% of the amount, VAT at most the platform fee, the provider fee below 1% plus one kobo |
| Payments.MerchantPaysIdentity | src/App.php:249-266 | merchant pays: the customer is charged the amount, net >= 0, net + fees = amount |
| Payments.CustomerPaysIdentity | src/App.php:249-266 | customer pays: net is the amount, the charge is amount + fees |
| Payments.OtherModesQuoteAsCustomerPays | src/App.php:249-266 | every mode other than merchant_pays quotes as customer pays |
| Payments.QuoteFailsOnlyOnFeeErrors | src/App.php:249-266 | a quote of a positive amount fails exactly when the fees are undefined, with the overflow error above the limit |
| Payments.CollectionLines | src/App.php:273-281 | journal A: platform cash debited and customer funds credited by the amount collected; `Payments.AllocationPostable` proves the ledger always accepts it |
| Payments.AllocationLines | src/App.php:284-305 | journal B: customer funds debited by the amount collected, the merchant's pending payable always credited, each fee line only when positive; `Payments.AllocationBalanced` and `Payments.AllocationPostable` prove it balances and is accepted exactly when the net is positive |
| Payments.AllocationBalanced | src/App.php:284-318 | the allocation journal's single debit and its credits both total what was collected |
| Payments.AllocationPostable | src/App.php:273-318 | the collection journal is always accepted; the allocation exactly when the merchant's net is positive |
| Payments.SuccessJournalsPostable | src/App.php:273-318 | both success journals post exactly when the net is positive |
| Payments.OneKoboMerchantPaysRejected | src/App.php:249-318 | 1 kobo merchant pays quotes a zero net and its allocation has a zero line |
| Payments.TwoKoboMerchantPaysPostable | src/App.php:249-318 | 2 kobo merchant pays quotes net 1 and its allocation is accepted |
| Payments.ChargebackFeesOf | src/App.php:477-483 | chargeback fees are floor(1.5%) and floor(1%) of the amount, with no cap, and leave a non-negative net |
| Payments.ChargebackFeeBound | src/App.php:477-483 | the integer formulas are the floors and the two fees never exceed the amount |
| Payments.SplitChargeback | src/App.php:490-501 | the three parts add up to the merchant's net |
| Payments.SplitSound | src/App.php:490-501 | pending is used first, then available, then a receivable; each part lies between zero and its balance |
| Payments.KeepPositive | src/App.php:555-584 | only positive lines are kept |
| Payments.ReversalDebits | src/App.php:558-581 | the candidate debits in the order the handler considers them: pending, available, receivable, platform revenue, the provider fee; `Payments.ReversalDebitsSum` proves their total |
| Payments.ProviderFeeLine | src/App.php:573-581 | the provider fee is debited to provider_payable when `refund_provider_fee` is set and to chargeback_loss otherwise; `Payments.ReversalDebitsSum` counts it among the debits |
| Payments.ReversalLines | src/App.php:555-584 | the positive candidate debits followed by the credit of the whole amount to customer funds; `Payments.ReversalBalanced` proves it balances and is accepted |
| Payments.ReversalDebitsSum | src/App.php:555-584 | the candidate debits total the split and both fees, and carry no credit |
| Payments.ReversalBalanced | src/App.php:555-584 | the reversal journal's debits equal its single credit of the amount, and it is accepted for a positive amount |
| Payments.ClawbackLines | src/App.php:598-607 | the clawback journal: customer funds debited and platform cash credited by the amount; `Ledger.TransferLines` proves it is accepted for every positive amount |
| Payments.ChargebackFeesDiffer | src/App.php:477-483 | for 500000 the chargeback takes back 487500 where the success credited 486938; above the cap the platform fees differ |
| Transfers.WithStatus | src/App.php:858-876 | the status and update time are written; the reference and failure fields only when given; nothing else changes |
| Transfers.WithStatusKeepsFields | src/App.php:858-876 | an update without new fields keeps the reference and failure fields |
| Transfers.ParseEventType | src/App.php:832-836 | only the five type names dispatch a handler, each to its own |
| Transfers.ParseEventTypeName | src/App.php:832-836 | each type name dispatches to its own handler |
| Transfers.SubmittedIgnored | src/App.php:889 | a submission is ignored once the transfer is credit-confirmed, failed either way, reversing or reversed; `Transfers.StatusOnlyEvents` and `Transfers.RepeatIgnored` use it through `Transfers.Transition` |
| Transfers.CreditConfirmedIgnored | src/App.php:905 | a credit confirmation is ignored only by a transfer already credit-confirmed; `Transfers.DoubleMoves` shows what this lets through |
| Transfers.FailedNoDebitIgnored | src/App.php:945 | a no-debit failure is ignored only by a transfer already failed without debit, or reversed; `Transfers.DoubleMoves` shows what this lets through |
| Transfers.FailedDebitedIgnored | src/App.php:981 | a failure with debit is ignored by a transfer already failed with debit, reversing or reversed; `Transfers.FailedDebitedThenReversed` shows the hold kept |
| Transfers.ReversedIgnored | src/App.php:996 | a reversal is ignored only by a transfer already reversed; `Transfers.AlternatingDrawsUnbounded` shows what this lets through |
| Transfers.Submittable | src/App.php:1028 | a submission is accepted only while the transfer is wallet_held or unknown; `App.App.SubmitTransfer` refuses the others with `invalid_state` |
| Transfers.Transition | src/App.php:878-1016 | the guard of each of the five handlers: the status a handler writes and the movement of the hold it posts, or that it ignores the current status; its consequences are the lemmas below |
| Transfers.RepeatIgnored | src/App.php:878-1016 | a repeated money or failure event is ignored the second time; a repeated submission is applied again |
| Transfers.StatusOnlyEvents | src/App.php:878-986 | submission and failed-with-debit never move money |
| Transfers.FailedDebitedThenReversed | tests/Unit/TransferFailedDebitedVariant1Test.php:24-79 | failed-with-debit keeps the hold and the reversal then refunds it exactly once |
| Transfers.DoubleMoves | src/App.php:897-1016 | the guards allow refund-then-payout, refund-then-refund and payout-then-refund |
| Transfers.AlternatingDrawsUnbounded | src/App.php:897-1016 | alternating confirmations and reversals draw on the hold every time, without bound |
| Transfers.RefundsDrawAtMostTwice | src/App.php:934-1016 | refund events alone draw on a hold at most twice |
| Transfers.PollLimit | src/App.php:1085-1086 | the poll limit is the requested one when positive, 20 otherwise |
| Transfers.ResultEvent | src/App.php:1136-1142 | the four provider answers that become transfer events, and none for any other answer; `Transfers.ResultEventNeverSubmitted` proves no answer becomes a submission and `unknown` none |
| Transfers.ResultEventNeverSubmitted | src/App.php:1136-1142 | a provider answer never becomes a submission, and `unknown` becomes no event |
| Transfers.PollDecision | src/App.php:1115-1162 | what one poll does with a row in the order the code tests: the 15-second throttle, a provider answer, then the 120-second SLA; `Transfers.EscalationCondition` and `Transfers.PollThrottles` state when each happens |
| Transfers.EscalationCondition | src/App.php:1115-1162 | escalation happens exactly when not throttled, still unknown and 120 s past submission; an answered result is enqueued |
| Transfers.PollThrottles | src/App.php:1115-1121 | a transfer polled at t is throttled until t+15 whatever the answer |
| Transfers.PolledRow | src/App.php:1107-1162 | the row gets a submission time, a poll time unless throttled, manual review with UNKNOWN_TIMEOUT when escalated, and keeps its money fields |
| Transfers.PayoutLines | src/App.php:919-928 | the payout journal; `Transfers.PayoutBalanced` proves its lines and its balance |
| Transfers.RefundLines | src/App.php:955-963 | the refund journal of both refund handlers; `Transfers.RefundBalanced` proves it returns the whole hold |
| Transfers.MovementLines | src/App.php:897-1016 | the journal for each movement of the transition table, none for a status-only event; `Transfers.MovementPostable` proves the ledger accepts it |
| Transfers.PayoutBalanced | src/App.php:919-928 | the payout debits the hold amount+fee and credits cash the amount and revenue the fee |
| Transfers.RefundBalanced | src/App.php:955-963 | the refund moves the whole hold back to the wallet |
| Transfers.MovementPostable | src/App.php:897-1016 | every movement of a transfer with positive amount and fee is accepted |
| Transfers.UnknownCandidates | src/App.php:1092-1098 | the candidates are exactly the unknown transfers with their update times, in insertion order |
| Transfers.UnknownRows | src/App.php:1092-1098 | the rows are the ids of the oldest unknown candidates |
| Transfers.UnknownRowsSpec | src/App.php:1092-1098 | at most limit distinct unknown transfers, least recently updated first |
| Transfers.UnknownRowLeftOut | src/App.php:1092-1098 | an unknown transfer left out was not updated before any row taken |
| Poller.PollWebhook | src/App.php:1145-1149 | the webhook a poll stores: event id `poll_` + the transfer id + `_` + a fresh suffix, the event type of the answer, and a payload holding only the transfer id; `App.App.EnqueuePollEvent` ensures the transfer intake receives it |
| Poller.PollOne | src/App.php:1104-1163 | one row: only that transfer changes, as PolledRow says; counters rise as the decision says; one id suffix per generated event; events are only appended |
| Poller.PollOneFields | src/App.php:1104-1163 | each table and counter after one row, field by field |
| Poller.PollAll | src/App.php:1104-1163 | a pass keeps the set of transfers |
| Poller.PollAllCounts | src/App.php:1100-1174 | polled <= rows, generated + escalated <= polled, one id suffix per generated event, events only appended |
| Poller.PollAllOthers | src/App.php:1104-1163 | a transfer not among the rows is untouched |
| Poller.PollAllRow | src/App.php:1104-1163 | with distinct rows, each row's transfer ends as one poll of its original row makes it |
| Poller.PollAllRows | src/App.php:1104-1163 | every selected transfer ends as one poll makes it and every other is untouched |
| Poller.PolledRowOutcome | src/App.php:1156-1162 | escalation conditions both ways, manual review on escalation, unknown otherwise, poll time unchanged when throttled |
| App.StartupAccountsAgree | src/App.php:24-34 | the start-up table holds exactly the accounts of the eleven calls, each with its type |
| App.StartupAccountsNotPerEntity | src/App.php:24-34 | no start-up account has a per-entity name |
| App.EnsureKeepsAccountsOk | src/App.php:59-63 | ensuring a per-entity account as a liability keeps every per-entity account a liability |
| App.MerchantAccountsOk | src/App.php:59-63 | both merchant accounts exist as distinct liabilities and older accounts keep their types |
| App.ChargebackPlan | src/App.php:476-584 | the reversal journal from the recomputed fees and the merchant's two payable balances; `App.ChargebackPlanPostable` proves it balances and is accepted |
| App.ChargebackPlanPostable | src/App.php:477-584 | with non-negative merchant balances the reversal journal balances at the amount and is accepted |
| App.ReleaseLines | src/App.php:355-362 | the release journal; `App.ReleaseMoves` proves how it moves balances |
| App.ReleaseMoves | src/App.php:337-366 | a release lowers pending and raises available by the amount and changes no other balance |
| App.SettlementLines | src/App.php:410-420 | the first settlement journal, two debits; `App.SettlementUnbalanced` proves the ledger refuses it |
| App.SettlementUnbalanced | src/App.php:410-420 | the first settlement journal debits twice the amount, credits nothing, and is refused |
| App.FundingLines | src/App.php:671-678 | the wallet funding journal; `App.FundingMoves` proves how it moves balances |
| App.FundingMoves | src/App.php:660-682 | funding raises settlement cash and the wallet by the amount and nothing else |
| App.HoldLines | src/App.php:752-760 | the hold journal of a new transfer; `App.HoldMoves` proves how it moves balances |
| App.HoldMoves | src/App.php:752-760 | the hold moves the total from the wallet to the hold account and nothing else |
| App.SuccessWritten | src/App.php:229-321 | what the success handler writes: skip, the raise conditions, and on success the intent and both journals; `App.App.ApplyPaymentSucceeded` and the worker members ensure it |
| App.ReversalWritten | src/App.php:477-626 | what reversing a succeeded intent writes: the reversal journal exactly when accepted, the clawback, the closed dispute, the reversal row and the failed intent, with the accounts untouched |
| App.ChargebackWritten | src/App.php:444-629 | what the chargeback handler writes: the skips, the merchant accounts ensured before the status check, then `App.ReversalWritten`; `App.App.ApplyChargeback` and the worker members ensure it |
| App.TransferEventSkipped | src/App.php:880-886 | the early returns of the five handlers: no transfer id, a submission without a provider reference, an unknown transfer, or a status the handler's guard ignores (also src/App.php:899-905, 936-945, 971-981, 990-996); `App.TransferEventWritten` makes a skipped event write nothing |
| App.RefUpdate | src/App.php:881 | only a submission writes a provider reference, the payload's; `App.TransferEventWritten` and `Transfers.WithStatusKeepsFields` state how it is written |
| App.CodeUpdate | src/App.php:937 | only the two failures write a failure code, the payload's or the handler's default (`FAILED`, `FAILED_DEBITED`, also src/App.php:972); `App.TransferEventWritten` states how it is written |
| App.ReasonUpdate | src/App.php:938 | only the two failures write a failure reason, the payload's or the handler's default (`failed_no_debit`, `failed_but_debited`, also src/App.php:973); `App.TransferEventWritten` states how it is written |
| App.TransferEventWritten | src/App.php:878-1016 | what a transfer handler writes: nothing when skipped; otherwise the movement's journal and postings and the new status with the handler's fields; `App.App.ApplyTransferEvent` and `App.App.HandleTransferEvent` ensure it |
| App.NewTransfer | src/App.php:697-744 | a new transfer is wallet_held with the flat fee and holds amount plus fee |
| App.ProviderRefFor | src/App.php:1036 | the reference is `prov_` followed by the first ten characters of the id |
| App.UnknownRowsInTable | src/App.php:1092-1098 | every polled row is a transfer of the table |
| App.App.constructor | src/App.php:19-34 | start-up leaves empty tables and exactly the nine platform accounts |
| App.App.EnsurePlatformAccounts | src/App.php:24-34 | the eleven calls leave the nine platform accounts |
| App.App.EnsureFeeAccounts | src/App.php:24-29 | the first six calls leave the cash, clearing, revenue, provider and VAT accounts |
| App.App.EnsureFundAccounts | src/App.php:30-34 | the last five calls add customer funds, settlement cash and the transfer accounts |
| App.App.FreshId | src/App.php:44-47 | the new id is unused by every table and differs from every later id |
| App.App.EnsureMerchantAccounts | src/App.php:59-63 | both merchant accounts are ensured as liabilities |
| App.App.CreateMerchant | src/App.php:68-80 | a blank name is refused; otherwise a new merchant with both accounts |
| App.App.CreatePaymentIntent | src/App.php:85-154 | fee mode checked first, then replay or key reuse, then validation; a new intent and key row otherwise |
| App.App.OpenIntent | src/App.php:114-151 | the merchant accounts, the created intent without a fee mode, and the key row |
| App.App.SimulateProviderWebhook | src/App.php:159-187 | the payment event table becomes what Intake says, with the matching response |
| App.App.SimulateTransferWebhook | src/App.php:786-814 | the transfer event table becomes what Intake says, with the matching response |
| App.App.ApplyPaymentSucceeded | src/App.php:229-321 | the tables it writes are as `App.SuccessWritten` says: a missing or succeeded intent is skipped; otherwise merchant-pays quote, raise on a fee error or zero net, else the intent succeeds and both journals post |
| App.App.CompletePayment | src/App.php:249-320 | the handler past its guards: the raise conditions exactly, and on success the new intent and the two journals |
| App.App.SetIntentStatus | src/App.php:269-270 | only that intent's status and update time change |
| App.App.PostSuccessJournals | src/App.php:273-318 | both journals post exactly when the net is positive; a zero net is refused as non-positive |
| App.App.ApplyChargeback | src/App.php:444-629 | the tables it writes are as `App.ChargebackWritten` says: missing, reversed or unknown intents are skipped; accounts are ensured before the status check; a succeeded intent is reversed as `App.ReversalWritten` says |
| App.App.ChargebackIntent | src/App.php:469-629 | the merchant accounts are ensured; a non-succeeded intent is skipped; a succeeded one is reversed |
| App.App.ReverseSucceeded | src/App.php:477-626 | the reversal posts exactly when the ledger accepts it, then the clawback, closed dispute, reversal row and failed intent |
| App.App.ReverseSucceededPayment | src/App.php:477-626 | the same as ReverseSucceeded, stated table by table |
| App.App.OpenDispute | src/App.php:504-518 | an opened chargeback dispute under a new id |
| App.App.CloseChargeback | src/App.php:610-626 | the reversal row, the dispute closed, the intent failed |
| App.App.PostChargebackJournals | src/App.php:591-607 | the reversal and clawback post exactly when the reversal is accepted |
| App.App.HandleProviderEvent | src/App.php:201-224 | an event that raises leaves every table as before and stays unprocessed; otherwise it is marked, and a success or chargeback event leaves the tables `App.SuccessWritten` or `App.ChargebackWritten` describes; unknown types only get marked |
| App.App.RestorePaymentTables | src/App.php:220-223 | the rollback puts the earlier contents back |
| App.App.MarkProviderEventProcessed | src/App.php:216-217 | only that event's processed flag is set |
| App.App.DispatchProviderEvent | src/App.php:208-214 | the handler raises exactly under the success or chargeback raise conditions; a success or chargeback event writes what `App.SuccessWritten` or `App.ChargebackWritten` says; unknown types change nothing |
| App.App.ProcessProviderEvents | src/App.php:192-227 | only events of the batch get marked, every batch event of an unhandled type is marked, and the count is at most the batch size |
| App.App.ProviderWorkerStep | src/App.php:201-224 | one batch step extends the marks to its position |
| App.App.Release | src/App.php:337-366 | validation, then the pending balance check, then the release journal under a new reference |
| App.App.Settle | src/App.php:371-442 | validation and the available balance check; past them a created settlement row, bank_outgoing ensured, and the unbalanced-journal error with nothing posted |
| App.App.CreateSettlement | src/App.php:389-401 | a created settlement row under a new id |
| App.App.CreateUser | src/App.php:643-658 | a blank name is refused; otherwise a new user with a liability wallet |
| App.App.EnsureWallet | src/App.php:633-636 | the user's wallet exists as a liability |
| App.App.FundWallet | src/App.php:660-682 | validation, then the wallet ensured and the funding journal posted, for any user id; the response carries the journal's position as its id |
| App.App.CreateTransfer | src/App.php:684-784 | replay or key reuse, validation, insufficient wallet with balance and need, else the new transfer, hold account, hold journal and key row |
| App.App.OpenTransfer | src/App.php:719-781 | the new transfer row, its hold account and journal, and the key row |
| App.App.InsertTransfer | src/App.php:719-744 | the transfer row under a new id, last in insertion order |
| App.App.HoldFunds | src/App.php:747-760 | the hold account is ensured and the hold journal posted |
| App.App.ApplyTransferEvent | src/App.php:878-1016 | the tables it writes are as `App.TransferEventWritten` says: skip conditions exactly; otherwise the transition's movement is posted and its status, reference and failure fields are written |
| App.App.PostMovement | src/App.php:919-1012 | the movement's journal, or none for a status-only event |
| App.App.HandleTransferEvent | src/App.php:825-845 | the event is always marked; a recognised type writes what `App.TransferEventWritten` says, nothing when skipped; an unrecognised type writes nothing else |
| App.App.ProcessTransferEvents | src/App.php:816-848 | exactly the batch is marked processed and the count is at most its size |
| App.App.SubmitTransfer | src/App.php:1018-1062 | the id, existence and held-or-unknown checks; submitted mode records the derived reference, any other mode `unknown`; the first submission time is kept |
| App.App.PollUnknownTransfers | src/App.php:1083-1175 | the report and the tables are those of PollAll over the selected rows; with events generated, the worker's batch is marked |
| App.App.PollRows | src/App.php:1104-1163 | the loop equals the fold PollAll |
| App.App.PollTransfer | src/App.php:1104-1163 | one row equals PollOne |
| App.App.SetTransferRow | src/App.php:1110-1125 | only that row changes |
| App.App.EnqueuePollEvent | src/App.php:1144-1151 | the poll's webhook goes through the transfer intake and one id suffix is used |

## Left out

- HTTP routing, JSON decoding and the database layer (`public/index.php`, `src/Http/Router.php`, `src/Db/*`) are not part of this model. Each table is a field. A request body of the two idempotent endpoints is a record of the members the engine reads, plus `others`, a map holding every other member by name.
- The clock: every operation takes the time as its `now` parameter. Timestamps are integers (seconds), not ISO-8601 strings.
- Random ids: uuids and `random_bytes` come from one counter written in decimal. Only their uniqueness is modelled. The poller's random 4-byte suffix is the counter too.
- Request hashing: the source hashes the whole `json_encode($body)` (src/App.php:87, 686); the model compares the whole body record, `others` included, so two bodies hash alike exactly when they are equal as records. Two differences remain. The order of members: a retry that only reorders the members is refused as key reuse by the source but replayed by the model. The JSON type of a member: the source tells `"100"` from `100`, while the model holds a read member with one type and every unread member as a string, so it cannot express such a difference. Both endpoints share one body record, so a key reused across the two endpoints with an identical body replays the other endpoint's response, as the source does.
- PHP casts of request and payload members are not modelled: the casts to int or string, and the `(bool)` cast of `refund_provider_fee` (src/App.php:450), under which a string such as `"false"` is true. A member is present with its type or absent.
- The chargeback's float arithmetic, `(int) floor($amount * 0.015)` and `(int) floor($amount * 0.010)` (src/App.php:477-478), is modelled as integer floors. This is exact below about 4·10^15 kobo. Above that the doubles can differ: for 4935160471046333 the source computes 74027407065695, the model 74027407065694. The float rounding of such amounts is not modelled.
- Integer overflow is modelled only in `percentBps`, where `amount * bps` beyond a 64-bit PHP integer becomes a float that the typed `div` refuses. The other sums are unbounded.
- Nested PDO transactions. Each worker event is modelled as one atomic unit in which `post` runs without a transaction of its own. As written, `Ledger::post` calls `beginTransaction` (src/Ledger/Ledger.php:63) inside the transaction the worker has already opened (src/App.php:206, 830), which PDO refuses with an exception. So in the source every handler that posts a journal raises, is rolled back, and leaves its event unprocessed: payment success, chargeback, credit confirmation and both refunds. The model describes the intended behaviour of these handlers instead. Concurrency between workers or requests is not modelled either.
- The `balances` endpoint (src/App.php:328-332) is read-only and left out.
- `providerQueryTransfer` (src/App.php:1067-1081) is left out. The provider's answers are the `results` parameter of the poll.
- Unreachable code is not written as code: the corrective settlement journal and status `paid` (src/App.php:428-441), and the chargeback's fees-exceed-amount check, which no non-negative amount triggers.
- The transfer worker's rollback branch (src/App.php:842-844) is not modelled. In the model no transfer handler raises, since every movement it posts is accepted. In the source this branch is taken by every event that moves money, as the line on nested transactions explains.
- Equal `created_at` or `updated_at` values are ordered by insertion (row position). SQLite leaves that order unspecified.
- The status `reversal_initiated` is never set by any handler. It appears only in a guard.
- Row ids of the idempotency, event, reversal and journal tables: an event is identified by its position, a reversal by its intent, and a journal by its position in the journal table. `App.App.FundWallet` therefore returns that position where the source returns the journal's uuid (src/App.php:671-681).
- Non-negative merchant payable balances are not proved as an invariant of the engine. `App.ChargebackPlanPostable` takes them as a hypothesis.
- App.App.ProcessProviderEvents: states which events may be marked, and that events of unhandled types are. It does not state that a handled event whose handler succeeds ends up marked, nor every handler's effect across the batch. Each event's effect is stated by `App.App.HandleProviderEvent`.
- App.App.ProcessTransferEvents: states the marks and the count bound, not the combined effect of the handlers. Each event's effect is stated by `App.App.HandleTransferEvent`.
- App.App.PollUnknownTransfers: when events were generated, states only the marks the transfer worker leaves, not the transfers and ledger after it.
