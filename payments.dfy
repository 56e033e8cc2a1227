/**
 * The pure arithmetic of the payment flow: the fee quote computed when a
 * payment succeeds, the two journals it posts, and the fee split and
 * reversal journal of a chargeback.
 */
module Payments {
  import opened Outcomes
  import opened Rounding
  import opened FeePolicy
  import opened Ledger
  import opened Accounts

  const MERCHANT_PAYS: string := "merchant_pays"
  const CUSTOMER_PAYS: string := "customer_pays"

  /** The fee modes a payment intent request may name. */
  predicate KnownFeeMode(mode: string) {
    mode == MERCHANT_PAYS || mode == CUSTOMER_PAYS
  }

  /** The fees of a successful payment, what the customer is charged and what the merchant is owed. */
  datatype Quote = Quote(platformFee: int, vat: int, providerFee: int, totalCollected: int, merchantNet: int) {
    function Fees(): int { platformFee + vat + providerFee }
  }

  /** Why a quote cannot be made: a fee function raised, or the fees exceed the amount. */
  datatype QuoteError = FeeArgument(cause: ArgumentError) | FeesExceedAmount

  /**
   * What the success handler computes: the three fees, then the split for the
   * fee mode. Any mode other than `merchant_pays` is treated as customer pays.
   */
  function QuotePayment(amount: int, feeMode: string): (r: Result<Quote, QuoteError>)
    ensures r.Ok? ==> r.value.merchantNet >= 0 && r.value.merchantNet + r.value.Fees() == r.value.totalCollected
    ensures r.Ok? ==> r.value.platformFee >= 0 && r.value.vat >= 0 && r.value.providerFee >= 0
  {
    match PlatformFee(amount)
    case Err(e) => Err(FeeArgument(e))
    case Ok(pf) =>
      match VatOnPlatformFee(pf)
      case Err(e) => Err(FeeArgument(e))
      case Ok(vat) =>
        match ProviderFee(amount)
        case Err(e) => Err(FeeArgument(e))
        case Ok(prov) =>
          var total := if feeMode == MERCHANT_PAYS then amount else amount + (pf + vat + prov);
          var net := if feeMode == MERCHANT_PAYS then amount - (pf + vat + prov) else amount;
          if net < 0 then Err(FeesExceedAmount)
          else Ok(Quote(pf, vat, prov, total, net))
  }

  /** The bounds on the three fees that the split identities rest on. */
  lemma FeeBounds(amount: int)
    requires Feeable(amount)
    ensures var pf := PlatformFee(amount).value;
            var vat := VatOnPlatformFee(pf).value;
            var prov := ProviderFee(amount).value;
            && 0 <= pf && pf * 10000 <= amount * 150
            && 0 <= vat <= pf
            && 0 <= prov && prov * 10000 <= amount * 100 + 9999
  {
    PlatformFeeFormula(amount);
    ProviderFeeFormula(amount);
    var pf := PlatformFee(amount).value;
    VatFormula(pf);
  }

  /**
   * Merchant pays: for every amount of at least one kobo the customer is
   * charged the amount, the merchant's net is never negative, and net plus
   * the fees is the amount.
   */
  lemma MerchantPaysIdentity(amount: int)
    requires 1 <= amount && Feeable(amount)
    ensures QuotePayment(amount, MERCHANT_PAYS).Ok?
    ensures var q := QuotePayment(amount, MERCHANT_PAYS).value;
            && q.totalCollected == amount
            && q.merchantNet == amount - q.Fees() >= 0
            && q.merchantNet + q.Fees() == amount
  {
    FeeBounds(amount);
    FeesDefined(amount);
    var pf := PlatformFee(amount).value;
    var vat := VatOnPlatformFee(pf).value;
    var prov := ProviderFee(amount).value;
    if amount == 1 {
      assert pf == 0 && vat == 0 && prov == 1;
    } else {
      assert (pf + vat + prov) * 10000 <= amount * 400 + 9999;
    }
  }

  /** Customer pays: the merchant's net is the amount and the customer is charged the amount plus the fees. */
  lemma CustomerPaysIdentity(amount: int)
    requires Feeable(amount)
    ensures QuotePayment(amount, CUSTOMER_PAYS).Ok?
    ensures var q := QuotePayment(amount, CUSTOMER_PAYS).value;
            && q.merchantNet == amount
            && q.totalCollected == amount + q.Fees()
            && q.merchantNet + q.Fees() == q.totalCollected
  {
    FeeBounds(amount);
    FeesDefined(amount);
  }

  /** Any fee mode other than `merchant_pays`, known or not, quotes as customer pays. */
  lemma OtherModesQuoteAsCustomerPays(amount: int, feeMode: string)
    requires feeMode != MERCHANT_PAYS
    ensures QuotePayment(amount, feeMode) == QuotePayment(amount, CUSTOMER_PAYS)
  {
  }

  /** A quote raises exactly when the fee functions do: for a negative amount, or one too large for `amount * 150`. */
  lemma QuoteFailsOnlyOnFeeErrors(amount: int, feeMode: string)
    requires amount >= 1
    ensures QuotePayment(amount, feeMode).Ok? <==> Feeable(amount)
    ensures amount > PHP_INT_MAX / PLATFORM_FEE_BPS ==> QuotePayment(amount, feeMode) == Err(FeeArgument(NotAnInteger))
  {
    FeesDefined(amount);
    if Feeable(amount) {
      if feeMode == MERCHANT_PAYS {
        MerchantPaysIdentity(amount);
      } else {
        CustomerPaysIdentity(amount);
      }
    }
  }

  // ----- the two journals of a successful payment -----

  /** Journal A: the collected cash and the liability that holds it. */
  function CollectionLines(q: Quote): seq<Line> {
    [Line(PLATFORM_CASH, Debit, q.totalCollected), Line(CUSTOMER_FUNDS, Credit, q.totalCollected)]
  }

  /** Journal B: the held funds are distributed; the merchant line is always present, each fee line only when positive. */
  function AllocationLines(merchantId: string, q: Quote): seq<Line> {
    [Line(CUSTOMER_FUNDS, Debit, q.totalCollected), Line(AcctPending(merchantId), Credit, q.merchantNet)]
    + (if q.platformFee > 0 then [Line(PLATFORM_REVENUE, Credit, q.platformFee)] else [])
    + (if q.vat > 0 then [Line(VAT_PAYABLE, Credit, q.vat)] else [])
    + (if q.providerFee > 0 then [Line(PROVIDER_PAYABLE, Credit, q.providerFee)] else [])
  }

  /** A line list with an optional tail adds that tail's weight. */
  lemma LineSumOptional(lines: seq<Line>, present: bool, l: Line, account: Option<string>, dc: Dir)
    ensures LineSum(lines + (if present then [l] else []), account, dc)
            == LineSum(lines, account, dc) + (if present then LineWeight(l, account, dc) else 0)
  {
    if present {
      assert (lines + [l])[..|lines + [l]| - 1] == lines;
    } else {
      assert lines + [] == lines;
    }
  }

  /** A quote whose fees are non-negative and add up with the net to what was collected. */
  predicate WellFormed(q: Quote) {
    q.platformFee >= 0 && q.vat >= 0 && q.providerFee >= 0 && q.merchantNet >= 0
    && q.merchantNet + q.Fees() == q.totalCollected
  }

  /** The allocation journal's total in one direction, line by line. */
  lemma AllocationSum(merchantId: string, q: Quote, dc: Dir)
    ensures LineSum(AllocationLines(merchantId, q), None, dc)
            == LineWeight(Line(CUSTOMER_FUNDS, Debit, q.totalCollected), None, dc)
               + LineWeight(Line(AcctPending(merchantId), Credit, q.merchantNet), None, dc)
               + Opt(q.platformFee > 0, LineWeight(Line(PLATFORM_REVENUE, Credit, q.platformFee), None, dc))
               + Opt(q.vat > 0, LineWeight(Line(VAT_PAYABLE, Credit, q.vat), None, dc))
               + Opt(q.providerFee > 0, LineWeight(Line(PROVIDER_PAYABLE, Credit, q.providerFee), None, dc))
  {
    var base := [Line(CUSTOMER_FUNDS, Debit, q.totalCollected), Line(AcctPending(merchantId), Credit, q.merchantNet)];
    var l1 := base + (if q.platformFee > 0 then [Line(PLATFORM_REVENUE, Credit, q.platformFee)] else []);
    var l2 := l1 + (if q.vat > 0 then [Line(VAT_PAYABLE, Credit, q.vat)] else []);
    LineSumOptional(base, q.platformFee > 0, Line(PLATFORM_REVENUE, Credit, q.platformFee), None, dc);
    LineSumOptional(l1, q.vat > 0, Line(VAT_PAYABLE, Credit, q.vat), None, dc);
    LineSumOptional(l2, q.providerFee > 0, Line(PROVIDER_PAYABLE, Credit, q.providerFee), None, dc);
    LineSumOfTwo(base[0], base[1], None, dc);
  }

  /** The allocation journal's credits sum to what was collected, which is its single debit. */
  lemma AllocationBalanced(merchantId: string, q: Quote)
    requires WellFormed(q)
    ensures LineSum(AllocationLines(merchantId, q), None, Debit) == q.totalCollected
    ensures LineSum(AllocationLines(merchantId, q), None, Credit) == q.totalCollected
    ensures Balanced(AllocationLines(merchantId, q))
  {
    AllocationSum(merchantId, q, Debit);
    AllocationSum(merchantId, q, Credit);
  }

  /** Every line of the allocation journal except the merchant's is positive once something was collected. */
  lemma AllocationPostable(merchantId: string, q: Quote)
    requires WellFormed(q) && q.totalCollected > 0
    ensures Postable(AllocationLines(merchantId, q)) <==> q.merchantNet > 0
    ensures Postable(CollectionLines(q))
  {
    AllocationBalanced(merchantId, q);
    TransferLines(PLATFORM_CASH, CUSTOMER_FUNDS, q.totalCollected);
    var lines := AllocationLines(merchantId, q);
    assert lines[1] == Line(AcctPending(merchantId), Credit, q.merchantNet);
    if q.merchantNet > 0 {
      forall i | 0 <= i < |lines| ensures lines[i].amount > 0 {
      }
    }
  }

  /** The journals of a successful payment can both be posted exactly when the merchant's net is positive. */
  lemma SuccessJournalsPostable(merchantId: string, amount: int, feeMode: string)
    requires amount >= 1 && QuotePayment(amount, feeMode).Ok?
    ensures var q := QuotePayment(amount, feeMode).value;
            && Postable(CollectionLines(q))
            && (Postable(AllocationLines(merchantId, q)) <==> q.merchantNet > 0)
  {
    var q := QuotePayment(amount, feeMode).value;
    AllocationPostable(merchantId, q);
  }

  /**
   * A one-kobo merchant-pays payment has a zero net (the 1-kobo provider fee
   * eats it), so its allocation journal carries a zero line and is rejected.
   */
  lemma OneKoboMerchantPaysRejected(merchantId: string)
    ensures QuotePayment(1, MERCHANT_PAYS) == Ok(Quote(0, 0, 1, 1, 0))
    ensures !AllPositive(AllocationLines(merchantId, Quote(0, 0, 1, 1, 0)))
  {
    assert PlatformFee(1) == Ok(0) && VatOnPlatformFee(0) == Ok(0) && ProviderFee(1) == Ok(1);
    assert AllocationLines(merchantId, Quote(0, 0, 1, 1, 0))[1].amount == 0;
  }

  /** Two kobo is the smallest merchant-pays payment whose journals post. */
  lemma TwoKoboMerchantPaysPostable(merchantId: string)
    ensures QuotePayment(2, MERCHANT_PAYS) == Ok(Quote(0, 0, 1, 2, 1))
    ensures Postable(AllocationLines(merchantId, Quote(0, 0, 1, 2, 1)))
  {
    assert PlatformFee(2) == Ok(0) && VatOnPlatformFee(0) == Ok(0) && ProviderFee(2) == Ok(1);
    AllocationPostable(merchantId, Quote(0, 0, 1, 2, 1));
  }

  // ----- chargeback -----

  /** The fees a chargeback recomputes: 1.5% and 1%, both rounded down, with no cap and no VAT. */
  datatype ChargebackFees = ChargebackFees(platformFee: int, providerFee: int, merchantNet: int)

  function ChargebackFeesOf(amount: int): (f: ChargebackFees)
    requires amount >= 0
    ensures 0 <= f.platformFee && f.platformFee * 1000 <= amount * 15 < (f.platformFee + 1) * 1000
    ensures 0 <= f.providerFee && f.providerFee * 100 <= amount < (f.providerFee + 1) * 100
    ensures f.merchantNet == amount - f.platformFee - f.providerFee >= 0
  {
    var pf := amount * 15 / 1000;
    var prov := amount / 100;
    ChargebackFeeBound(amount, pf, prov);
    ChargebackFees(pf, prov, amount - pf - prov)
  }

  lemma ChargebackFeeBound(amount: int, pf: int, prov: int)
    requires amount >= 0 && pf == amount * 15 / 1000 && prov == amount / 100
    ensures pf * 1000 <= amount * 15 < (pf + 1) * 1000 && prov * 100 <= amount < (prov + 1) * 100
    ensures pf + prov <= amount
  {
  }

  /** Where a chargeback takes the merchant's share back from. */
  datatype Split = Split(fromPending: int, fromAvailable: int, receivable: int)

  /** Pending first, then available; whatever is left becomes a receivable from the merchant. */
  function SplitChargeback(merchantNet: int, pendingBalance: int, availableBalance: int): (s: Split)
    ensures s.fromPending + s.fromAvailable + s.receivable == merchantNet
  {
    var fromPending := Min(merchantNet, pendingBalance);
    var remaining := merchantNet - fromPending;
    var fromAvailable := Min(remaining, availableBalance);
    Split(fromPending, fromAvailable, remaining - fromAvailable)
  }

  /**
   * With balances that are not negative, each part is between zero and the
   * balance it draws on, and a later bucket is used only once the earlier ones
   * are exhausted.
   */
  lemma SplitSound(merchantNet: int, pendingBalance: int, availableBalance: int)
    requires merchantNet >= 0 && pendingBalance >= 0 && availableBalance >= 0
    ensures var s := SplitChargeback(merchantNet, pendingBalance, availableBalance);
            && 0 <= s.fromPending <= pendingBalance
            && 0 <= s.fromAvailable <= availableBalance
            && 0 <= s.receivable
            && (s.fromAvailable > 0 ==> s.fromPending == pendingBalance)
            && (s.receivable > 0 ==> s.fromPending == pendingBalance && s.fromAvailable == availableBalance)
            && (merchantNet <= pendingBalance ==> s == Split(merchantNet, 0, 0))
  {
  }

  /** The reversal of the allocation journal: each debit is written only when positive, then the single credit of the amount. */
  function ReversalLines(merchantId: string, amount: int, fees: ChargebackFees, s: Split, refundProviderFee: bool): seq<Line> {
    KeepPositive(ReversalDebits(merchantId, fees, s, refundProviderFee)) + [Line(CUSTOMER_FUNDS, Credit, amount)]
  }

  /** The debits the reversal may write, in the order the chargeback handler considers them. */
  function ReversalDebits(merchantId: string, fees: ChargebackFees, s: Split, refundProviderFee: bool): seq<Line> {
    [Line(AcctPending(merchantId), Debit, s.fromPending),
     Line(AcctAvailable(merchantId), Debit, s.fromAvailable),
     Line(MERCHANT_RECEIVABLE, Debit, s.receivable),
     Line(PLATFORM_REVENUE, Debit, fees.platformFee),
     ProviderFeeLine(fees, refundProviderFee)]
  }

  /** The lines whose amount is positive, in their order. */
  function KeepPositive(lines: seq<Line>): (kept: seq<Line>)
    ensures AllPositive(kept)
  {
    if lines == [] then []
    else
      var last := lines[|lines| - 1];
      KeepPositive(lines[..|lines| - 1]) + (if last.amount > 0 then [last] else [])
  }

  /** Dropping lines of amount zero changes no total. */
  lemma {:induction false} KeepPositiveSum(lines: seq<Line>, account: Option<string>, dc: Dir)
    requires forall i :: 0 <= i < |lines| ==> lines[i].amount >= 0
    ensures LineSum(KeepPositive(lines), account, dc) == LineSum(lines, account, dc)
    decreases |lines|
  {
    if lines != [] {
      var init := lines[..|lines| - 1];
      var last := lines[|lines| - 1];
      KeepPositiveSum(init, account, dc);
      LineSumOptional(KeepPositive(init), last.amount > 0, last, account, dc);
    }
  }

  /** The provider fee is debited back to the provider when it refunds it, and to a loss account otherwise. */
  function ProviderFeeLine(fees: ChargebackFees, refundProviderFee: bool): Line {
    Line(if refundProviderFee then PROVIDER_PAYABLE else CHARGEBACK_LOSS, Debit, fees.providerFee)
  }

  /** The reversal of the collection journal: the provider claws the cash back. */
  function ClawbackLines(amount: int): seq<Line> {
    [Line(CUSTOMER_FUNDS, Debit, amount), Line(PLATFORM_CASH, Credit, amount)]
  }

  /** Weight of an optional line. */
  function Opt(present: bool, v: int): int { if present then v else 0 }

  /** The five candidate debits total the split and both fees. */
  lemma ReversalDebitsSum(merchantId: string, fees: ChargebackFees, s: Split, refundProviderFee: bool)
    ensures LineSum(ReversalDebits(merchantId, fees, s, refundProviderFee), None, Debit)
            == s.fromPending + s.fromAvailable + s.receivable + fees.platformFee + fees.providerFee
    ensures LineSum(ReversalDebits(merchantId, fees, s, refundProviderFee), None, Credit) == 0
  {
    var d := ReversalDebits(merchantId, fees, s, refundProviderFee);
    assert d == [d[0], d[1], d[2]] + [d[3], d[4]];
    forall dc | dc == Debit || dc == Credit
      ensures LineSum(d, None, dc) == LineWeight(d[0], None, dc) + LineWeight(d[1], None, dc) + LineWeight(d[2], None, dc)
                                      + LineWeight(d[3], None, dc) + LineWeight(d[4], None, dc)
    {
      LineSumAppend([d[0], d[1], d[2]], [d[3], d[4]], None, dc);
      LineSumOfThree(d[0], d[1], d[2], None, dc);
      LineSumOfTwo(d[3], d[4], None, dc);
    }
  }

  /**
   * When the split's parts are not negative, the reversal journal's debits add
   * up to the amount, its single credit, and it can be posted whenever the
   * amount is positive.
   */
  lemma ReversalBalanced(merchantId: string, amount: int, s: Split, refundProviderFee: bool)
    requires amount >= 0
    requires var f := ChargebackFeesOf(amount);
             s.fromPending >= 0 && s.fromAvailable >= 0 && s.receivable >= 0
             && s.fromPending + s.fromAvailable + s.receivable == f.merchantNet
    ensures var lines := ReversalLines(merchantId, amount, ChargebackFeesOf(amount), s, refundProviderFee);
            && LineSum(lines, None, Debit) == amount
            && LineSum(lines, None, Credit) == amount
            && (Postable(lines) <==> amount > 0)
  {
    var f := ChargebackFeesOf(amount);
    var d := ReversalDebits(merchantId, f, s, refundProviderFee);
    var c := Line(CUSTOMER_FUNDS, Credit, amount);
    ReversalDebitsSum(merchantId, f, s, refundProviderFee);
    KeepPositiveSum(d, None, Debit);
    KeepPositiveSum(d, None, Credit);
    LineSumOptional(KeepPositive(d), true, c, None, Debit);
    LineSumOptional(KeepPositive(d), true, c, None, Credit);
    var lines := KeepPositive(d) + [c];
    assert lines[|lines| - 1] == c;
    assert AllPositive(lines) <==> amount > 0;
  }

  /**
   * The chargeback does not undo the success journals line for line: for a
   * 5000-naira payment the success path credits the merchant 486938 kobo but
   * the chargeback takes 487500 back, because it drops the VAT; above the cap
   * the platform fees differ as well.
   */
  lemma ChargebackFeesDiffer()
    ensures QuotePayment(500_000, MERCHANT_PAYS) == Ok(Quote(7_500, 562, 5_000, 500_000, 486_938))
    ensures ChargebackFeesOf(500_000) == ChargebackFees(7_500, 5_000, 487_500)
    ensures PlatformFee(100_000_000) == Ok(200_000) && ChargebackFeesOf(100_000_000).platformFee == 1_500_000
  {
    FeeExamples();
  }
}
