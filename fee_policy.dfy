/**
 * The payment fee policy of `App\Fee\FeePolicy`: a capped platform fee, VAT
 * on the platform fee only, and a provider fee rounded up.
 */
module FeePolicy {
  import opened Outcomes
  import opened Rounding

  const PLATFORM_FEE_BPS: int := 150   // 1.5%
  const PROVIDER_FEE_BPS: int := 100   // 1.0%
  const VAT_BPS: int := 750            // 7.5%
  const PLATFORM_FEE_CAP: int := 200_000

  const PLATFORM_FEE_ROUNDING: string := FLOOR
  const PROVIDER_FEE_ROUNDING: string := CEIL
  const VAT_ROUNDING: string := FLOOR

  function PlatformFee(amount: int): (r: Result<int, ArgumentError>)
    ensures r.Ok? ==> 0 <= r.value <= PLATFORM_FEE_CAP
  {
    match PercentBps(amount, PLATFORM_FEE_BPS, PLATFORM_FEE_ROUNDING)
    case Ok(fee) => Ok(if fee < PLATFORM_FEE_CAP then fee else PLATFORM_FEE_CAP)
    case Err(e) => Err(e)
  }

  /** The provider's fee, 1% rounded up; it never exceeds the amount. */
  function ProviderFee(amount: int): (r: Result<int, ArgumentError>)
    ensures r.Ok? ==> 0 <= r.value <= amount
  {
    PercentBps(amount, PROVIDER_FEE_BPS, PROVIDER_FEE_ROUNDING)
  }

  /** VAT on the platform fee, 7.5% rounded down; it never exceeds that fee. */
  function VatOnPlatformFee(platformFee: int): (r: Result<int, ArgumentError>)
    ensures r.Ok? ==> 0 <= r.value <= platformFee
  {
    PercentBps(platformFee, VAT_BPS, VAT_ROUNDING)
  }

  /** Amounts whose fees can be computed: non-negative and small enough that `amount * 150` stays a PHP integer. */
  predicate Feeable(amount: int) {
    0 <= amount && amount * PLATFORM_FEE_BPS <= PHP_INT_MAX
  }

  /** The platform fee is 1.5% rounded down, capped at 200000. */
  lemma PlatformFeeFormula(amount: int)
    requires Feeable(amount)
    ensures PlatformFee(amount) == Ok(Min(amount * 150 / 10000, PLATFORM_FEE_CAP))
  {
  }

  function Min(a: int, b: int): int { if a < b then a else b }

  /** The provider fee is 1% rounded up, so it is at least 1 for every positive amount. */
  lemma ProviderFeeFormula(amount: int)
    requires Feeable(amount)
    ensures ProviderFee(amount) == Ok((amount * 100 + 9999) / 10000)
    ensures amount >= 1 ==> ProviderFee(amount).value >= 1
  {
    DivCeil(amount * 100, 10000);
  }

  /** VAT is 7.5% of the platform fee, rounded down; it depends on that fee alone and never exceeds it. */
  lemma VatFormula(platformFee: int)
    requires 0 <= platformFee <= PLATFORM_FEE_CAP
    ensures VatOnPlatformFee(platformFee) == Ok(platformFee * 750 / 10000)
    ensures VatOnPlatformFee(platformFee).value <= platformFee
  {
  }

  /** Every fee of a feeable amount is defined, and a fee is defined only for such an amount. */
  lemma FeesDefined(amount: int)
    ensures PlatformFee(amount).Ok? <==> Feeable(amount)
    ensures Feeable(amount) ==> ProviderFee(amount).Ok? && VatOnPlatformFee(PlatformFee(amount).value).Ok?
  {
  }

  /** A negative amount makes every fee raise, through the precondition of `PercentBps`. */
  lemma NegativeAmountFails(amount: int)
    requires amount < 0
    ensures PlatformFee(amount) == Err(AmountNegative)
    ensures ProviderFee(amount) == Err(AmountNegative)
    ensures VatOnPlatformFee(amount) == Err(AmountNegative)
  {
  }

  /** The worked values: the cap at 100,000,000; VAT on 7500 is 562; the provider fee on 1 is 1. */
  lemma FeeExamples()
    ensures PlatformFee(100_000_000) == Ok(200_000)
    ensures PlatformFee(500_000) == Ok(7_500) && VatOnPlatformFee(7_500) == Ok(562)
    ensures ProviderFee(1) == Ok(1)
  {
  }
}
