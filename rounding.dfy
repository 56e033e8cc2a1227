/**
 * Integer division with an explicit rounding rule, and percentages in basis
 * points, as in `App\Money\Rounding`. Rounding modes are the strings the
 * source compares against; any other string is an unknown mode.
 */
module Rounding {
  import opened Outcomes

  const FLOOR: string := "floor"
  const CEIL: string := "ceil"
  const HALF_UP: string := "half_up"

  /** 10000 basis points make 100%. */
  const BPS_PER_UNIT: int := 10000

  /** The largest PHP integer on a 64-bit build; a product above it is a float. */
  const PHP_INT_MAX: int := 0x7FFF_FFFF_FFFF_FFFF

  /** The exceptions `div` and `percentBps` raise. */
  datatype ArgumentError =
    | DenominatorNotPositive
    | NumeratorNegative
    | UnknownMode(mode: string)
    | AmountNegative
    | BpsNegative
      /** `amount * bps` overflowed to a float, which the strictly typed `div` refuses. */
    | NotAnInteger

  predicate KnownMode(mode: string) {
    mode == FLOOR || mode == CEIL || mode == HALF_UP
  }

  /**
   * `numerator / denominator` rounded by `mode`. For a non-negative numerator
   * and a positive denominator PHP's `intdiv` and `%` agree with Dafny's.
   */
  function Div(numerator: int, denominator: int, mode: string): (r: Result<int, ArgumentError>)
    ensures r.Ok? ==> r.value >= 0
  {
    if denominator <= 0 then Err(DenominatorNotPositive)
    else if numerator < 0 then Err(NumeratorNegative)
    else
      var q := numerator / denominator;
      var rem := numerator % denominator;
      if rem == 0 then Ok(q)
      else if mode == FLOOR then Ok(q)
      else if mode == CEIL then Ok(q + 1)
      else if mode == HALF_UP then Ok(if rem * 2 >= denominator then q + 1 else q)
      else Err(UnknownMode(mode))
  }

  /** `amount` times `bps` basis points, rounded by `mode`. */
  function PercentBps(amount: int, bps: int, mode: string): (r: Result<int, ArgumentError>)
    ensures r.Ok? ==> r.value >= 0
  {
    if amount < 0 then Err(AmountNegative)
    else if bps < 0 then Err(BpsNegative)
    else if amount * bps > PHP_INT_MAX then Err(NotAnInteger)
    else Div(amount * bps, BPS_PER_UNIT, mode)
  }

  // ----- properties of Div -----

  /** Exactly which arguments make `Div` raise, and which error it raises. */
  lemma DivFails(n: int, d: int, mode: string)
    ensures Div(n, d, mode).Err? <==> d <= 0 || n < 0 || (n % d != 0 && !KnownMode(mode))
    ensures d <= 0 ==> Div(n, d, mode) == Err(DenominatorNotPositive)
    ensures d > 0 && n < 0 ==> Div(n, d, mode) == Err(NumeratorNegative)
    ensures d > 0 && n >= 0 && n % d != 0 && !KnownMode(mode) ==> Div(n, d, mode) == Err(UnknownMode(mode))
  {
  }

  /** Exact division needs no rounding, whatever the mode, even an unknown one. */
  lemma DivExact(n: int, d: int, mode: string)
    requires d > 0 && n >= 0 && n % d == 0
    ensures Div(n, d, mode).Ok? && d * Div(n, d, mode).value == n
  {
    DivisionFacts(n, d);
  }

  /** The facts about `/` and `%` the lemmas below rely on. */
  lemma DivisionFacts(n: int, d: int)
    requires d > 0 && n >= 0
    ensures n == d * (n / d) + n % d && 0 <= n % d < d
    ensures d * (n / d) <= n < d * (n / d + 1)
  {
  }

  /** FLOOR returns the largest q with d * q <= n. */
  lemma DivFloor(n: int, d: int)
    requires d > 0 && n >= 0
    ensures Div(n, d, FLOOR).Ok?
    ensures var q := Div(n, d, FLOOR).value; d * q <= n < d * (q + 1)
  {
    DivisionFacts(n, d);
  }

  /** CEIL adds one to the quotient exactly when the remainder is nonzero; the result is the least q with n <= d * q. */
  lemma DivCeil(n: int, d: int)
    requires d > 0 && n >= 0
    ensures Div(n, d, CEIL) == Ok(if n % d == 0 then n / d else n / d + 1)
    ensures var q := Div(n, d, CEIL).value; d * (q - 1) < n <= d * q
  {
    DivisionFacts(n, d);
    var q := n / d;
    if n % d != 0 {
      assert d * (q + 1) == d * q + d;
    }
  }

  /** HALF_UP rounds up exactly when twice the remainder reaches the denominator. */
  lemma DivHalfUp(n: int, d: int)
    requires d > 0 && n >= 0
    ensures Div(n, d, HALF_UP) == Ok(if 2 * (n % d) >= d then n / d + 1 else n / d)
  {
  }

  /** For the same arguments FLOOR <= HALF_UP <= CEIL <= FLOOR + 1. */
  lemma DivModesOrdered(n: int, d: int)
    requires d > 0 && n >= 0
    ensures Div(n, d, FLOOR).Ok? && Div(n, d, HALF_UP).Ok? && Div(n, d, CEIL).Ok?
    ensures Div(n, d, FLOOR).value <= Div(n, d, HALF_UP).value <= Div(n, d, CEIL).value <= Div(n, d, FLOOR).value + 1
  {
  }

  // ----- properties of PercentBps -----

  /** `PercentBps` raises for a negative amount or rate, and otherwise is `Div(amount * bps, 10000, mode)` while the product fits a PHP integer. */
  lemma PercentBpsIsDiv(amount: int, bps: int, mode: string)
    ensures amount < 0 ==> PercentBps(amount, bps, mode) == Err(AmountNegative)
    ensures amount >= 0 && bps < 0 ==> PercentBps(amount, bps, mode) == Err(BpsNegative)
    ensures amount >= 0 && bps >= 0 && amount * bps <= PHP_INT_MAX ==>
              PercentBps(amount, bps, mode) == Div(amount * bps, BPS_PER_UNIT, mode)
    ensures amount >= 0 && bps >= 0 && amount * bps > PHP_INT_MAX ==> PercentBps(amount, bps, mode) == Err(NotAnInteger)
  {
  }

  /** The worked values: 1.5% of 500000 is 7500; 1% of 1 is 0 down and 1 up. */
  lemma PercentBpsExamples()
    ensures PercentBps(500_000, 150, FLOOR) == Ok(7500)
    ensures PercentBps(1, 100, FLOOR) == Ok(0)
    ensures PercentBps(1, 100, CEIL) == Ok(1)
    ensures Div(10, 3, FLOOR) == Ok(3) && Div(10, 3, CEIL) == Ok(4)
    ensures Div(10, 4, HALF_UP) == Ok(3) && Div(9, 4, HALF_UP) == Ok(2) && Div(11, 4, HALF_UP) == Ok(3)
    ensures Div(10, 0, FLOOR).Err? && PercentBps(-1, 100, FLOOR).Err?
  {
  }
}
