/** The flat transfer fee of `App\Fee\TransferFeePolicy`. */
module TransferFeePolicy {

  const FLAT_TRANSFER_FEE: int := 1_000

  /** The fee for a transfer of `amount`; the amount does not matter. */
  function TransferFee(amount: int): (fee: int)
    ensures fee > 0
  {
    FLAT_TRANSFER_FEE
  }

  /** The fee is the same for every amount. */
  lemma FeeIgnoresAmount(a: int, b: int)
    ensures TransferFee(a) == TransferFee(b) == 1_000
  {
  }

  /** The total a transfer holds, amount plus fee, always exceeds the amount; 500000 holds 501000. */
  lemma HoldExceedsAmount(amount: int)
    ensures amount + TransferFee(amount) > amount
    ensures 500_000 + TransferFee(500_000) == 501_000
  {
  }
}
