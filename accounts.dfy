/**
 * Account names used by the reconciliation engine: the fixed platform
 * accounts created at start-up, and the per-merchant, per-user and
 * per-transfer accounts named "<bucket>:<entity id>".
 */
module Accounts {
  import opened Ledger

  const PLATFORM_CASH: string := "platform_cash"
  const PROVIDER_CLEARING: string := "provider_clearing"
  const PLATFORM_REVENUE: string := "platform_revenue"
  const PROVIDER_PAYABLE: string := "provider_payable"
  const VAT_PAYABLE: string := "vat_payable"
  const CUSTOMER_FUNDS: string := "customer_funds"
  const PLATFORM_SETTLEMENT_CASH: string := "platform_settlement_cash"
  const TRANSFER_FEE_REVENUE: string := "transfer_fee_revenue"
  const PROVIDER_FEE_PAYABLE: string := "provider_fee_payable"
  /** Ensured by `settle` before its payout journal. */
  const BANK_OUTGOING: string := "bank_outgoing"
  /** Posted to by a chargeback but never ensured. */
  const MERCHANT_RECEIVABLE: string := "merchant_receivable"
  const CHARGEBACK_LOSS: string := "chargeback_loss"

  const PENDING_PREFIX: string := "merchant_payable_pending:"
  const AVAILABLE_PREFIX: string := "merchant_payable_available:"
  const WALLET_PREFIX: string := "user_wallet:"
  const HOLD_PREFIX: string := "transfer_hold:"

  function AcctPending(merchantId: string): string { PENDING_PREFIX + merchantId }
  function AcctAvailable(merchantId: string): string { AVAILABLE_PREFIX + merchantId }
  function AcctUserWallet(userId: string): string { WALLET_PREFIX + userId }
  function AcctTransferHold(transferId: string): string { HOLD_PREFIX + transferId }

  /** The accounts the engine creates when it starts, in the order it ensures them (duplicates included). */
  const PLATFORM_ACCOUNTS: seq<(string, AccountType)> := [
    (PLATFORM_CASH, Asset),
    (PROVIDER_CLEARING, Asset),
    (PLATFORM_REVENUE, Revenue),
    (PLATFORM_REVENUE, Revenue),
    (PROVIDER_PAYABLE, Liability),
    (VAT_PAYABLE, Liability),
    (CUSTOMER_FUNDS, Liability),
    (PLATFORM_CASH, Asset),
    (PLATFORM_SETTLEMENT_CASH, Asset),
    (TRANSFER_FEE_REVENUE, Revenue),
    (PROVIDER_FEE_PAYABLE, Liability)
  ]

  /** Names of per-entity accounts: all of them are created as LIABILITY. */
  predicate PerEntityName(name: string) {
    PENDING_PREFIX <= name || AVAILABLE_PREFIX <= name || WALLET_PREFIX <= name || HOLD_PREFIX <= name
  }

  /** The per-entity naming functions produce per-entity names. */
  lemma PerEntityNames(id: string)
    ensures PerEntityName(AcctPending(id)) && PerEntityName(AcctAvailable(id))
    ensures PerEntityName(AcctUserWallet(id)) && PerEntityName(AcctTransferHold(id))
  {
    assert PENDING_PREFIX <= AcctPending(id);
    assert AVAILABLE_PREFIX <= AcctAvailable(id);
    assert WALLET_PREFIX <= AcctUserWallet(id);
    assert HOLD_PREFIX <= AcctTransferHold(id);
  }

  /** What every per-entity name looks like in its first ten characters. */
  lemma PerEntityShape(name: string)
    requires PerEntityName(name)
    ensures |name| >= 12
    ensures (name[0] == 'm' && (name[9] == 'p' || name[9] == 'a')) || name[0] == 'u' || (name[0] == 't' && name[9] == 'h')
  {
    if PENDING_PREFIX <= name {
      assert name[0] == PENDING_PREFIX[0] && name[9] == PENDING_PREFIX[9];
    } else if AVAILABLE_PREFIX <= name {
      assert name[0] == AVAILABLE_PREFIX[0] && name[9] == AVAILABLE_PREFIX[9];
    } else if WALLET_PREFIX <= name {
      assert name[0] == WALLET_PREFIX[0];
    } else {
      assert name[0] == HOLD_PREFIX[0] && name[9] == HOLD_PREFIX[9];
    }
  }

  /** No fixed account name looks like a per-entity one. */
  lemma FixedNamesNotPerEntity()
    ensures forall i :: 0 <= i < |PLATFORM_ACCOUNTS| ==> !PerEntityName(PLATFORM_ACCOUNTS[i].0)
    ensures !PerEntityName(BANK_OUTGOING) && !PerEntityName(MERCHANT_RECEIVABLE) && !PerEntityName(CHARGEBACK_LOSS)
  {
    forall name | PerEntityName(name)
      ensures name != PLATFORM_CASH && name != PROVIDER_CLEARING && name != PLATFORM_REVENUE
      ensures name != PROVIDER_PAYABLE && name != VAT_PAYABLE && name != CUSTOMER_FUNDS
      ensures name != PLATFORM_SETTLEMENT_CASH && name != TRANSFER_FEE_REVENUE && name != PROVIDER_FEE_PAYABLE
      ensures name != BANK_OUTGOING && name != MERCHANT_RECEIVABLE && name != CHARGEBACK_LOSS
    {
      PerEntityShape(name);
      assert TRANSFER_FEE_REVENUE[9] == 'f' && MERCHANT_RECEIVABLE[9] == 'r';
    }
  }

  /** Per-entity names of different buckets never coincide, and within a bucket the name determines the id. */
  lemma NamesDistinct(x: string, y: string)
    ensures AcctPending(x) != AcctAvailable(y)
    ensures AcctUserWallet(x) != AcctTransferHold(y)
    ensures AcctPending(x) == AcctPending(y) ==> x == y
    ensures AcctAvailable(x) == AcctAvailable(y) ==> x == y
    ensures AcctUserWallet(x) == AcctUserWallet(y) ==> x == y
    ensures AcctTransferHold(x) == AcctTransferHold(y) ==> x == y
  {
    assert AcctPending(x)[17] == 'p' && AcctAvailable(y)[17] == 'a';
    assert AcctUserWallet(x)[0] == 'u' && AcctTransferHold(y)[0] == 't';
    assert AcctPending(x)[|PENDING_PREFIX|..] == x && AcctPending(y)[|PENDING_PREFIX|..] == y;
    assert AcctAvailable(x)[|AVAILABLE_PREFIX|..] == x && AcctAvailable(y)[|AVAILABLE_PREFIX|..] == y;
    assert AcctUserWallet(x)[|WALLET_PREFIX|..] == x && AcctUserWallet(y)[|WALLET_PREFIX|..] == y;
    assert AcctTransferHold(x)[|HOLD_PREFIX|..] == x && AcctTransferHold(y)[|HOLD_PREFIX|..] == y;
  }

}
