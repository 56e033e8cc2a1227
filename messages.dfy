/**
 * Requests and responses of the engine's endpoints, and the idempotency-key
 * table shared by payment-intent and transfer creation.
 */
module Messages {
  import opened Outcomes

  /**
   * A JSON request body of the two idempotent endpoints, member by member; a
   * member the body lacks is None, and `others` holds the members neither
   * endpoint reads. The stored request hash is modelled by the body itself:
   * two bodies hash alike exactly when they are equal.
   */
  datatype RequestBody = RequestBody(
    merchantId: Option<string>, amount: Option<int>, currency: Option<string>, feeMode: Option<string>,
    userId: Option<string>, bankCode: Option<string>, bankAccount: Option<string>, narration: Option<string>,
    others: map<string, string>)

  const NAME_REQUIRED: string := "name_required"
  const INVALID_FEE_MODE: string := "invalid_fee_mode"
  const KEY_REUSED: string := "idempotency_key_reused_with_different_payload"
  const MERCHANT_AMOUNT_REQUIRED: string := "merchant_id_and_positive_amount_kobo_required"
  const USER_AMOUNT_REQUIRED: string := "user_id_and_positive_amount_kobo_required"
  const INVALID_TRANSFER_REQUEST: string := "invalid_transfer_request"
  const INSUFFICIENT_PENDING: string := "insufficient_pending"
  const INSUFFICIENT_AVAILABLE: string := "insufficient_available"
  const EVENT_FIELDS_REQUIRED: string := "provider_event_id_type_payload_required"
  const TRANSFER_ID_REQUIRED: string := "transfer_id_required"
  const TRANSFER_NOT_FOUND: string := "transfer_not_found"
  const DUPLICATE_EVENT_IGNORED: string := "duplicate_event_ignored"

  /** The JSON objects the endpoints answer with. */
  datatype Response =
    | Error(code: string)
    | ErrorWithBalance(code: string, balance: int)
    | InsufficientWallet(available: int, needed: int)
    | InvalidState(status: string)
    | MerchantCreated(merchantId: string, name: string)
    | UserCreated(userId: string, name: string)
    | IntentCreated(paymentIntentId: string, merchantId: string, amount: int, currency: string, status: string)
    | TransferCreated(transferId: string, status: string, amount: int, fee: int, totalHeld: int)
    | Accepted(note: Option<string>)
    | Released(releaseId: string)
    | Funded(journalId: nat)
    | SubmissionRecorded(status: string, providerRef: Option<string>)
    | Processed(count: nat)
    | PollReport(polled: nat, generatedEvents: nat, escalated: nat)

  /** A row of `idempotency_keys`: the request that first used the key and the response it got. */
  datatype IdempotencyRecord = IdempotencyRecord(requestHash: RequestBody, response: Response, createdAt: int)

  /** What the key table says about a request: go ahead, answer as before, or refuse. */
  datatype KeyLookup = NewKey | Replay(response: Response) | KeyReused

  function LookupKey(store: map<string, IdempotencyRecord>, key: string, body: RequestBody): (r: KeyLookup)
    ensures r.NewKey? <==> key !in store
    ensures r.Replay? <==> key in store && store[key].requestHash == body
    ensures r.Replay? ==> r.response == store[key].response
  {
    if key !in store then NewKey
    else if store[key].requestHash == body then Replay(store[key].response)
    else KeyReused
  }

  /**
   * Once a response is stored under a key, the same body is answered with
   * that response and any other body is refused, whichever endpoint it is
   * sent to, and other keys are unaffected.
   */
  lemma ReplayAfterStore(store: map<string, IdempotencyRecord>, key: string, body: RequestBody,
                         response: Response, now: int, other: RequestBody, otherKey: string)
    ensures var s := store[key := IdempotencyRecord(body, response, now)];
      && LookupKey(s, key, body) == Replay(response)
      && (other != body ==> LookupKey(s, key, other) == KeyReused)
      && (otherKey != key ==> LookupKey(s, otherKey, other) == LookupKey(store, otherKey, other))
  {
  }

  /** A character PHP's `trim` removes: space, tab, newline, carriage return, NUL and vertical tab. */
  predicate TrimmedChar(c: char) {
    c == ' ' || c == '\t' || c == '\n' || c == '\r' || c as int == 0 || c as int == 11
  }

  /** A name that is empty after `trim`. */
  predicate Blank(s: string) {
    forall i :: 0 <= i < |s| ==> TrimmedChar(s[i])
  }

  lemma BlankExamples()
    ensures Blank("") && Blank(" \t\n")
    ensures !Blank("Acme") && !Blank(" a ")
  {
    assert !TrimmedChar("Acme"[0]);
    assert !TrimmedChar(" a "[1]);
  }
}
