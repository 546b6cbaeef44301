/** The payment record of the payment crate: its status vocabulary, the
    classification of gateway result codes, and the in-place updates a
    payment receives while its checkout runs. */
module Payments {
  import opened Base
  import opened Text
  import opened Json
  import opened Common

  datatype PaymentStatus = Pending | Processing | Completed | Failed | Cancelled | Refunded | PartiallyRefunded

  datatype PaymentType = OneTime | Recurring | Registration

  /** Result codes of successful transactions begin with one of these. */
  predicate IsSuccessCode(code: string) {
    StartsWith(code, "000.000") || StartsWith(code, "000.100")
  }

  /** Result codes of transactions still under way begin with this. */
  predicate IsPendingCode(code: string) {
    StartsWith(code, "000.200")
  }

  const CANCELLED_BY_USER: string := "100.396.104"

  lemma CancelledCodeIsNeither()
    ensures !IsSuccessCode(CANCELLED_BY_USER) && !IsPendingCode(CANCELLED_BY_USER)
  {
    assert CANCELLED_BY_USER[..7][0] == '1';
  }

  /** `PaymentStatus::from_peach_code`: every code falls in exactly one of four
      classes, tested in the order success, pending, cancelled, failed. */
  function FromPeachCode(code: string): (s: PaymentStatus)
    ensures s == Completed <==> IsSuccessCode(code)
    ensures s == Processing <==> !IsSuccessCode(code) && IsPendingCode(code)
    ensures s == Cancelled <==> code == CANCELLED_BY_USER
    ensures s == Failed <==> !IsSuccessCode(code) && !IsPendingCode(code) && code != CANCELLED_BY_USER
  {
    CancelledCodeIsNeither();
    if IsSuccessCode(code) then Completed
    else if IsPendingCode(code) then Processing
    else if code == CANCELLED_BY_USER then Cancelled
    else Failed
  }

  /** The codes of the crate's own test of `from_peach_code`. */
  lemma FromPeachCodeExamples()
    ensures FromPeachCode("000.000.000") == Completed
    ensures FromPeachCode("000.100.110") == Completed
    ensures FromPeachCode("000.200.100") == Processing
    ensures FromPeachCode("100.396.104") == Cancelled
    ensures FromPeachCode("800.100.100") == Failed
  {
    StartsWithConcat("000.000", ".000");
    assert "000.000.000" == "000.000" + ".000";
    StartsWithConcat("000.100", ".110");
    assert "000.100.110" == "000.100" + ".110";
    StartsWithConcat("000.200", ".100");
    assert "000.200.100" == "000.200" + ".100";
    assert "800.100.100"[0] == '8';
  }

  /** A classified code is never Pending, Refunded or PartiallyRefunded. */
  lemma FromPeachCodeRange(code: string)
    ensures FromPeachCode(code) in {Completed, Processing, Cancelled, Failed}
  {
  }

  /** `is_final_status`. */
  predicate IsFinal(s: PaymentStatus) {
    s == Completed || s == Failed || s == Cancelled || s == Refunded
  }

  /** The statuses for which `update_status` stamps the completion time. */
  predicate StampsCompletion(s: PaymentStatus) {
    s == Completed || s == Failed || s == Cancelled
  }

  /** Every stamping status is final, but Refunded is final without being
      stamped, and PartiallyRefunded is neither. */
  lemma StampingVersusFinal(s: PaymentStatus)
    ensures StampsCompletion(s) ==> IsFinal(s)
    ensures IsFinal(s) && !StampsCompletion(s) <==> s == Refunded
    ensures !IsFinal(PartiallyRefunded)
  {
  }

  /** `can_retry`: not final and fewer than three retries so far. */
  predicate CanRetryAt(s: PaymentStatus, retries: nat) {
    !IsFinal(s) && retries < 3
  }

  /** Retries run out: a payment whose retry count has reached three, or whose
      status is final, can never be retried again however the count grows. */
  lemma RetryBudget(s: PaymentStatus, retries: nat, more: nat)
    ensures CanRetryAt(s, retries + more) ==> CanRetryAt(s, retries)
    ensures retries + more >= 3 ==> !CanRetryAt(s, retries + more)
  {
  }

  /** The request that opens a payment. */
  datatype InitiatePaymentRequest = InitiatePaymentRequest(
    userId: string,
    subscriptionId: string,
    amount: real,
    currency: Option<string>,
    paymentMethod: PaymentMethod,
    enableRecurring: Option<bool>,
    returnUrl: Option<string>,
    webhookUrl: Option<string>,
    metadata: Option<Json>)

  /** The fields of a payment, as a value. */
  datatype PaymentRecord = PaymentRecord(
    id: string,
    userId: string,
    subscriptionId: Option<string>,
    merchantTransactionId: string,
    peachCheckoutId: Option<string>,
    peachPaymentId: Option<string>,
    amount: real,
    currency: string,
    paymentMethod: PaymentMethod,
    paymentType: PaymentType,
    status: PaymentStatus,
    failureReason: Option<string>,
    recurringToken: Option<string>,
    enableRecurring: bool,
    retryCount: nat,
    metadata: Option<Json>,
    createdAt: int,
    updatedAt: int,
    completedAt: Option<int>)

  /** `Payment::new`: a Pending one-time payment with no gateway ids, no
      token and no retries; currency defaults to ZAR and recurring to off. */
  function NewPayment(request: InitiatePaymentRequest, merchantTransactionId: string, id: string, now: int): (p: PaymentRecord)
    ensures p.status == Pending && p.paymentType == OneTime && p.retryCount == 0
    ensures p.peachCheckoutId == None && p.peachPaymentId == None && p.completedAt == None
    ensures p.failureReason == None && p.recurringToken == None
    ensures p.currency == request.currency.GetOr("ZAR") && p.enableRecurring == request.enableRecurring.GetOr(false)
    ensures p.subscriptionId == Some(request.subscriptionId) && p.merchantTransactionId == merchantTransactionId
  {
    PaymentRecord(id, request.userId, Some(request.subscriptionId), merchantTransactionId, None, None,
      request.amount, request.currency.GetOr("ZAR"), request.paymentMethod, OneTime, Pending, None, None,
      request.enableRecurring.GetOr(false), 0, request.metadata, now, now, None)
  }

  /** `update_status`: no guard on the current status; the reason is always
      overwritten (with None too); the completion time is stamped only for
      Completed, Failed and Cancelled and otherwise kept. */
  function StatusUpdated(p: PaymentRecord, newStatus: PaymentStatus, reason: Option<string>, now: int): (p': PaymentRecord)
    ensures p'.status == newStatus && p'.failureReason == reason && p'.updatedAt == now
    ensures p'.completedAt == if StampsCompletion(newStatus) then Some(now) else p.completedAt
    ensures p'.(status := p.status, failureReason := p.failureReason, updatedAt := p.updatedAt, completedAt := p.completedAt) == p
  {
    p.(status := newStatus, failureReason := reason, updatedAt := now,
       completedAt := if StampsCompletion(newStatus) then Some(now) else p.completedAt)
  }

  /** Any status can follow any other: the update has no transition guard. */
  lemma NoTransitionGuard(p: PaymentRecord, newStatus: PaymentStatus, reason: Option<string>, now: int)
    ensures StatusUpdated(p, newStatus, reason, now).status == newStatus
    ensures IsFinal(p.status) ==> StatusUpdated(p, Pending, reason, now).status == Pending
  {
  }

  /** `set_recurring_token`: stores the token and turns the payment recurring;
      no other business field changes. */
  function TokenSet(p: PaymentRecord, token: string, now: int): (p': PaymentRecord)
    ensures p'.recurringToken == Some(token) && p'.paymentType == Recurring && p'.updatedAt == now
    ensures p'.(recurringToken := p.recurringToken, paymentType := p.paymentType, updatedAt := p.updatedAt) == p
  {
    p.(recurringToken := Some(token), paymentType := Recurring, updatedAt := now)
  }

  class Payment {
    const id: string
    const userId: string
    const subscriptionId: Option<string>
    const merchantTransactionId: string
    var peachCheckoutId: Option<string>
    var peachPaymentId: Option<string>
    const amount: real
    const currency: string
    const paymentMethod: PaymentMethod
    var paymentType: PaymentType
    var status: PaymentStatus
    var failureReason: Option<string>
    var recurringToken: Option<string>
    const enableRecurring: bool
    var retryCount: nat
    const metadata: Option<Json>
    const createdAt: int
    var updatedAt: int
    var completedAt: Option<int>

    function Snapshot(): PaymentRecord
      reads this
    {
      PaymentRecord(id, userId, subscriptionId, merchantTransactionId, peachCheckoutId, peachPaymentId,
        amount, currency, paymentMethod, paymentType, status, failureReason, recurringToken,
        enableRecurring, retryCount, metadata, createdAt, updatedAt, completedAt)
    }

    /** `Payment::new`; `id` and `now` stand for the fresh UUID and the clock. */
    constructor (request: InitiatePaymentRequest, merchantTransactionId: string, id: string, now: int)
      ensures Snapshot() == NewPayment(request, merchantTransactionId, id, now)
    {
      this.id := id;
      userId := request.userId;
      subscriptionId := Some(request.subscriptionId);
      this.merchantTransactionId := merchantTransactionId;
      peachCheckoutId := None;
      peachPaymentId := None;
      amount := request.amount;
      currency := request.currency.GetOr("ZAR");
      paymentMethod := request.paymentMethod;
      paymentType := OneTime;
      status := Pending;
      failureReason := None;
      recurringToken := None;
      enableRecurring := request.enableRecurring.GetOr(false);
      retryCount := 0;
      metadata := request.metadata;
      createdAt := now;
      updatedAt := now;
      completedAt := None;
    }

    method UpdateStatus(newStatus: PaymentStatus, reason: Option<string>, now: int)
      modifies this
      ensures Snapshot() == StatusUpdated(old(Snapshot()), newStatus, reason, now)
    {
      status := newStatus;
      failureReason := reason;
      updatedAt := now;
      if StampsCompletion(newStatus) {
        completedAt := Some(now);
      }
    }

    /** `set_peach_ids`: both ids are overwritten, None included. */
    method SetPeachIds(checkoutId: Option<string>, paymentId: Option<string>, now: int)
      modifies this
      ensures Snapshot() == old(Snapshot()).(peachCheckoutId := checkoutId, peachPaymentId := paymentId, updatedAt := now)
    {
      peachCheckoutId := checkoutId;
      peachPaymentId := paymentId;
      updatedAt := now;
    }

    method SetRecurringToken(token: string, now: int)
      modifies this
      ensures Snapshot() == TokenSet(old(Snapshot()), token, now)
    {
      recurringToken := Some(token);
      paymentType := Recurring;
      updatedAt := now;
    }

    /** `increment_retry`. */
    method IncrementRetry(now: int)
      modifies this
      ensures Snapshot() == old(Snapshot()).(retryCount := old(retryCount) + 1, updatedAt := now)
    {
      retryCount := retryCount + 1;
      updatedAt := now;
    }

    /** `is_final_status`. */
    method IsFinalStatus() returns (r: bool)
      ensures r <==> status in {Completed, Failed, Cancelled, Refunded}
    {
      r := IsFinal(status);
    }

    /** `can_retry`. */
    method CanRetry() returns (r: bool)
      ensures r <==> status !in {Completed, Failed, Cancelled, Refunded} && retryCount < 3
    {
      var final := IsFinalStatus();
      r := !final && retryCount < 3;
    }
  }

  /** The crate's retry test: a new payment can be retried, and after three
      increments it can no longer be. */
  method RetryScenario(request: InitiatePaymentRequest, now: int) returns (before: bool, after: bool)
    ensures before && !after
  {
    var payment := new Payment(request, "TXN_123", "payment", now);
    before := payment.CanRetry();
    payment.IncrementRetry(now);
    payment.IncrementRetry(now);
    payment.IncrementRetry(now);
    after := payment.CanRetry();
  }
}
