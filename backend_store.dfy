/** The backend's keyed store: tables as sequences of rows, an `UPDATE … SET
    … WHERE` as a pointwise rewrite of the rows the condition selects, a
    `SELECT … LIMIT 1` as the first row selected, and record ids normalised
    by stripping their table prefix. */
module Store {
  import opened Base
  import opened Text
  import opened BackendModels

  const SUBSCRIPTION_PREFIX: string := "subscriptions:"
  const PAYMENT_PREFIX: string := "payments:"
  const USER_PREFIX: string := "users:"
  const RECURRING_PREFIX: string := "recurring_payments:"

  // ---------------------------------------------------------------------------
  // Record ids
  // ---------------------------------------------------------------------------

  /** The record id a lookup addresses: the argument with one leading table
      prefix stripped, put back behind the prefix. A bare key and a full
      record id address the same record. */
  function RecordId(prefix: string, arg: string): (r: string)
    ensures StartsWith(r, prefix)
    ensures StartsWith(arg, prefix) ==> r == arg
    ensures !StartsWith(arg, prefix) ==> r == prefix + arg
  {
    StartsWithConcat(prefix, StripPrefix(arg, prefix));
    prefix + StripPrefix(arg, prefix)
  }

  /** Stripping removes the prefix exactly once. */
  lemma StripOnce(prefix: string, key: string)
    ensures StripPrefix(prefix + key, prefix) == key
    ensures StripPrefix(prefix + prefix + key, prefix) == prefix + key
  {
    StartsWithConcat(prefix, key);
    var r := StripPrefix(prefix + key, prefix);
    assert r == (prefix + r)[|prefix|..];
    StartsWithConcat(prefix, prefix + key);
    assert prefix + prefix + key == prefix + (prefix + key);
    var r2 := StripPrefix(prefix + (prefix + key), prefix);
    assert r2 == (prefix + r2)[|prefix|..];
  }

  /** Normalising twice is normalising once, and a key without the prefix
      names the same record whether or not the caller writes the prefix. */
  lemma RecordIdSpellings(prefix: string, key: string)
    requires !StartsWith(key, prefix)
    ensures RecordId(prefix, key) == prefix + key
    ensures RecordId(prefix, prefix + key) == prefix + key
    ensures RecordId(prefix, RecordId(prefix, key)) == RecordId(prefix, key)
  {
    StartsWithConcat(prefix, key);
  }

  // ---------------------------------------------------------------------------
  // Merchant transaction ids
  // ---------------------------------------------------------------------------

  /** A UUID in its `simple` form: 32 lower-case hex digits. */
  predicate IsSimpleUuid(u: string) {
    |u| == 32 && forall i :: 0 <= i < |u| ==> IsLowerHex(u[i])
  }

  /** `create_payment`'s merchant transaction id: "TXN_" and the first 16
      characters of the upper-cased UUID, or 16 zeros when it is shorter. */
  function MerchantTxnId(uuid: string): (t: string)
    ensures |t| == 20 && t[..4] == "TXN_"
    ensures |uuid| >= 16 ==> t[4..] == ToUpper(uuid[..16])
    ensures IsSimpleUuid(uuid) ==> forall i :: 4 <= i < 20 ==> IsUpperHex(t[i])
  {
    var upper := ToUpper(uuid);
    var t := "TXN_" + (if |upper| >= 16 then upper[..16] else "0000000000000000");
    assert |uuid| >= 16 ==> t[4..] == ToUpper(uuid[..16]);
    t
  }

  lemma UpperHexDigit(c: char)
    requires IsLowerHex(c)
    ensures IsUpperHex(UpperChar(c))
    ensures c == LowerChar(UpperChar(c))
  {
  }

  /** Two UUIDs give the same merchant transaction id exactly when their first
      16 hex digits agree: the id keeps 64 of the UUID's bits. */
  lemma MerchantTxnIdCollisions(u: string, v: string)
    requires IsSimpleUuid(u) && IsSimpleUuid(v)
    ensures MerchantTxnId(u) == MerchantTxnId(v) <==> u[..16] == v[..16]
  {
    if MerchantTxnId(u) == MerchantTxnId(v) {
      forall i | 0 <= i < 16 ensures u[i] == v[i] {
        assert MerchantTxnId(u)[4 + i] == UpperChar(u[i]);
        assert MerchantTxnId(v)[4 + i] == UpperChar(v[i]);
        UpperHexDigit(u[i]);
        UpperHexDigit(v[i]);
      }
      assert u[..16] == v[..16];
    }
  }

  // ---------------------------------------------------------------------------
  // Selections
  // ---------------------------------------------------------------------------

  /** The position of the first row the condition selects (`LIMIT 1`). */
  function FirstIndex<T>(rows: seq<T>, p: T -> bool): (r: Option<nat>)
    ensures r.None? <==> forall i :: 0 <= i < |rows| ==> !p(rows[i])
    ensures r.Some? ==> r.value < |rows| && p(rows[r.value])
    ensures r.Some? ==> forall j :: 0 <= j < r.value ==> !p(rows[j])
  {
    if rows == [] then None
    else if p(rows[0]) then Some(0)
    else
      var rest := FirstIndex(rows[1..], p);
      if rest.None? then None else Some(rest.value + 1)
  }

  /** The rows the condition selects, in table order. */
  function Filter<T(!new)>(rows: seq<T>, p: T -> bool): (sel: seq<T>)
    ensures |sel| <= |rows|
    ensures forall x :: x in sel <==> x in rows && p(x)
  {
    if rows == [] then []
    else (if p(rows[0]) then [rows[0]] else []) + Filter(rows[1..], p)
  }

  predicate HasTxn(rows: seq<PaymentRow>, txn: string) {
    exists i :: 0 <= i < |rows| && rows[i].merchantTransactionId == txn
  }

  /** `get_payment_by_merchant_id`: the first payment with that merchant
      transaction id. */
  function PaymentByMerchantId(rows: seq<PaymentRow>, txn: string): (r: Option<PaymentRow>)
    ensures r.Some? <==> HasTxn(rows, txn)
    ensures r.Some? ==> r.value in rows && r.value.merchantTransactionId == txn
  {
    var k := FirstIndex(rows, (p: PaymentRow) => p.merchantTransactionId == txn);
    if k.Some? then Some(rows[k.value]) else None
  }

  /** `get_payment`: the payment with that record id, prefix or not. */
  function PaymentById(rows: seq<PaymentRow>, arg: string): (r: Option<PaymentRow>)
    ensures r.Some? <==> exists i :: 0 <= i < |rows| && rows[i].id == RecordId(PAYMENT_PREFIX, arg)
    ensures r.Some? ==> r.value in rows && r.value.id == RecordId(PAYMENT_PREFIX, arg)
  {
    var id := RecordId(PAYMENT_PREFIX, arg);
    var k := FirstIndex(rows, (p: PaymentRow) => p.id == id);
    if k.Some? then Some(rows[k.value]) else None
  }

  predicate HasSubscription(rows: seq<SubscriptionRow>, id: string) {
    exists i :: 0 <= i < |rows| && rows[i].id == id
  }

  /** `get_subscription`: the subscription with that record id, prefix or not. */
  function SubscriptionById(rows: seq<SubscriptionRow>, arg: string): (r: Option<SubscriptionRow>)
    ensures r.Some? <==> HasSubscription(rows, RecordId(SUBSCRIPTION_PREFIX, arg))
    ensures r.Some? ==> r.value in rows && r.value.id == RecordId(SUBSCRIPTION_PREFIX, arg)
  {
    var id := RecordId(SUBSCRIPTION_PREFIX, arg);
    var k := FirstIndex(rows, (s: SubscriptionRow) => s.id == id);
    if k.Some? then Some(rows[k.value]) else None
  }

  predicate IsUsableToken(rp: RecurringPayment, userId: string) {
    rp.userId == userId && rp.status == RecurringPaymentStatus.Active
  }

  /** `get_recurring_token_by_user`: the token of the user's first Active
      recurring payment; never the token of another user or of a cancelled or
      failed one. */
  function RecurringTokenByUser(rows: seq<RecurringPayment>, userId: string): (r: Option<string>)
    ensures r.None? <==> forall i :: 0 <= i < |rows| ==> !IsUsableToken(rows[i], userId)
    ensures r.Some? ==> exists i :: 0 <= i < |rows| && IsUsableToken(rows[i], userId) && rows[i].recurringToken == r.value
  {
    var k := FirstIndex(rows, (rp: RecurringPayment) => IsUsableToken(rp, userId));
    if k.Some? then Some(rows[k.value].recurringToken) else None
  }

  /** `get_due_subscriptions`: Active with an end no later than now. */
  predicate IsDue(s: SubscriptionRow, now: int) {
    s.status == SubscriptionStatus.Active && s.endDate.Some? && s.endDate.value <= now
  }

  /** `get_expired_unpaid_subscriptions`: Active with an end more than a day
      before now. */
  predicate IsExpiredUnpaid(s: SubscriptionRow, now: int) {
    s.status == SubscriptionStatus.Active && s.endDate.Some? && s.endDate.value < now - DAY
  }

  function Due(rows: seq<SubscriptionRow>, now: int): (sel: seq<SubscriptionRow>)
    ensures forall s :: s in sel <==> s in rows && IsDue(s, now)
  {
    Filter(rows, (s: SubscriptionRow) => IsDue(s, now))
  }

  function ExpiredUnpaid(rows: seq<SubscriptionRow>, now: int): (sel: seq<SubscriptionRow>)
    ensures forall s :: s in sel <==> s in rows && IsExpiredUnpaid(s, now)
  {
    Filter(rows, (s: SubscriptionRow) => IsExpiredUnpaid(s, now))
  }

  /** Every expired-unpaid subscription is also due, and one that is due has
      gone unpaid only once a day has passed since its end. */
  lemma ExpiredUnpaidIsDue(rows: seq<SubscriptionRow>, now: int)
    ensures forall s :: s in ExpiredUnpaid(rows, now) ==> s in Due(rows, now)
    ensures forall s :: s in Due(rows, now) && s.endDate.value >= now - DAY ==> s !in ExpiredUnpaid(rows, now)
  {
  }

  // ---------------------------------------------------------------------------
  // Updates
  // ---------------------------------------------------------------------------

  /** The `SET` clauses of the updates of a payment. */
  datatype PaymentPatch =
    | SetStatus(status: PaymentStatus)
    | SetCheckoutId(checkoutId: string)
    | SetRecurringToken(token: string)

  /** A patched payment differs from the original in the named field only. */
  function PaymentPatched(p: PaymentRow, patch: PaymentPatch): (q: PaymentRow)
    ensures patch.SetStatus? ==> q.status == patch.status && q.(status := p.status) == p
    ensures patch.SetCheckoutId? ==> q.checkoutId == Some(patch.checkoutId) && q.(checkoutId := p.checkoutId) == p
    ensures patch.SetRecurringToken? ==> q.recurringToken == Some(patch.token) && q.(recurringToken := p.recurringToken) == p
  {
    match patch
    case SetStatus(status) => p.(status := status)
    case SetCheckoutId(id) => p.(checkoutId := Some(id))
    case SetRecurringToken(token) => p.(recurringToken := Some(token))
  }

  /** `UPDATE payments SET … WHERE merchant_transaction_id = txn`. */
  function PatchPayments(rows: seq<PaymentRow>, txn: string, patch: PaymentPatch): (rows': seq<PaymentRow>)
    ensures |rows'| == |rows|
    ensures forall i :: 0 <= i < |rows| ==>
      rows'[i] == if rows[i].merchantTransactionId == txn then PaymentPatched(rows[i], patch) else rows[i]
  {
    if rows == [] then []
    else [if rows[0].merchantTransactionId == txn then PaymentPatched(rows[0], patch) else rows[0]]
         + PatchPayments(rows[1..], txn, patch)
  }

  /** An update that selects no row leaves the table as it was. */
  lemma {:induction false} PatchPaymentsNoMatch(rows: seq<PaymentRow>, txn: string, patch: PaymentPatch)
    requires !HasTxn(rows, txn)
    ensures PatchPayments(rows, txn, patch) == rows
  {
    if rows != [] {
      assert !HasTxn(rows[1..], txn) by {
        forall i | 0 <= i < |rows[1..]| ensures rows[1..][i].merchantTransactionId != txn {
          assert rows[1..][i] == rows[i + 1];
        }
      }
      PatchPaymentsNoMatch(rows[1..], txn, patch);
    }
  }

  /** The `SET` clauses of the updates of a subscription. */
  datatype SubscriptionPatch =
    | ActivateAt(now: int)
    | StatusTo(status: SubscriptionStatus)
    | PaymentDetailsTo(paymentMethod: PaymentMethod, brand: Option<string>)
    | RenewAt(now: int)

  /** Activation runs one day from now, a renewal thirty; both start now and
      neither looks at the old dates. */
  function SubscriptionPatched(s: SubscriptionRow, patch: SubscriptionPatch): (t: SubscriptionRow)
    ensures t.id == s.id && t.userId == s.userId
    ensures patch.ActivateAt? ==>
      t.status == SubscriptionStatus.Active && t.startDate == Some(patch.now) && t.endDate == Some(patch.now + DAY)
    ensures patch.RenewAt? ==>
      t.status == SubscriptionStatus.Active && t.startDate == Some(patch.now) && t.endDate == Some(patch.now + 30 * DAY)
    ensures patch.ActivateAt? || patch.RenewAt? ==> t.(status := s.status, startDate := s.startDate, endDate := s.endDate) == s
    ensures patch.StatusTo? ==> t.status == patch.status && t.(status := s.status) == s
    ensures patch.PaymentDetailsTo? ==> t.paymentMethod == Some(patch.paymentMethod) && t.paymentBrand == patch.brand
    ensures patch.PaymentDetailsTo? ==> t.(paymentMethod := s.paymentMethod, paymentBrand := s.paymentBrand) == s
  {
    match patch
    case ActivateAt(now) => s.(status := SubscriptionStatus.Active, startDate := Some(now), endDate := Some(now + DAY))
    case StatusTo(status) => s.(status := status)
    case PaymentDetailsTo(m, brand) => s.(paymentMethod := Some(m), paymentBrand := brand)
    case RenewAt(now) => s.(status := SubscriptionStatus.Active, startDate := Some(now), endDate := Some(now + 30 * DAY))
  }

  /** A renewal restarts the term at now: renewing early shortens it, and
      renewing late forgives the days after the old end. */
  lemma RenewalRestartsTerm(s: SubscriptionRow, now: int)
    requires s.endDate.Some?
    ensures s.endDate.value > now + 30 * DAY ==>
      SubscriptionPatched(s, RenewAt(now)).endDate.value < s.endDate.value
    ensures s.endDate.value < now ==>
      SubscriptionPatched(s, RenewAt(now)).endDate.value > s.endDate.value + 30 * DAY
    ensures SubscriptionPatched(s, RenewAt(now)).endDate.value - now == 30 * DAY
  {
  }

  /** `UPDATE subscriptions SET … WHERE id = target`. */
  function PatchSubscriptions(rows: seq<SubscriptionRow>, target: string, patch: SubscriptionPatch): (rows': seq<SubscriptionRow>)
    ensures |rows'| == |rows|
    ensures forall i :: 0 <= i < |rows| ==>
      rows'[i] == if rows[i].id == target then SubscriptionPatched(rows[i], patch) else rows[i]
  {
    if rows == [] then []
    else [if rows[0].id == target then SubscriptionPatched(rows[0], patch) else rows[0]]
         + PatchSubscriptions(rows[1..], target, patch)
  }

  /** Record ids are unique and carry their table prefix. */
  predicate IdsWellFormed(rows: seq<SubscriptionRow>) {
    && (forall i :: 0 <= i < |rows| ==> StartsWith(rows[i].id, SUBSCRIPTION_PREFIX))
    && (forall i, j :: 0 <= i < j < |rows| ==> rows[i].id != rows[j].id)
  }

  /** Updates never change a record id. */
  lemma PatchKeepsIds(rows: seq<SubscriptionRow>, target: string, patch: SubscriptionPatch)
    requires IdsWellFormed(rows)
    ensures IdsWellFormed(PatchSubscriptions(rows, target, patch))
  {
    var rows' := PatchSubscriptions(rows, target, patch);
    assert forall i :: 0 <= i < |rows| ==> rows'[i].id == rows[i].id;
  }

  predicate HasPaymentId(rows: seq<PaymentRow>, id: string) {
    exists i :: 0 <= i < |rows| && rows[i].id == id
  }

  predicate HasEmail(rows: seq<UserRow>, email: string) {
    exists i :: 0 <= i < |rows| && rows[i].email == email
  }

  /** The message of a manual-renewal notification. */
  function RenewalMessage(subscriptionId: string): (m: string)
    ensures StartsWith(m, "Your subscription ") && |m| == |subscriptionId| + 37
    ensures m[18..|m| - 19] == subscriptionId
  {
    StartsWithConcat("Your subscription ", subscriptionId + " is due for renewal");
    "Your subscription " + subscriptionId + " is due for renewal"
  }

  /** `UPDATE notification SET acknowledged = true WHERE id = …`. */
  function Acknowledged(rows: seq<Notification>, id: string): (rows': seq<Notification>)
    ensures |rows'| == |rows|
    ensures forall i :: 0 <= i < |rows| ==>
      rows'[i] == if rows[i].id == id then rows[i].(acknowledged := true) else rows[i]
  {
    if rows == [] then []
    else [if rows[0].id == id then rows[0].(acknowledged := true) else rows[0]] + Acknowledged(rows[1..], id)
  }

  /** Acknowledging is idempotent and never un-acknowledges another
      notification. */
  lemma AcknowledgeIdempotent(rows: seq<Notification>, id: string)
    ensures Acknowledged(Acknowledged(rows, id), id) == Acknowledged(rows, id)
    ensures forall i :: 0 <= i < |rows| && rows[i].acknowledged ==> Acknowledged(rows, id)[i].acknowledged
  {
  }

  /** The backend's `DatabaseService` over its five tables. */
  class DatabaseService {
    var users: seq<UserRow>
    var payments: seq<PaymentRow>
    var subscriptions: seq<SubscriptionRow>
    var recurringPayments: seq<RecurringPayment>
    var notifications: seq<Notification>

    predicate Valid()
      reads this
    {
      IdsWellFormed(subscriptions)
    }

    constructor ()
      ensures Valid()
      ensures users == [] && payments == [] && subscriptions == [] && recurringPayments == [] && notifications == []
    {
      users := [];
      payments := [];
      subscriptions := [];
      recurringPayments := [];
      notifications := [];
    }

    /** `create_user`: refused when a user with exactly that email exists;
        the email is stored as given. `key` is the fresh UUID. */
    method CreateUser(email: string, name: string, key: string) returns (r: Result<UserRow, string>)
      modifies this
      ensures HasEmail(old(users), email) ==> r == Err("User with this email already exists")
      ensures r.Ok? <==> !HasEmail(old(users), email)
      ensures r.Ok? ==> r.value == UserRow(USER_PREFIX + key, email, name) && users == old(users) + [r.value]
      ensures r.Err? ==> users == old(users)
      ensures payments == old(payments) && subscriptions == old(subscriptions)
      ensures recurringPayments == old(recurringPayments) && notifications == old(notifications)
    {
      if HasEmail(users, email) {
        return Err("User with this email already exists");
      }
      var row := UserRow(USER_PREFIX + key, email, name);
      users := users + [row];
      r := Ok(row);
    }

    /** `create_payment`: a Pending payment without checkout id or token,
        paid by card unless the request names a method. `key` and `uuid`
        are the two fresh UUIDs; a key already in use is refused. */
    method CreatePayment(dto: CreatePaymentDto, key: string, uuid: string) returns (r: Result<PaymentRow, string>)
      modifies this
      ensures r.Ok? <==> !HasPaymentId(old(payments), PAYMENT_PREFIX + key)
      ensures r.Ok? ==> payments == old(payments) + [r.value]
      ensures r.Ok? ==> r.value.status == PaymentStatus.Pending && r.value.checkoutId == None && r.value.recurringToken == None
      ensures r.Ok? ==> r.value.paymentMethod == dto.paymentMethod.GetOr(Card)
      ensures r.Ok? ==> r.value.merchantTransactionId == MerchantTxnId(uuid) && r.value.id == PAYMENT_PREFIX + key
      ensures r.Ok? ==> r.value.userId == dto.userId && r.value.subscriptionId == Some(dto.subscriptionId) && r.value.amount == dto.amount
      ensures r.Err? ==> payments == old(payments) && StartsWith(r.error, "Failed to create payment: ")
      ensures users == old(users) && subscriptions == old(subscriptions)
      ensures recurringPayments == old(recurringPayments) && notifications == old(notifications)
    {
      var id := PAYMENT_PREFIX + key;
      if HasPaymentId(payments, id) {
        StartsWithConcat("Failed to create payment: ", "Database record `" + id + "` already exists");
        return Err("Failed to create payment: " + ("Database record `" + id + "` already exists"));
      }
      var row := PaymentRow(id, dto.userId, Some(dto.subscriptionId), dto.amount, PaymentStatus.Pending,
        dto.paymentMethod.GetOr(Card), None, MerchantTxnId(uuid), None);
      payments := payments + [row];
      r := Ok(row);
    }

    /** The three updates keyed by merchant transaction id share this shape:
        every row with that id is patched, and the call fails when there is
        none. */
    method PatchPaymentsWhere(txn: string, patch: PaymentPatch) returns (r: Result<(), string>)
      modifies this
      ensures payments == PatchPayments(old(payments), txn, patch)
      ensures r.Ok? <==> HasTxn(old(payments), txn)
      ensures r.Err? ==> r.error == "Payment not found for merchant_transaction_id: " + txn && payments == old(payments)
      ensures users == old(users) && subscriptions == old(subscriptions)
      ensures recurringPayments == old(recurringPayments) && notifications == old(notifications)
    {
      if !HasTxn(payments, txn) {
        PatchPaymentsNoMatch(payments, txn, patch);
      }
      r := if HasTxn(payments, txn) then Ok(()) else Err("Payment not found for merchant_transaction_id: " + txn);
      payments := PatchPayments(payments, txn, patch);
    }

    /** `update_payment_status`. */
    method UpdatePaymentStatus(txn: string, status: PaymentStatus) returns (r: Result<(), string>)
      modifies this
      ensures payments == PatchPayments(old(payments), txn, SetStatus(status))
      ensures r.Ok? <==> HasTxn(old(payments), txn)
      ensures r.Err? ==> r.error == "Payment not found for merchant_transaction_id: " + txn && payments == old(payments)
      ensures users == old(users) && subscriptions == old(subscriptions)
      ensures recurringPayments == old(recurringPayments) && notifications == old(notifications)
    {
      r := PatchPaymentsWhere(txn, SetStatus(status));
    }

    /** `update_payment_checkout_id`. */
    method UpdatePaymentCheckoutId(txn: string, checkoutId: string) returns (r: Result<(), string>)
      modifies this
      ensures payments == PatchPayments(old(payments), txn, SetCheckoutId(checkoutId))
      ensures r.Ok? <==> HasTxn(old(payments), txn)
      ensures r.Err? ==> r.error == "Payment not found for merchant_transaction_id: " + txn && payments == old(payments)
      ensures users == old(users) && subscriptions == old(subscriptions)
      ensures recurringPayments == old(recurringPayments) && notifications == old(notifications)
    {
      r := PatchPaymentsWhere(txn, SetCheckoutId(checkoutId));
    }

    /** `update_payment_recurring_token`. */
    method UpdatePaymentRecurringToken(txn: string, token: string) returns (r: Result<(), string>)
      modifies this
      ensures payments == PatchPayments(old(payments), txn, SetRecurringToken(token))
      ensures r.Ok? <==> HasTxn(old(payments), txn)
      ensures r.Err? ==> r.error == "Payment not found for merchant_transaction_id: " + txn && payments == old(payments)
      ensures users == old(users) && subscriptions == old(subscriptions)
      ensures recurringPayments == old(recurringPayments) && notifications == old(notifications)
    {
      r := PatchPaymentsWhere(txn, SetRecurringToken(token));
    }

    /** `create_subscription`: Pending, with no brand and no dates. `key` is
        the fresh UUID; a key already in use is refused. */
    method CreateSubscription(dto: CreateSubscriptionDto, key: string) returns (r: Result<SubscriptionRow, string>)
      requires Valid()
      modifies this
      ensures Valid()
      ensures r.Ok? <==> !HasSubscription(old(subscriptions), SUBSCRIPTION_PREFIX + key)
      ensures r.Ok? ==> subscriptions == old(subscriptions) + [r.value]
      ensures r.Ok? ==> r.value == SubscriptionRow(SUBSCRIPTION_PREFIX + key, dto.userId, dto.planName, dto.price,
        SubscriptionStatus.Pending, dto.paymentMethod, None, None, None)
      ensures r.Err? ==> subscriptions == old(subscriptions) && StartsWith(r.error, "Failed to create subscription: ")
      ensures users == old(users) && payments == old(payments)
      ensures recurringPayments == old(recurringPayments) && notifications == old(notifications)
    {
      var id := SUBSCRIPTION_PREFIX + key;
      if HasSubscription(subscriptions, id) {
        StartsWithConcat("Failed to create subscription: ", "Database record `" + id + "` already exists");
        return Err("Failed to create subscription: " + ("Database record `" + id + "` already exists"));
      }
      var row := SubscriptionRow(id, dto.userId, dto.planName, dto.price, SubscriptionStatus.Pending,
        dto.paymentMethod, None, None, None);
      StartsWithConcat(SUBSCRIPTION_PREFIX, key);
      subscriptions := subscriptions + [row];
      r := Ok(row);
    }

    /** The subscription updates share this shape: the rows with the
        normalised record id are patched; `found` tells whether there was one. */
    method PatchSubscriptionsWhere(arg: string, patch: SubscriptionPatch) returns (found: bool)
      requires Valid()
      modifies this
      ensures Valid()
      ensures subscriptions == PatchSubscriptions(old(subscriptions), RecordId(SUBSCRIPTION_PREFIX, arg), patch)
      ensures found <==> HasSubscription(old(subscriptions), RecordId(SUBSCRIPTION_PREFIX, arg))
      ensures users == old(users) && payments == old(payments)
      ensures recurringPayments == old(recurringPayments) && notifications == old(notifications)
    {
      var target := RecordId(SUBSCRIPTION_PREFIX, arg);
      found := HasSubscription(subscriptions, target);
      PatchKeepsIds(subscriptions, target, patch);
      subscriptions := PatchSubscriptions(subscriptions, target, patch);
    }

    /** `activate_subscription`: Active for one day from now. */
    method ActivateSubscription(arg: string, now: int) returns (r: Result<(), string>)
      requires Valid()
      modifies this
      ensures Valid()
      ensures subscriptions == PatchSubscriptions(old(subscriptions), RecordId(SUBSCRIPTION_PREFIX, arg), ActivateAt(now))
      ensures r.Ok? <==> HasSubscription(old(subscriptions), RecordId(SUBSCRIPTION_PREFIX, arg))
      ensures r.Err? ==> r.error == "Subscription not found: " + RecordId(SUBSCRIPTION_PREFIX, arg)
      ensures users == old(users) && payments == old(payments)
      ensures recurringPayments == old(recurringPayments) && notifications == old(notifications)
    {
      var found := PatchSubscriptionsWhere(arg, ActivateAt(now));
      r := if found then Ok(()) else Err("Subscription not found: " + RecordId(SUBSCRIPTION_PREFIX, arg));
    }

    /** `update_subscription_status`: no guard on the current status. */
    method UpdateSubscriptionStatus(arg: string, status: SubscriptionStatus) returns (r: Result<(), string>)
      requires Valid()
      modifies this
      ensures Valid()
      ensures subscriptions == PatchSubscriptions(old(subscriptions), RecordId(SUBSCRIPTION_PREFIX, arg), StatusTo(status))
      ensures r.Ok? <==> HasSubscription(old(subscriptions), RecordId(SUBSCRIPTION_PREFIX, arg))
      ensures r.Err? ==> r.error == "Subscription not found: " + arg
      ensures users == old(users) && payments == old(payments)
      ensures recurringPayments == old(recurringPayments) && notifications == old(notifications)
    {
      var found := PatchSubscriptionsWhere(arg, StatusTo(status));
      r := if found then Ok(()) else Err("Subscription not found: " + arg);
    }

    /** `update_subscription_payment_details`: method and brand, None brand
        included. */
    method UpdateSubscriptionPaymentDetails(arg: string, paymentMethod: PaymentMethod, brand: Option<string>)
      returns (r: Result<(), string>)
      requires Valid()
      modifies this
      ensures Valid()
      ensures subscriptions == PatchSubscriptions(old(subscriptions), RecordId(SUBSCRIPTION_PREFIX, arg), PaymentDetailsTo(paymentMethod, brand))
      ensures r.Ok? <==> HasSubscription(old(subscriptions), RecordId(SUBSCRIPTION_PREFIX, arg))
      ensures r.Err? ==> r.error == "Subscription not found: " + arg
      ensures users == old(users) && payments == old(payments)
      ensures recurringPayments == old(recurringPayments) && notifications == old(notifications)
    {
      var found := PatchSubscriptionsWhere(arg, PaymentDetailsTo(paymentMethod, brand));
      r := if found then Ok(()) else Err("Subscription not found: " + arg);
    }

    /** `mark_subscription_renewed`: Active for thirty days from now. */
    method MarkSubscriptionRenewed(arg: string, now: int) returns (r: Result<(), string>)
      requires Valid()
      modifies this
      ensures Valid()
      ensures subscriptions == PatchSubscriptions(old(subscriptions), RecordId(SUBSCRIPTION_PREFIX, arg), RenewAt(now))
      ensures r.Ok? <==> HasSubscription(old(subscriptions), RecordId(SUBSCRIPTION_PREFIX, arg))
      ensures r.Err? ==> r.error == "Sub not found " + arg
      ensures users == old(users) && payments == old(payments)
      ensures recurringPayments == old(recurringPayments) && notifications == old(notifications)
    {
      var found := PatchSubscriptionsWhere(arg, RenewAt(now));
      r := if found then Ok(()) else Err("Sub not found " + arg);
    }

    /** `suspend_subscription`. */
    method SuspendSubscription(arg: string) returns (r: Result<(), string>)
      requires Valid()
      modifies this
      ensures Valid()
      ensures subscriptions == PatchSubscriptions(old(subscriptions), RecordId(SUBSCRIPTION_PREFIX, arg), StatusTo(SubscriptionStatus.Suspended))
      ensures r.Ok? <==> HasSubscription(old(subscriptions), RecordId(SUBSCRIPTION_PREFIX, arg))
      ensures r.Err? ==> r.error == "Sub not found " + arg
      ensures users == old(users) && payments == old(payments)
      ensures recurringPayments == old(recurringPayments) && notifications == old(notifications)
    {
      var found := PatchSubscriptionsWhere(arg, StatusTo(SubscriptionStatus.Suspended));
      r := if found then Ok(()) else Err("Sub not found " + arg);
    }

    /** `create_recurring_payment`: a stored token starts Active. */
    method CreateRecurringPayment(userId: string, subscriptionId: string, token: string,
                                  cardLastFour: Option<string>, cardBrand: Option<string>, key: string)
      returns (r: Result<RecurringPayment, string>)
      modifies this
      ensures r.Ok?
      ensures r.value == RecurringPayment(RECURRING_PREFIX + key, userId, subscriptionId, token, cardLastFour, cardBrand,
        RecurringPaymentStatus.Active)
      ensures recurringPayments == old(recurringPayments) + [r.value]
      ensures users == old(users) && payments == old(payments) && subscriptions == old(subscriptions)
      ensures notifications == old(notifications)
    {
      var row := RecurringPayment(RECURRING_PREFIX + key, userId, subscriptionId, token, cardLastFour, cardBrand,
        RecurringPaymentStatus.Active);
      recurringPayments := recurringPayments + [row];
      r := Ok(row);
    }

    /** `create_manual_renewal_notification`: an unacknowledged reminder
        naming the subscription. */
    method CreateManualRenewalNotification(userId: string, subscriptionId: string, id: string)
      returns (r: Result<(), string>)
      modifies this
      ensures r.Ok?
      ensures notifications == old(notifications) + [Notification(id, userId, subscriptionId, RenewalMessage(subscriptionId), false)]
      ensures users == old(users) && payments == old(payments) && subscriptions == old(subscriptions)
      ensures recurringPayments == old(recurringPayments)
    {
      notifications := notifications + [Notification(id, userId, subscriptionId, RenewalMessage(subscriptionId), false)];
      r := Ok(());
    }

    /** `acknowledge_notification`: succeeds whether or not the id exists. */
    method AcknowledgeNotification(id: string) returns (r: Result<(), string>)
      modifies this
      ensures r.Ok?
      ensures notifications == Acknowledged(old(notifications), id)
      ensures users == old(users) && payments == old(payments) && subscriptions == old(subscriptions)
      ensures recurringPayments == old(recurringPayments)
    {
      notifications := Acknowledged(notifications, id);
      r := Ok(());
    }
  }
}
