/** The backend's payment handlers over the store: the webhook (its signing
    string, its rejection gates and its dispatch on the result code), the
    status query, the opening of a checkout, the recurring charge, the
    decision to store a payment method, and the redirect after a checkout.
    The gateway's replies, HMAC verification and the calls the shown store
    does not define are parameters. */
module PaymentHandlers {
  import opened Base
  import opened Text
  import opened Json
  import opened BackendModels
  import opened Store
  import P = Payments

  /** A response: its status and its message (for a redirect, the Location). */
  datatype HttpReply = HttpReply(status: int, text: string)

  /** `format!("{:?}", status)`. */
  function DebugName(s: PaymentStatus): string {
    match s
    case Pending => "Pending"
    case Completed => "Completed"
    case Failed => "Failed"
    case Cancelled => "Cancelled"
    case Refunded => "Refunded"
  }

  // ---------------------------------------------------------------------------
  // The inline classifications of result codes
  // ---------------------------------------------------------------------------

  /** `check_payment_status`: success prefixes complete, `000.200` stays
      pending, everything else fails. */
  function StatusCheckClass(code: string): (s: PaymentStatus)
    ensures s == PaymentStatus.Completed <==> P.IsSuccessCode(code)
    ensures s == PaymentStatus.Pending <==> !P.IsSuccessCode(code) && P.IsPendingCode(code)
    ensures s == PaymentStatus.Failed <==> !P.IsSuccessCode(code) && !P.IsPendingCode(code)
  {
    if P.IsSuccessCode(code) then PaymentStatus.Completed
    else if P.IsPendingCode(code) then PaymentStatus.Pending
    else PaymentStatus.Failed
  }

  /** `create_recurring_payment`: a missing code reads as "", and only the
      success prefixes complete. */
  function RecurringClass(code: Option<string>): (s: PaymentStatus)
    ensures s == PaymentStatus.Completed <==> code.Some? && P.IsSuccessCode(code.value)
    ensures s == PaymentStatus.Failed <==> !(code.Some? && P.IsSuccessCode(code.value))
  {
    if P.IsSuccessCode(code.GetOr("")) then PaymentStatus.Completed else PaymentStatus.Failed
  }

  datatype WebhookAction = CompletePayment | FailPayment | NoAction

  /** The webhook's `match` on the exact code. */
  function WebhookDispatch(code: string): (a: WebhookAction)
    ensures a == CompletePayment <==> code == "000.000.000" || code == "000.100.110"
    ensures a == FailPayment <==> code == P.CANCELLED_BY_USER
  {
    if code == "000.000.000" || code == "000.100.110" then CompletePayment
    else if code == P.CANCELLED_BY_USER then FailPayment
    else NoAction
  }

  /** How the four classifications relate on every code: the status query
      and the recurring charge complete exactly what `from_peach_code`
      completes; the status query's Pending is `from_peach_code`'s
      Processing, which the recurring charge fails; the webhook completes
      only two of the successful codes and fails the code that
      `from_peach_code` calls Cancelled. */
  lemma ClassificationsCompared(code: string)
    ensures StatusCheckClass(code) == PaymentStatus.Completed <==> P.FromPeachCode(code) == P.Completed
    ensures RecurringClass(Some(code)) == PaymentStatus.Completed <==> P.FromPeachCode(code) == P.Completed
    ensures StatusCheckClass(code) == PaymentStatus.Pending <==> P.FromPeachCode(code) == P.Processing
    ensures P.FromPeachCode(code) == P.Processing ==> RecurringClass(Some(code)) == PaymentStatus.Failed
    ensures WebhookDispatch(code) == CompletePayment ==> P.FromPeachCode(code) == P.Completed
    ensures WebhookDispatch(code) == FailPayment <==> P.FromPeachCode(code) == P.Cancelled
    ensures P.FromPeachCode(code) == P.Cancelled ==> StatusCheckClass(code) == PaymentStatus.Failed
  {
    if WebhookDispatch(code) == CompletePayment {
      P.FromPeachCodeExamples();
    }
  }

  /** Codes on which the classifications part ways. */
  lemma ClassificationExamples()
    ensures P.FromPeachCode("000.200.100") == P.Processing
    ensures StatusCheckClass("000.200.100") == PaymentStatus.Pending
    ensures RecurringClass(Some("000.200.100")) == PaymentStatus.Failed
    ensures WebhookDispatch("000.200.100") == NoAction
    ensures StatusCheckClass("000.100.112") == PaymentStatus.Completed
    ensures WebhookDispatch("000.100.112") == NoAction
    ensures RecurringClass(None) == PaymentStatus.Failed
  {
    P.FromPeachCodeExamples();
    StartsWithConcat("000.100", ".112");
    assert "000.100.112" == "000.100" + ".112";
  }

  // ---------------------------------------------------------------------------
  // The webhook's signing string and fields
  // ---------------------------------------------------------------------------

  const SIGNATURE: string := "signature"

  /** `create_signature_payload`: every field but the signature, sorted by
      key, each key followed by its value. It is the concatenation of the
      one sorted listing of those fields, whatever order the map visits them
      in. */
  function SignaturePayload(form: StrMap): (s: string)
    ensures forall ps :: IsSortedListingOf(ps, form.contents - {SIGNATURE}) ==> s == ConcatPairs(ps)
  {
    var kept := WithoutKey(Entries(form), SIGNATURE);
    SortedListing(kept, form.contents - {SIGNATURE});
    forall ps | IsSortedListingOf(ps, form.contents - {SIGNATURE}) ensures SortByKey(kept) == ps {
      SortedListingUnique(SortByKey(kept), ps, form.contents - {SIGNATURE});
    }
    ConcatPairs(SortByKey(kept))
  }

  /** The payload depends only on the fields other than the signature: not
      on the order of iteration, nor on the signature's value. */
  lemma SignaturePayloadDeterminedByFields(a: StrMap, b: StrMap)
    requires a.contents - {SIGNATURE} == b.contents - {SIGNATURE}
    ensures SignaturePayload(a) == SignaturePayload(b)
  {
    SortedListing(WithoutKey(Entries(a), SIGNATURE), a.contents - {SIGNATURE});
  }

  /** A form holding signed parameters plus their signature yields the same
      string the checkout signed. */
  lemma SignaturePayloadOfSignedForm(params: StrMap, form: StrMap, signature: string)
    requires SIGNATURE !in params.contents
    requires form.contents == params.contents[SIGNATURE := signature]
    ensures SignaturePayload(form) == SigningString(params)
  {
    assert form.contents - {SIGNATURE} == params.contents;
    SortedListing(Entries(params), params.contents);
  }

  /** `form_map.get(key).cloned().unwrap_or_default()`. */
  function FieldOr(form: StrMap, key: string): string {
    Get(form, key).GetOr("")
  }

  const SUBSCRIPTION_PARAM: string := "customParameters[subscription_id]"
  const SUBSCRIPTION_PARAM_ENCODED: string := "customParameters%5Bsubscription_id%5D"

  /** The subscription id under its literal key, else under its
      percent-encoded key. */
  function CallbackSubscriptionId(form: StrMap): (r: Option<string>)
    ensures SUBSCRIPTION_PARAM in form.contents ==> r == Some(form.contents[SUBSCRIPTION_PARAM])
    ensures SUBSCRIPTION_PARAM !in form.contents && SUBSCRIPTION_PARAM_ENCODED in form.contents ==>
      r == Some(form.contents[SUBSCRIPTION_PARAM_ENCODED])
    ensures r.None? <==> SUBSCRIPTION_PARAM !in form.contents && SUBSCRIPTION_PARAM_ENCODED !in form.contents
  {
    var literal := Get(form, SUBSCRIPTION_PARAM);
    if literal.Some? then literal else Get(form, SUBSCRIPTION_PARAM_ENCODED)
  }

  /** The webhook's request body. */
  datatype WebhookBody = NotUtf8 | Unparsable | Form(fields: StrMap)

  /** A signature is present, not empty, and matches the signing string. */
  predicate Authentic(form: StrMap, verify: (string, string) -> bool) {
    FieldOr(form, SIGNATURE) != "" && verify(SignaturePayload(form), FieldOr(form, SIGNATURE))
  }

  /** Neither the payments nor the subscriptions changed. */
  twostate predicate Untouched(db: DatabaseService)
    reads db
  {
    db.payments == old(db.payments) && db.subscriptions == old(db.subscriptions)
  }

  /** The subscriptions after a payment completes: its subscription, if it
      names one, is activated. */
  function AfterCompletion(rows: seq<SubscriptionRow>, payment: PaymentRow, now: int): (rows': seq<SubscriptionRow>)
    ensures payment.subscriptionId.None? ==> rows' == rows
    ensures payment.subscriptionId.Some? ==>
      rows' == PatchSubscriptions(rows, RecordId(SUBSCRIPTION_PREFIX, payment.subscriptionId.value), ActivateAt(now))
  {
    if payment.subscriptionId.Some? then
      PatchSubscriptions(rows, RecordId(SUBSCRIPTION_PREFIX, payment.subscriptionId.value), ActivateAt(now))
    else rows
  }

  /** What the webhook leaves behind besides the tables: the gateway payment
      id written to the payment, and whether storing its method was
      scheduled. */
  datatype CallbackEffects = CallbackEffects(peachId: Option<string>, autoStore: bool)

  /** `payment_callback`. `verify` stands for the HMAC check, `isRecurring`
      for the payment field the handler reads, `now` for the clock. */
  method PaymentCallback(db: DatabaseService, body: WebhookBody, verify: (string, string) -> bool,
                         isRecurring: PaymentRow -> bool, now: int)
    returns (reply: HttpReply, effects: CallbackEffects)
    requires db.Valid()
    modifies db
    ensures db.Valid()
    ensures body.NotUtf8? ==> reply == HttpReply(400, "Invalid UTF-8")
    ensures body.Unparsable? ==> reply == HttpReply(400, "Invalid form data")
    ensures body.Form? && FieldOr(body.fields, SIGNATURE) == "" ==> reply == HttpReply(400, "Missing signature")
    ensures body.Form? && FieldOr(body.fields, SIGNATURE) != "" && !Authentic(body.fields, verify) ==>
      reply == HttpReply(401, "Invalid signature")
    ensures reply.status == 200 <==> body.Form? && Authentic(body.fields, verify)
    ensures reply.status == 200 ==> reply.text == "Webhook received"
    ensures reply.status != 200 ==> Untouched(db) && effects == CallbackEffects(None, false)
    ensures db.users == old(db.users) && db.recurringPayments == old(db.recurringPayments)
    ensures db.notifications == old(db.notifications)
    ensures reply.status == 200 ==>
      var code := FieldOr(body.fields, "result.code");
      var txn := FieldOr(body.fields, "merchantTransactionId");
      var payment := PaymentByMerchantId(old(db.payments), txn);
      && (WebhookDispatch(code) == CompletePayment && payment.Some? ==>
            && db.payments == PatchPayments(old(db.payments), txn, SetStatus(PaymentStatus.Completed))
            && db.subscriptions == AfterCompletion(old(db.subscriptions), payment.value, now)
            && effects.peachId == Get(body.fields, "id")
            && (effects.autoStore <==> effects.peachId.Some? && !isRecurring(payment.value)))
      && (WebhookDispatch(code) == CompletePayment && payment.None? ==> Untouched(db))
      && (WebhookDispatch(code) == FailPayment ==>
            db.payments == PatchPayments(old(db.payments), txn, SetStatus(PaymentStatus.Failed))
            && db.subscriptions == old(db.subscriptions))
      && (WebhookDispatch(code) == NoAction ==> Untouched(db))
      && (WebhookDispatch(code) != CompletePayment || payment.None? ==> effects == CallbackEffects(None, false))
  {
    effects := CallbackEffects(None, false);
    if body.NotUtf8? {
      return HttpReply(400, "Invalid UTF-8"), effects;
    }
    if body.Unparsable? {
      return HttpReply(400, "Invalid form data"), effects;
    }
    var form := body.fields;
    var signature := FieldOr(form, SIGNATURE);
    if signature == "" {
      return HttpReply(400, "Missing signature"), effects;
    }
    if !verify(SignaturePayload(form), signature) {
      return HttpReply(401, "Invalid signature"), effects;
    }
    var code := FieldOr(form, "result.code");
    var txn := FieldOr(form, "merchantTransactionId");
    match WebhookDispatch(code) {
      case CompletePayment =>
        var payment := PaymentByMerchantId(db.payments, txn);
        if payment.Some? {
          var updated := db.UpdatePaymentStatus(txn, PaymentStatus.Completed);
          var peachId := Get(form, "id");
          if peachId.Some? {
            effects := CallbackEffects(peachId, !isRecurring(payment.value));
          }
          if payment.value.subscriptionId.Some? {
            var activated := db.ActivateSubscription(payment.value.subscriptionId.value, now);
          }
        }
      case FailPayment =>
        var updated := db.UpdatePaymentStatus(txn, PaymentStatus.Failed);
      case NoAction =>
    }
    reply := HttpReply(200, "Webhook received");
  }

  // ---------------------------------------------------------------------------
  // Status query
  // ---------------------------------------------------------------------------

  /** `check_payment_status` for a merchant transaction id. `reply` is what
      the gateway answers about the payment's checkout; `queried` is the
      checkout id asked about, None when no request is made. */
  method CheckPaymentStatus(db: DatabaseService, txn: string, reply: Result<Json, string>, now: int)
    returns (response: HttpReply, queried: Option<string>)
    requires db.Valid()
    modifies db
    ensures db.Valid()
    ensures db.users == old(db.users) && db.recurringPayments == old(db.recurringPayments)
    ensures db.notifications == old(db.notifications)
    ensures var payment := PaymentByMerchantId(old(db.payments), txn);
      && (payment.None? ==> response == HttpReply(404, "Payment not found") && queried == None)
      && (payment.Some? ==> queried == payment.value.checkoutId)
      && (payment.Some? && queried.None? ==> response == HttpReply(200, "No checkout ID available"))
    ensures queried.None? ==> Untouched(db)
    ensures queried.Some? && reply.Err? ==> response == HttpReply(500, "Error checking payment status") && Untouched(db)
    ensures queried.Some? && reply.Ok? && ResultCode(reply.value).None? ==> response == HttpReply(200, "unknown") && Untouched(db)
    ensures queried.Some? && reply.Ok? && ResultCode(reply.value).Some? ==>
      var s := StatusCheckClass(ResultCode(reply.value).value);
      && response == HttpReply(200, DebugName(s))
      && db.payments == PatchPayments(old(db.payments), txn, SetStatus(s))
      && db.subscriptions == if s == PaymentStatus.Completed
                             then AfterCompletion(old(db.subscriptions), PaymentByMerchantId(old(db.payments), txn).value, now)
                             else old(db.subscriptions)
  {
    var payment := PaymentByMerchantId(db.payments, txn);
    if payment.None? {
      return HttpReply(404, "Payment not found"), None;
    }
    queried := payment.value.checkoutId;
    if queried.None? {
      return HttpReply(200, "No checkout ID available"), queried;
    }
    if reply.Err? {
      return HttpReply(500, "Error checking payment status"), queried;
    }
    var code := ResultCode(reply.value);
    if code.None? {
      return HttpReply(200, "unknown"), queried;
    }
    var s := StatusCheckClass(code.value);
    var updated := db.UpdatePaymentStatus(txn, s);
    if s == PaymentStatus.Completed && payment.value.subscriptionId.Some? {
      var activated := db.ActivateSubscription(payment.value.subscriptionId.value, now);
    }
    response := HttpReply(200, DebugName(s));
  }

  // ---------------------------------------------------------------------------
  // Opening a checkout
  // ---------------------------------------------------------------------------

  /** `initiate_payment`. `key` and `uuid` stand for the generated ids,
      `reply` for the gateway's answer to the checkout request. The payment
      is stored before the gateway is asked and stays, Pending, when the
      gateway fails. Returns the stored payment, None when none was. */
  method InitiatePayment(db: DatabaseService, dto: CreatePaymentDto, key: string, uuid: string, reply: Result<Json, string>)
    returns (response: HttpReply, created: Option<PaymentRow>)
    requires db.Valid()
    modifies db
    ensures db.Valid()
    ensures db.users == old(db.users) && db.subscriptions == old(db.subscriptions)
    ensures db.recurringPayments == old(db.recurringPayments) && db.notifications == old(db.notifications)
    ensures var sub := SubscriptionById(old(db.subscriptions), dto.subscriptionId);
      && (sub.None? ==> response == HttpReply(404, "Subscription not found"))
      && (sub.Some? && sub.value.status != SubscriptionStatus.Pending ==> response == HttpReply(400, "Subscription is not pending"))
      && (created.Some? <==> sub.Some? && sub.value.status == SubscriptionStatus.Pending && !HasPaymentId(old(db.payments), PAYMENT_PREFIX + key))
      && (sub.Some? && sub.value.status == SubscriptionStatus.Pending && HasPaymentId(old(db.payments), PAYMENT_PREFIX + key) ==>
            response == HttpReply(500, "Error creating payment record"))
    ensures created.None? ==> Untouched(db)
    ensures created.Some? ==>
      && created.value.status == PaymentStatus.Pending && created.value.paymentMethod == Card
      && created.value.checkoutId == None && created.value.merchantTransactionId == MerchantTxnId(uuid)
      && created.value.userId == dto.userId && created.value.subscriptionId == Some(dto.subscriptionId)
      && created.value.amount == dto.amount
    ensures created.Some? && reply.Ok? && StrField(reply.value, "checkoutId").Some? ==>
      var checkoutId := StrField(reply.value, "checkoutId").value;
      && response == HttpReply(200, checkoutId)
      && db.payments == PatchPayments(old(db.payments) + [created.value], created.value.merchantTransactionId, SetCheckoutId(checkoutId))
    ensures created.Some? && reply.Ok? && StrField(reply.value, "checkoutId").None? ==>
      response == HttpReply(500, "Peach Payments response missing 'checkoutId'") && db.payments == old(db.payments) + [created.value]
    ensures created.Some? && reply.Err? ==>
      response == HttpReply(500, "Failed to initiate payment with Peach Payments") && db.payments == old(db.payments) + [created.value]
  {
    var sub := SubscriptionById(db.subscriptions, dto.subscriptionId);
    if sub.None? {
      return HttpReply(404, "Subscription not found"), None;
    }
    if sub.value.status != SubscriptionStatus.Pending {
      return HttpReply(400, "Subscription is not pending"), None;
    }
    var record := db.CreatePayment(CreatePaymentDto(dto.userId, dto.subscriptionId, dto.amount, None), key, uuid);
    if record.Err? {
      return HttpReply(500, "Error creating payment record"), None;
    }
    created := Some(record.value);
    match reply {
      case Err(_) =>
        response := HttpReply(500, "Failed to initiate payment with Peach Payments");
      case Ok(json) =>
        var checkoutId := StrField(json, "checkoutId");
        if checkoutId.Some? {
          var updated := db.UpdatePaymentCheckoutId(record.value.merchantTransactionId, checkoutId.value);
          response := HttpReply(200, checkoutId.value);
        } else {
          response := HttpReply(500, "Peach Payments response missing 'checkoutId'");
        }
    }
  }

  // ---------------------------------------------------------------------------
  // Recurring charge
  // ---------------------------------------------------------------------------

  /** A stored payment method as `create_recurring_payment` reads it. */
  datatype MethodDetail = MethodDetail(id: string, isActive: bool, registrationId: Option<string>)

  datatype RecurringRequest = RecurringRequest(userId: string, subscriptionId: string, methodId: string, amount: real)

  /** `create_recurring_payment`. `methods` is the user's stored methods,
      `record` the payment record the handler creates for the charge, and
      `reply` the gateway's answer to the charge. Returns the registration id
      charged, None when no charge was made. */
  method CreateRecurringPayment(db: DatabaseService, request: RecurringRequest, methods: seq<MethodDetail>,
                                record: Result<PaymentRow, string>, reply: Result<Json, string>, now: int)
    returns (response: HttpReply, charged: Option<string>)
    requires db.Valid()
    modifies db
    ensures db.Valid()
    ensures db.users == old(db.users) && db.recurringPayments == old(db.recurringPayments)
    ensures db.notifications == old(db.notifications)
    ensures var sub := SubscriptionById(old(db.subscriptions), request.subscriptionId);
      var found := FirstIndex(methods, (m: MethodDetail) => m.id == request.methodId);
      && (sub.None? ==> response == HttpReply(404, "Subscription not found"))
      && (sub.Some? && found.None? ==> response == HttpReply(500, "Payment method not found"))
      && (sub.Some? && found.Some? && !methods[found.value].isActive ==> response == HttpReply(400, "Payment method is not active"))
      && (sub.Some? && found.Some? && methods[found.value].isActive && record.Err? ==>
            response == HttpReply(500, "Error creating recurring payment record"))
      && (sub.Some? && found.Some? && methods[found.value].isActive && record.Ok? && methods[found.value].registrationId.None? ==>
            response == HttpReply(400, "Payment method does not support recurring payments"))
      && (charged.Some? <==> sub.Some? && found.Some? && methods[found.value].isActive && record.Ok? && methods[found.value].registrationId.Some?)
      && (charged.Some? ==> charged == methods[found.value].registrationId)
    ensures charged.None? ==> Untouched(db)
    ensures charged.Some? && reply.Err? ==> response == HttpReply(500, "Failed to process recurring payment") && Untouched(db)
    ensures charged.Some? && reply.Ok? ==>
      var s := RecurringClass(ResultCode(reply.value));
      && response == HttpReply(200, DebugName(s))
      && db.payments == PatchPayments(old(db.payments), record.value.merchantTransactionId, SetStatus(s))
      && db.subscriptions == if s == PaymentStatus.Completed
                             then PatchSubscriptions(old(db.subscriptions), RecordId(SUBSCRIPTION_PREFIX, request.subscriptionId), ActivateAt(now))
                             else old(db.subscriptions)
  {
    charged := None;
    var sub := SubscriptionById(db.subscriptions, request.subscriptionId);
    if sub.None? {
      return HttpReply(404, "Subscription not found"), charged;
    }
    var found := FirstIndex(methods, (m: MethodDetail) => m.id == request.methodId);
    if found.None? {
      return HttpReply(500, "Payment method not found"), charged;
    }
    var method_ := methods[found.value];
    if !method_.isActive {
      return HttpReply(400, "Payment method is not active"), charged;
    }
    if record.Err? {
      return HttpReply(500, "Error creating recurring payment record"), charged;
    }
    if method_.registrationId.None? {
      return HttpReply(400, "Payment method does not support recurring payments"), charged;
    }
    charged := method_.registrationId;
    if reply.Err? {
      return HttpReply(500, "Failed to process recurring payment"), charged;
    }
    var s := RecurringClass(ResultCode(reply.value));
    var updated := db.UpdatePaymentStatus(record.value.merchantTransactionId, s);
    if s == PaymentStatus.Completed {
      var activated := db.ActivateSubscription(request.subscriptionId, now);
    }
    response := HttpReply(200, DebugName(s));
  }

  // ---------------------------------------------------------------------------
  // Storing a payment method
  // ---------------------------------------------------------------------------

  /** Which gateway query supplies the payment details. */
  datatype DetailsQuery = NoQuery | ByPaymentId(peachId: string) | ByCheckoutId(checkoutId: string)

  /** `store_payment_method`'s decisions for the payment `paymentId`.
      `peachIdOf` reads the payment's gateway id, `details` is the answer to
      the query made, `extracted` and `stored` the outcomes of extracting and
      storing the method. Only a completed payment has its method stored;
      its gateway payment id is preferred to its checkout id. */
  function StorePaymentMethod(payments: seq<PaymentRow>, paymentId: string, peachIdOf: PaymentRow -> Option<string>,
                              details: Result<Json, string>, extracted: Result<(), string>, stored: Result<(), string>)
    : (r: (HttpReply, DetailsQuery))
    ensures PaymentById(payments, paymentId).None? ==> r == (HttpReply(404, "Payment not found"), NoQuery)
    ensures var p := PaymentById(payments, paymentId);
      p.Some? && p.value.status != PaymentStatus.Completed ==> r == (HttpReply(400, "Payment is not completed"), NoQuery)
    ensures var p := PaymentById(payments, paymentId);
      r.1.ByPaymentId? <==> p.Some? && p.value.status == PaymentStatus.Completed && peachIdOf(p.value).Some?
    ensures var p := PaymentById(payments, paymentId);
      r.1.ByCheckoutId? <==> p.Some? && p.value.status == PaymentStatus.Completed && peachIdOf(p.value).None? && p.value.checkoutId.Some?
    ensures r.1.ByPaymentId? ==> Some(r.1.peachId) == peachIdOf(PaymentById(payments, paymentId).value)
    ensures r.1.ByCheckoutId? ==> Some(r.1.checkoutId) == PaymentById(payments, paymentId).value.checkoutId
    ensures r.0.status == 200 <==> r.1 != NoQuery && details.Ok? && extracted.Ok? && stored.Ok?
    ensures r.0.status == 200 ==> r.0.text == "Payment method stored successfully"
  {
    var payment := PaymentById(payments, paymentId);
    if payment.None? then (HttpReply(404, "Payment not found"), NoQuery)
    else if payment.value.status != PaymentStatus.Completed then (HttpReply(400, "Payment is not completed"), NoQuery)
    else
      var query :=
        if peachIdOf(payment.value).Some? then ByPaymentId(peachIdOf(payment.value).value)
        else if payment.value.checkoutId.Some? then ByCheckoutId(payment.value.checkoutId.value)
        else NoQuery;
      if query == NoQuery then (HttpReply(400, "No payment details available to extract payment method"), NoQuery)
      else if details.Err? then
        (HttpReply(500, if query.ByPaymentId? then "Failed to retrieve payment details from Peach"
                        else "Failed to retrieve payment details"), query)
      else if extracted.Err? then (HttpReply(500, "Failed to extract payment method details"), query)
      else if stored.Err? then (HttpReply(500, "Failed to store payment method"), query)
      else (HttpReply(200, "Payment method stored successfully"), query)
  }

  // ---------------------------------------------------------------------------
  // Redirect after a checkout
  // ---------------------------------------------------------------------------

  /** `trim_start_matches('/')`: every leading slash goes, and only those:
      the result is what follows a run of slashes. */
  function TrimLeadingSlashes(s: string): (r: string)
    ensures r == [] || r[0] != '/'
    ensures |r| <= |s| && r == s[|s| - |r|..]
    ensures forall i :: 0 <= i < |s| - |r| ==> s[i] == '/'
  {
    if |s| > 0 && s[0] == '/' then TrimLeadingSlashes(s[1..]) else s
  }

  /** The checkout id the GET callback reads from a resource path, as
      written: the path must begin with `checkouts/`. */
  function CheckoutIdOfPathAsWritten(path: string): Option<string> {
    var parts := Split(TrimLeadingSlashes(path), '/');
    if |parts| >= 2 && parts[0] == "checkouts" then Some(parts[1]) else None
  }

  /** The same, also accepting the gateway's own resource path
      `/v1/checkouts/{id}/payment`. */
  function CheckoutIdOfPath(path: string): Option<string> {
    var parts := Split(TrimLeadingSlashes(path), '/');
    if |parts| >= 2 && parts[0] == "checkouts" then Some(parts[1])
    else if |parts| >= 3 && parts[0] == "v1" && parts[1] == "checkouts" then Some(parts[2])
    else None
  }

  /** Four pieces without the separator, joined by it, split back. */
  lemma SplitFour(a: string, b: string, c: string, d: string, sep: char)
    requires sep !in a && sep !in b && sep !in c && sep !in d
    ensures Split(a + [sep] + b + [sep] + c + [sep] + d, sep) == [a, b, c, d]
  {
    var cd := c + [sep] + d;
    var bcd := b + [sep] + cd;
    assert a + [sep] + b + [sep] + c + [sep] + d == a + [sep] + bcd;
    SplitAtSeparator(a, bcd, sep);
    SplitAtSeparator(b, cd, sep);
    SplitAtSeparator(c, d, sep);
    SplitNoSeparator(a, sep);
    SplitNoSeparator(b, sep);
    SplitNoSeparator(c, sep);
    SplitNoSeparator(d, sep);
  }

  /** The gateway's resource path without its leading slash. */
  lemma GatewayPathTrimmed(id: string)
    ensures TrimLeadingSlashes("/v1/checkouts/" + id + "/payment") == "v1" + ['/'] + "checkouts" + ['/'] + id + ['/'] + "payment"
  {
    var rest := "v1" + ['/'] + "checkouts" + ['/'] + id + ['/'] + "payment";
    assert "/v1/checkouts/" + id + "/payment" == "/" + rest;
    assert ("/" + rest)[1..] == rest;
    assert rest[0] == 'v';
  }

  /** The pieces of the gateway's resource path. */
  lemma GatewayPathParts(id: string)
    requires '/' !in id
    ensures Split(TrimLeadingSlashes("/v1/checkouts/" + id + "/payment"), '/') == ["v1", "checkouts", id, "payment"]
  {
    GatewayPathTrimmed(id);
    SplitFour("v1", "checkouts", id, "payment", '/');
  }

  /** As written, the gateway's resource path never yields a checkout id. */
  lemma GatewayPathRejectedAsWritten(id: string)
    requires '/' !in id
    ensures CheckoutIdOfPathAsWritten("/v1/checkouts/" + id + "/payment") == None
  {
    GatewayPathParts(id);
  }

  /** The corrected reading finds the id in the gateway's path and agrees
      with the written one wherever that finds an id. */
  lemma CheckoutIdOfPathCorrected(id: string, path: string)
    requires '/' !in id
    ensures CheckoutIdOfPath("/v1/checkouts/" + id + "/payment") == Some(id)
    ensures CheckoutIdOfPathAsWritten(path).Some? ==> CheckoutIdOfPath(path) == CheckoutIdOfPathAsWritten(path)
  {
    GatewayPathParts(id);
  }

  /** The redirect for a checkout id read from `path`: the result page with
      the payment's merchant transaction id ("unknown" when the reply has
      none) and the path, or the error page when the query failed. */
  function Redirect(path: string, reply: Result<Json, string>): (r: HttpReply)
    ensures r.status == 302
    ensures reply.Err? <==> r.text == "/payment-result.html?status=error"
    ensures reply.Ok? && StrField(reply.value, "merchantTransactionId").Some? ==>
      r.text == "/payment-result.html?id=" + StrField(reply.value, "merchantTransactionId").value + "&resourcePath=" + path
    ensures reply.Ok? && StrField(reply.value, "merchantTransactionId").None? ==>
      r.text == "/payment-result.html?id=unknown&resourcePath=" + path
  {
    match reply
    case Err(_) => HttpReply(302, "/payment-result.html?status=error")
    case Ok(json) =>
      var location := "/payment-result.html?id=" + StrField(json, "merchantTransactionId").GetOr("unknown") + "&resourcePath=" + path;
      assert location[21] == 'i' != "/payment-result.html?status=error"[21];
      HttpReply(302, location)
  }

  const INVALID_PATH: HttpReply := HttpReply(400, "Invalid or missing resource path")

  /** `handle_payment_callback_get` as written. Returns the response and the
      checkout id queried. */
  function CallbackGetAsWritten(resourcePath: Option<string>, reply: Result<Json, string>): (r: (HttpReply, Option<string>))
    ensures resourcePath.None? ==> r == (INVALID_PATH, None)
    ensures resourcePath.Some? ==> r.1 == CheckoutIdOfPathAsWritten(resourcePath.value)
    ensures r.1.None? ==> r.0 == INVALID_PATH
    ensures r.1.Some? ==> r.0 == Redirect(resourcePath.value, reply)
  {
    if resourcePath.None? then (INVALID_PATH, None)
    else
      var id := CheckoutIdOfPathAsWritten(resourcePath.value);
      if id.None? then (INVALID_PATH, None) else (Redirect(resourcePath.value, reply), id)
  }

  /** The GET callback with the corrected reading of the path. */
  function CallbackGet(resourcePath: Option<string>, reply: Result<Json, string>): (r: (HttpReply, Option<string>))
    ensures resourcePath.None? ==> r == (INVALID_PATH, None)
    ensures resourcePath.Some? ==> r.1 == CheckoutIdOfPath(resourcePath.value)
    ensures r.1.None? ==> r.0 == INVALID_PATH
    ensures r.1.Some? ==> r.0 == Redirect(resourcePath.value, reply)
  {
    if resourcePath.None? then (INVALID_PATH, None)
    else
      var id := CheckoutIdOfPath(resourcePath.value);
      if id.None? then (INVALID_PATH, None) else (Redirect(resourcePath.value, reply), id)
  }

  /** The redirect the gateway sends back after a checkout gets 400 as
      written and a redirect with the corrected reading. */
  lemma GatewayRedirectOutcome(id: string, reply: Result<Json, string>)
    requires '/' !in id
    ensures CallbackGetAsWritten(Some("/v1/checkouts/" + id + "/payment"), reply).0.status == 400
    ensures CallbackGet(Some("/v1/checkouts/" + id + "/payment"), reply) ==
      (Redirect("/v1/checkouts/" + id + "/payment", reply), Some(id))
  {
    GatewayPathRejectedAsWritten(id);
    CheckoutIdOfPathCorrected(id, "");
  }

  /** With the corrected reading, a good reply to the gateway's own path
      sends the shopper to the result page for the reply's merchant
      transaction id. */
  lemma GatewayRedirectLocation(id: string, txn: string, reply: Result<Json, string>)
    requires '/' !in id
    requires reply.Ok? && StrField(reply.value, "merchantTransactionId") == Some(txn)
    ensures CallbackGet(Some("/v1/checkouts/" + id + "/payment"), reply).0
      == HttpReply(302, "/payment-result.html?id=" + txn + "&resourcePath=" + ("/v1/checkouts/" + id + "/payment"))
  {
    CheckoutIdOfPathCorrected(id, "");
    var path := "/v1/checkouts/" + id + "/payment";
    assert CallbackGet(Some(path), reply).0 == Redirect(path, reply);
  }
}
