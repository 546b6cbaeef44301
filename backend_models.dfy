/** The rows of the backend crate's tables (payments, subscriptions, recurring
    payments, notifications, users) and the backend's own payment-method
    names. The backend's timestamps of creation and update are not written
    by its store and are left out of the rows. */
module BackendModels {
  import opened Base
  import Common

  datatype PaymentStatus = Pending | Completed | Failed | Cancelled | Refunded

  datatype PaymentMethod = Card | EFT | Voucher | ScanToPay

  /** `Display for PaymentMethod`. */
  function Display(m: PaymentMethod): (s: string)
    ensures s == "CARD" <==> m == Card
    ensures s == "EFT" <==> m == EFT
    ensures s == "VOUCHER" <==> m == Voucher
    ensures s == "SCAN_TO_PAY" <==> m == ScanToPay
  {
    match m
    case Card => "CARD"
    case EFT => "EFT"
    case Voucher => "VOUCHER"
    case ScanToPay => "SCAN_TO_PAY"
  }

  /** Distinct methods are displayed as distinct names. */
  lemma DisplayInjective(a: PaymentMethod, b: PaymentMethod)
    ensures Display(a) == Display(b) ==> a == b
  {
  }

  /** The method of the same name in the application crate. */
  function Counterpart(m: PaymentMethod): (c: Common.PaymentMethod)
    ensures m == Card <==> c == Common.Card
    ensures m == EFT <==> c == Common.Eft
    ensures m == Voucher <==> c == Common.OneVoucher
    ensures m == ScanToPay <==> c == Common.ScanToPay
  {
    match m
    case Card => Common.Card
    case EFT => Common.Eft
    case Voucher => Common.OneVoucher
    case ScanToPay => Common.ScanToPay
  }

  /** The two crates name three of the four methods alike; the voucher is
      "VOUCHER" in the backend and "1VOUCHER" in the application crate. */
  lemma DisplayAgainstApplicationCrate(m: PaymentMethod)
    ensures Display(m) == Common.MethodText(Counterpart(m)) <==> m != Voucher
    ensures Display(Voucher) == "VOUCHER" && Common.MethodText(Common.OneVoucher) == "1VOUCHER"
  {
    assert "VOUCHER"[0] != "1VOUCHER"[0];
  }

  /** A row of `payments`. */
  datatype PaymentRow = PaymentRow(
    id: string,
    userId: string,
    subscriptionId: Option<string>,
    amount: real,
    status: PaymentStatus,
    paymentMethod: PaymentMethod,
    recurringToken: Option<string>,
    merchantTransactionId: string,
    checkoutId: Option<string>)

  datatype CreatePaymentDto = CreatePaymentDto(
    userId: string,
    subscriptionId: string,
    amount: real,
    paymentMethod: Option<PaymentMethod>)

  datatype SubscriptionStatus = Pending | Active | Expired | Cancelled | Suspended

  /** A row of `subscriptions`; `id` is the full record id
      (`subscriptions:<key>`). */
  datatype SubscriptionRow = SubscriptionRow(
    id: string,
    userId: string,
    planName: string,
    price: real,
    status: SubscriptionStatus,
    paymentMethod: Option<PaymentMethod>,
    paymentBrand: Option<string>,
    startDate: Option<int>,
    endDate: Option<int>)

  datatype CreateSubscriptionDto = CreateSubscriptionDto(
    userId: string,
    planName: string,
    price: real,
    paymentMethod: Option<PaymentMethod>)

  datatype RecurringPaymentStatus = Active | Cancelled | Failed

  /** A row of `recurring_payments`: a stored card token of a user. */
  datatype RecurringPayment = RecurringPayment(
    id: string,
    userId: string,
    subscriptionId: string,
    recurringToken: string,
    cardLastFour: Option<string>,
    cardBrand: Option<string>,
    status: RecurringPaymentStatus)

  /** A row of `notification`. */
  datatype Notification = Notification(
    id: string,
    userId: string,
    subscriptionId: string,
    message: string,
    acknowledged: bool)

  /** A row of `users`. */
  datatype UserRow = UserRow(id: string, email: string, name: string)
}
