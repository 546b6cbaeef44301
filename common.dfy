/** Shared value types of the payment crate: payment methods and subscription
    plans with their display texts, the API envelope and the pagination query. */
module Common {
  import opened Base

  datatype PaymentMethod = Card | Eft | OneVoucher | ScanToPay

  /** The `Display` text of a payment method, which the gateway receives as a
      payment brand. */
  function MethodText(m: PaymentMethod): (s: string)
    ensures |s| > 0
  {
    match m
    case Card => "CARD"
    case Eft => "EFT"
    case OneVoucher => "1VOUCHER"
    case ScanToPay => "SCAN_TO_PAY"
  }

  /** The four texts, no two of them equal. */
  lemma MethodTextInjective(a: PaymentMethod, b: PaymentMethod)
    ensures MethodText(a) == MethodText(b) ==> a == b
    ensures [MethodText(Card), MethodText(Eft), MethodText(OneVoucher), MethodText(ScanToPay)]
         == ["CARD", "EFT", "1VOUCHER", "SCAN_TO_PAY"]
  {
  }

  datatype SubscriptionPlan = Monthly | Annual {
    /** The price in rand (a two-place decimal in the source). */
    function Price(): (p: real)
      ensures p > 0.0
    {
      match this
      case Monthly => 100.00
      case Annual => 1000.00
    }

    function DurationDays(): (d: int)
      ensures d > 0
    {
      match this
      case Monthly => 30
      case Annual => 365
    }

    function Text(): (s: string)
      ensures |s| > 0
    {
      match this
      case Monthly => "monthly"
      case Annual => "annual"
    }
  }

  /** The annual plan lasts longer and costs less per day than the monthly one. */
  lemma AnnualCheaperPerDay()
    ensures Annual.DurationDays() > Monthly.DurationDays()
    ensures Annual.Price() / Annual.DurationDays() as real < Monthly.Price() / Monthly.DurationDays() as real
  {
  }

  /** The plan table: a month of 30 days for R100.00, a year of 365 days for
      R1000.00. */
  lemma PlanTable()
    ensures Monthly.Price() == 100.00 && Monthly.DurationDays() == 30 && Monthly.Text() == "monthly"
    ensures Annual.Price() == 1000.00 && Annual.DurationDays() == 365 && Annual.Text() == "annual"
  {
  }

  lemma PlanTextInjective(a: SubscriptionPlan, b: SubscriptionPlan)
    ensures a.Text() == b.Text() ==> a == b
  {
  }

  /** The JSON envelope of every API reply. */
  datatype ApiResponse<T> = ApiResponse(success: bool, data: Option<T>, message: Option<string>, error: Option<string>) {
    /** A reply carries data exactly when it succeeded and an error exactly when
        it did not. */
    predicate Consistent() {
      && (success <==> data.Some?)
      && (success <==> error.None?)
    }
  }

  function Success<T>(data: T): (r: ApiResponse<T>)
    ensures r.Consistent() && r.success && r.data == Some(data) && r.message.None?
  {
    ApiResponse(true, Some(data), None, None)
  }

  function SuccessWithMessage<T>(data: T, message: string): (r: ApiResponse<T>)
    ensures r.Consistent() && r.success && r.data == Some(data) && r.message == Some(message)
  {
    ApiResponse(true, Some(data), Some(message), None)
  }

  function Error<T>(error: string): (r: ApiResponse<T>)
    ensures r.Consistent() && !r.success && r.error == Some(error) && r.message.None?
  {
    ApiResponse(false, None, None, Some(error))
  }

  datatype PaginationQuery = PaginationQuery(page: Option<u32>, limit: Option<u32>)

  /** `PaginationQuery::default()`. */
  function DefaultQuery(): (q: PaginationQuery)
    ensures q.page == Some(1) && q.limit == Some(20)
  {
    PaginationQuery(Some(1), Some(20))
  }
}
