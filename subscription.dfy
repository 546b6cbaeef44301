/** The subscription lifecycle of the payment crate: activation, extension,
    pause and resume, cancellation, plan and billing-date changes with their
    proration, renewal-attempt counters and the date-driven
    Active -> Grace -> Expired sweep.

    Each operation is a pure transition on a `Record` (the subscription's
    fields as a value); the class `Subscription` holds the same fields and its
    methods update them in place, proved equal to the pure transition. */
module Subscriptions {
  import opened Base
  import opened Json
  import opened Common

  datatype SubscriptionStatus = Pending | Active | Grace | Expired | Suspended | Cancelled

  /** chrono's `Duration::num_days`: whole days, truncated toward zero. */
  function NumDays(seconds: int): (d: int)
    ensures seconds >= 0 ==> d >= 0 && d * DAY <= seconds < (d + 1) * DAY
    ensures seconds < 0 ==> d <= 0 && (d - 1) * DAY < seconds <= d * DAY
  {
    if seconds >= 0 then seconds / DAY else -((-seconds) / DAY)
  }

  lemma NumDaysOfWholeDays(k: int)
    ensures NumDays(k * DAY) == k
  {
    if k < 0 {
      assert -(k * DAY) == (-k) * DAY;
    }
  }

  function Shift(date: Option<int>, delta: int): (r: Option<int>)
    ensures r.Some? <==> date.Some?
    ensures r.Some? ==> r.value - date.value == delta
  {
    match date
    case Some(d) => Some(d + delta)
    case None => None
  }

  datatype Proration = Proration(
    currentPlanRefund: real,
    newPlanCharge: real,
    netAmount: real,
    effectiveDate: int,
    daysUsed: int,
    daysRemaining: int)

  datatype CreateSubscriptionRequest = CreateSubscriptionRequest(
    userId: string,
    plan: SubscriptionPlan,
    autoRenew: Option<bool>,
    billingCycleAnchor: Option<int>,
    metadata: Option<Json>)

  /** The fields of a subscription. Dates are seconds since the epoch;
      `pauseDuration` is a length in seconds. */
  datatype Record = Record(
    id: string,
    userId: string,
    plan: SubscriptionPlan,
    status: SubscriptionStatus,
    price: real,
    currency: string,
    startDate: Option<int>,
    endDate: Option<int>,
    graceEndDate: Option<int>,
    billingCycleAnchor: Option<int>,
    renewalAttempts: nat,
    maxRenewalAttempts: nat,
    autoRenew: bool,
    pauseDuration: Option<int>,
    pausedAt: Option<int>,
    metadata: Option<Json>,
    createdAt: int,
    updatedAt: int)

  /** The grace period does not end before the paid period does. */
  predicate GraceNotBeforeEnd(r: Record) {
    r.endDate.Some? && r.graceEndDate.Some? ==> r.endDate.value <= r.graceEndDate.value
  }

  /** The fields no lifecycle operation other than a plan change touches. */
  predicate SameTerms(r: Record, r': Record) {
    && r'.id == r.id && r'.userId == r.userId && r'.plan == r.plan
    && r'.price == r.price && r'.currency == r.currency
    && r'.metadata == r.metadata && r'.createdAt == r.createdAt
  }

  /** `Subscription::new`: a pending subscription priced from its plan, with no
      dates, no attempts, at most five attempts and auto-renewal unless
      declined. */
  function NewRecord(request: CreateSubscriptionRequest, id: string, now: int): (r: Record)
    ensures r.status == Pending && r.plan == request.plan && r.price == request.plan.Price()
    ensures r.currency == "ZAR"
    ensures r.startDate == None && r.endDate == None && r.graceEndDate == None
    ensures r.pausedAt == None && r.pauseDuration == None
    ensures r.billingCycleAnchor == request.billingCycleAnchor
    ensures r.renewalAttempts == 0 && r.maxRenewalAttempts == 5
    ensures r.autoRenew == request.autoRenew.GetOr(true)
    ensures r.createdAt == now && r.updatedAt == now
  {
    Record(id, request.userId, request.plan, Pending, request.plan.Price(), "ZAR",
           None, None, None, request.billingCycleAnchor, 0, 5,
           request.autoRenew.GetOr(true), None, None, request.metadata, now, now)
  }

  /** `activate`: the period starts at the billing anchor (or now), lasts the
      plan's duration, and is followed by `graceDays` of grace. */
  function Activated(r: Record, graceDays: u32, now: int): (r': Record)
    ensures r'.status == Active && r'.renewalAttempts == 0 && r'.updatedAt == now
    ensures r'.startDate == Some(r.billingCycleAnchor.GetOr(now))
    ensures r'.endDate == Some(r'.startDate.value + r.plan.DurationDays() * DAY)
    ensures r'.graceEndDate == Some(r'.endDate.value + graceDays * DAY)
    ensures r'.startDate.value < r'.endDate.value && GraceNotBeforeEnd(r')
    ensures SameTerms(r, r') && r'.autoRenew == r.autoRenew && r'.pausedAt == r.pausedAt
  {
    var start := r.billingCycleAnchor.GetOr(now);
    var end := start + r.plan.DurationDays() * DAY;
    r.(status := Active, startDate := Some(start), endDate := Some(end),
       graceEndDate := Some(end + graceDays * DAY), renewalAttempts := 0, updatedAt := now)
  }

  /** `extend`: with an end date, moves it (and the grace end, when set) by
      `days`; without one, no date moves. */
  function Extended(r: Record, days: int, now: int): (r': Record)
    ensures r.endDate.Some? ==> r'.endDate == Shift(r.endDate, days * DAY) && r'.graceEndDate == Shift(r.graceEndDate, days * DAY)
    ensures r.endDate.None? ==> r'.endDate == None && r'.graceEndDate == r.graceEndDate
    ensures r'.status == r.status && r'.startDate == r.startDate && r'.updatedAt == now
    ensures SameTerms(r, r') && (GraceNotBeforeEnd(r) ==> GraceNotBeforeEnd(r'))
  {
    if r.endDate.Some? then
      r.(endDate := Shift(r.endDate, days * DAY), graceEndDate := Shift(r.graceEndDate, days * DAY), updatedAt := now)
    else
      r.(updatedAt := now)
  }

  // The refusals of the lifecycle operations.
  const PAUSE_REFUSED: string := "Can only pause active subscriptions"
  const RESUME_REFUSED: string := "Can only resume suspended subscriptions"
  const PLAN_CHANGE_REFUSED: string := "Can only change plan for active or grace period subscriptions"
  const BILLING_DATE_REFUSED: string := "Can only change billing date for active subscriptions"
  const NO_END_DATE: string := "No end date set"

  /** `pause`: only an Active subscription can be paused; it becomes
      Suspended with the pause time recorded, its dates and terms kept. */
  function Paused(r: Record, now: int): (res: Result<Record, string>)
    ensures res.Ok? <==> r.status == Active
    ensures res.Err? ==> res.error == PAUSE_REFUSED
    ensures res.Ok? ==> var r' := res.value;
      && r'.status == Suspended && r'.pausedAt == Some(now) && r'.updatedAt == now
      && r'.startDate == r.startDate && r'.endDate == r.endDate && r'.graceEndDate == r.graceEndDate
      && r'.pauseDuration == r.pauseDuration && r'.billingCycleAnchor == r.billingCycleAnchor
      && r'.renewalAttempts == r.renewalAttempts && r'.maxRenewalAttempts == r.maxRenewalAttempts
      && r'.autoRenew == r.autoRenew && SameTerms(r, r')
  {
    if r.status != Active then Err(PAUSE_REFUSED)
    else Ok(r.(status := Suspended, pausedAt := Some(now), updatedAt := now))
  }

  /** `resume`: only a Suspended subscription can be resumed; the end and grace
      dates move forward by the time spent paused, when that is recorded. */
  function Resumed(r: Record, now: int): (res: Result<Record, string>)
    ensures res.Ok? <==> r.status == Suspended
    ensures res.Err? ==> res.error == RESUME_REFUSED
  {
    if r.status != Suspended then Err(RESUME_REFUSED)
    else
      var shifted :=
        match r.pausedAt
        case Some(p) => r.(endDate := Shift(r.endDate, now - p), graceEndDate := Shift(r.graceEndDate, now - p))
        case None => r;
      Ok(shifted.(status := Active, pauseDuration := None, pausedAt := None, updatedAt := now))
  }

  /** A successful resume makes the subscription Active, clears the pause, and
      moves the end and grace dates by the time since the pause (when the pause
      time is recorded), so their order is kept. */
  lemma ResumeShiftsDates(r: Record, now: int)
    ensures var res := Resumed(r, now);
      res.Ok? ==> var r' := res.value;
      && r'.status == Active && r'.pausedAt == None && r'.pauseDuration == None
      && r'.startDate == r.startDate && SameTerms(r, r')
      && (r.pausedAt.Some? ==>
            r'.endDate == Shift(r.endDate, now - r.pausedAt.value)
            && r'.graceEndDate == Shift(r.graceEndDate, now - r.pausedAt.value))
      && (r.pausedAt.None? ==> r'.endDate == r.endDate && r'.graceEndDate == r.graceEndDate)
      && (GraceNotBeforeEnd(r) ==> GraceNotBeforeEnd(r'))
  {
  }

  /** A successful plan change replaces plan and price, re-bases the end on the
      effective date when the period has a start, and carries over the grace
      gap measured from the nominal end of the old period. */
  lemma PlanChangeEffects(r: Record, newPlan: SubscriptionPlan, effective: Option<int>, now: int)
    ensures var res := PlanChanged(r, newPlan, effective, now);
      res.Ok? ==> var (r', p) := res.value;
      && r'.plan == newPlan && r'.price == newPlan.Price() && r'.status == r.status
      && r'.startDate == r.startDate
      && p == PlanChangeProration(r.plan, newPlan, r.startDate, effective.GetOr(now))
      && (r.startDate.Some? ==> r'.endDate == Some(effective.GetOr(now) + newPlan.DurationDays() * DAY))
      && (r.startDate.None? ==> r'.endDate == r.endDate && r'.graceEndDate == r.graceEndDate)
      && (r.startDate.Some? && r.graceEndDate.Some? ==>
            r'.graceEndDate.Some?
            && r'.graceEndDate.value - r'.endDate.value
               == NumDays(r.graceEndDate.value - (r.startDate.value + r.plan.DurationDays() * DAY)) * DAY)
  {
  }

  /** `cancel`: from any status, including Expired; auto-renewal is switched off. */
  function CancelledRecord(r: Record, now: int): (r': Record)
    ensures r'.status == Cancelled && !r'.autoRenew
    ensures r'.endDate == r.endDate && r'.graceEndDate == r.graceEndDate && SameTerms(r, r')
  {
    r.(status := Cancelled, autoRenew := false, updatedAt := now)
  }

  /** The proration of a plan change on `effective`: the unused days of the old
      period are refunded at the old daily rate, a full period of the new plan
      is charged at the new daily rate. */
  function PlanChangeProration(oldPlan: SubscriptionPlan, newPlan: SubscriptionPlan, start: Option<int>, effective: int): (p: Proration)
    ensures p.effectiveDate == effective
    ensures p.daysUsed == if start.Some? then NumDays(effective - start.value) else 0
    ensures p.daysUsed + p.daysRemaining == oldPlan.DurationDays()
  {
    var daysInPeriod := oldPlan.DurationDays();
    var daysUsed := if start.Some? then NumDays(effective - start.value) else 0;
    var daysRemaining := daysInPeriod - daysUsed;
    var dailyRateOld := oldPlan.Price() / daysInPeriod as real;
    var dailyRateNew := newPlan.Price() / newPlan.DurationDays() as real;
    var refund := dailyRateOld * daysRemaining as real;
    var charge := dailyRateNew * newPlan.DurationDays() as real;
    Proration(refund, charge, charge - refund, effective, daysUsed, daysRemaining)
  }

  /** In exact arithmetic the refund is the old price pro rata for the
      remaining days, the charge is exactly the new plan's price, and the net
      amount is their difference. */
  lemma ProrationAmounts(oldPlan: SubscriptionPlan, newPlan: SubscriptionPlan, start: Option<int>, effective: int)
    ensures var p := PlanChangeProration(oldPlan, newPlan, start, effective);
      && p.currentPlanRefund * oldPlan.DurationDays() as real == oldPlan.Price() * p.daysRemaining as real
      && p.newPlanCharge == newPlan.Price()
      && p.netAmount == p.newPlanCharge - p.currentPlanRefund
  {
    var p := PlanChangeProration(oldPlan, newPlan, start, effective);
    var oldDays := oldPlan.DurationDays() as real;
    var newDays := newPlan.DurationDays() as real;
    assert p.currentPlanRefund == oldPlan.Price() / oldDays * p.daysRemaining as real;
    assert p.newPlanCharge == newPlan.Price() / newDays * newDays;
  }

  /** `change_plan`: allowed while Active or in Grace. On success the plan and
      price are replaced; when the period has a start, it is re-based to end a
      full new period after the effective date, and the grace end keeps its
      distance from the end the old period nominally had (start + old
      duration). */
  function PlanChanged(r: Record, newPlan: SubscriptionPlan, effective: Option<int>, now: int): (res: Result<(Record, Proration), string>)
    ensures res.Ok? <==> r.status == Active || r.status == Grace
  {
    if r.status != Active && r.status != Grace then
      Err(PLAN_CHANGE_REFUSED)
    else
      var eff := effective.GetOr(now);
      Ok((RebasedOnPlan(r, newPlan, eff, now), PlanChangeProration(r.plan, newPlan, r.startDate, eff)))
  }

  /** The fields a plan change effective on `eff` writes. */
  function RebasedOnPlan(r: Record, newPlan: SubscriptionPlan, eff: int, now: int): Record {
    var end := RebasedEnd(r.startDate, r.endDate, newPlan, eff);
    r.(plan := newPlan, price := newPlan.Price(), endDate := end,
       graceEndDate := CarriedGrace(r.startDate, r.graceEndDate, r.plan, end), updatedAt := now)
  }

  /** With a start date, the period ends a full new period after `eff`. */
  function RebasedEnd(start: Option<int>, end: Option<int>, newPlan: SubscriptionPlan, eff: int): Option<int> {
    if start.Some? then Some(eff + newPlan.DurationDays() * DAY) else end
  }

  /** With a start and a grace end, the grace end follows the new end by the
      whole days it followed start + old duration. */
  function CarriedGrace(start: Option<int>, grace: Option<int>, oldPlan: SubscriptionPlan, newEnd: Option<int>): Option<int> {
    if start.Some? && grace.Some? && newEnd.Some? then
      Some(newEnd.value + NumDays(grace.value - (start.value + oldPlan.DurationDays() * DAY)) * DAY)
    else grace
  }

  /** `change_billing_date`: allowed only while Active and with an end date. */
  function BillingDateChanged(r: Record, newDate: int, now: int): (res: Result<(Record, Proration), string>)
    ensures res.Ok? <==> r.status == Active && r.endDate.Some?
    ensures r.status != Active ==> res == Err(BILLING_DATE_REFUSED)
    ensures r.status == Active && r.endDate.None? ==> res == Err(NO_END_DATE)
  {
    if r.status != Active then Err(BILLING_DATE_REFUSED)
    else if r.endDate.None? then Err(NO_END_DATE)
    else Ok((MovedToBillingDate(r, newDate, now), BillingDateProration(r.price, r.plan, r.endDate.value, newDate, now)))
  }

  /** The period ends on the new date, the grace end keeps its whole-day
      distance from the end, and the anchor moves to the new date. */
  function MovedToBillingDate(r: Record, newDate: int, now: int): (r': Record)
    requires r.endDate.Some?
    ensures r'.endDate == Some(newDate) && r'.billingCycleAnchor == Some(newDate)
    ensures r'.status == r.status && r'.startDate == r.startDate && SameTerms(r, r')
    ensures r.graceEndDate.Some? <==> r'.graceEndDate.Some?
    ensures r.graceEndDate.Some? ==>
      r'.graceEndDate.value - newDate == NumDays(r.graceEndDate.value - r.endDate.value) * DAY
    ensures GraceNotBeforeEnd(r) ==> GraceNotBeforeEnd(r')
  {
    var carried :=
      if r.graceEndDate.Some? then Some(newDate + NumDays(r.graceEndDate.value - r.endDate.value) * DAY)
      else None;
    r.(endDate := Some(newDate), graceEndDate := carried, billingCycleAnchor := Some(newDate), updatedAt := now)
  }

  /** The proration of a billing-date move: no refund; the difference in whole
      days until the new and the current end is charged at the daily rate. */
  function BillingDateProration(price: real, plan: SubscriptionPlan, currentEnd: int, newDate: int, now: int): (p: Proration)
    ensures p.currentPlanRefund == 0.0 && p.newPlanCharge == p.netAmount && p.effectiveDate == newDate
    ensures p.daysUsed == NumDays(currentEnd - now) && p.daysRemaining == NumDays(newDate - now)
  {
    var daysUntilCurrentEnd := NumDays(currentEnd - now);
    var daysUntilNewDate := NumDays(newDate - now);
    var dayDifference := daysUntilNewDate - daysUntilCurrentEnd;
    var dailyRate := price / plan.DurationDays() as real;
    var net := dailyRate * dayDifference as real;
    Proration(0.0, net, net, newDate, daysUntilCurrentEnd, daysUntilNewDate)
  }

  /** The amount of a billing-date move is the price pro rata for the days the
      end moves by: positive when it moves later, negative when earlier. */
  lemma BillingDateProrationRate(price: real, plan: SubscriptionPlan, currentEnd: int, newDate: int, now: int)
    ensures var p := BillingDateProration(price, plan, currentEnd, newDate, now);
      p.netAmount * plan.DurationDays() as real == price * (p.daysRemaining - p.daysUsed) as real
  {
    var p := BillingDateProration(price, plan, currentEnd, newDate, now);
    var days := plan.DurationDays() as real;
    assert p.netAmount == price / days * (p.daysRemaining - p.daysUsed) as real;
  }

  /** `can_renew_manually`. */
  predicate CanRenewManually(r: Record) {
    r.status == Expired || r.status == Suspended
  }

  /** `can_auto_renew`. */
  predicate CanAutoRenew(r: Record) {
    r.autoRenew && r.renewalAttempts < r.maxRenewalAttempts
  }

  /** `days_until_expiry` / `days_until_grace_end`: whole days from now. */
  function DaysUntil(date: Option<int>, now: int): (r: Option<int>)
    ensures r.Some? <==> date.Some?
    ensures r.Some? ==> (r.value > 0 ==> date.value >= now + DAY) && (date.value >= now ==> r.value >= 0)
    ensures r.Some? ==> r.value == NumDays(date.value - now)
  {
    match date
    case Some(d) => Some(NumDays(d - now))
    case None => None
  }

  /** `is_in_grace_period`: in Grace, or Active with the end already passed. */
  predicate IsInGracePeriod(r: Record, now: int) {
    r.status == Grace || (r.status == Active && r.endDate.Some? && now > r.endDate.value)
  }

  /** `update_status_based_on_dates`: Active turns Grace once now is past the
      end (filling in a missing grace end), Grace turns Expired once now is
      past the grace end; both comparisons strict, one step per call, every
      other status untouched. */
  function DatesUpdated(r: Record, graceDays: u32, now: int): (r': Record)
    ensures r'.status == Grace <==>
      (r.status == Grace && !(r.graceEndDate.Some? && now > r.graceEndDate.value))
      || (r.status == Active && r.endDate.Some? && now > r.endDate.value)
    ensures r'.status == Expired <==>
      r.status == Expired || (r.status == Grace && r.graceEndDate.Some? && now > r.graceEndDate.value)
    ensures r.status !in {Active, Grace} ==> r' == r
    ensures r.status == Active ==> r'.status in {Active, Grace}
    ensures r'.endDate == r.endDate && r'.startDate == r.startDate && SameTerms(r, r')
    ensures r.graceEndDate.Some? ==> r'.graceEndDate == r.graceEndDate
    ensures GraceNotBeforeEnd(r) ==> GraceNotBeforeEnd(r')
  {
    match r.status
    case Active =>
      if r.endDate.Some? && now > r.endDate.value then
        var grace := if r.graceEndDate.None? then Some(r.endDate.value + graceDays * DAY) else r.graceEndDate;
        r.(status := Grace, graceEndDate := grace, updatedAt := now)
      else r
    case Grace =>
      if r.graceEndDate.Some? && now > r.graceEndDate.value then r.(status := Expired, updatedAt := now)
      else r
    case _ => r
  }

  // ---------------------------------------------------------------------------
  // Properties relating several operations
  // ---------------------------------------------------------------------------

  /** Pausing and later resuming moves the end and grace dates forward by the
      pause, so the end never moves backward when the clock does not. */
  lemma PauseThenResume(r: Record, pausedAt: int, resumedAt: int)
    requires r.status == Active
    ensures Paused(r, pausedAt).Ok?
    ensures var r' := Resumed(Paused(r, pausedAt).value, resumedAt);
      && r'.Ok? && r'.value.status == Active
      && r'.value.endDate == Shift(r.endDate, resumedAt - pausedAt)
      && r'.value.graceEndDate == Shift(r.graceEndDate, resumedAt - pausedAt)
      && (resumedAt >= pausedAt && r.endDate.Some? ==> r'.value.endDate.value >= r.endDate.value)
  {
  }

  /** A status the sweep moved to Grace has its grace end set. */
  lemma SweepToGraceSetsGraceEnd(r: Record, graceDays: u32, now: int)
    requires r.status == Active
    ensures DatesUpdated(r, graceDays, now).status == Grace ==> DatesUpdated(r, graceDays, now).graceEndDate.Some?
  {
  }

  /** An Active subscription far enough past its end needs two sweeps to
      expire: the first moves it to Grace, the second to Expired. */
  lemma SweepTakesTwoSteps(r: Record, graceDays: u32, now: int)
    requires r.status == Active && r.endDate.Some? && now > r.endDate.value + graceDays * DAY
    requires r.graceEndDate == None
    ensures DatesUpdated(r, graceDays, now).status == Grace
    ensures DatesUpdated(DatesUpdated(r, graceDays, now), graceDays, now).status == Expired
  {
  }

  /** `is_in_grace_period` agrees with the sweep: an Active or Grace
      subscription is in its grace period exactly when a sweep would leave it in
      Grace or Expired. */
  lemma GracePeriodAgreesWithSweep(r: Record, graceDays: u32, now: int)
    requires r.status == Active || r.status == Grace
    ensures IsInGracePeriod(r, now) <==> DatesUpdated(r, graceDays, now).status in {Grace, Expired}
  {
  }

  /** A cancelled subscription cannot renew automatically and is not offered a
      manual renewal. */
  lemma CancelledCannotRenew(r: Record, now: int)
    ensures !CanAutoRenew(CancelledRecord(r, now)) && !CanRenewManually(CancelledRecord(r, now))
  {
  }

  /** When the period's end is still the nominal start + old duration and the
      grace gap is whole days, a plan change keeps the grace gap. */
  lemma PlanChangeKeepsNominalGraceGap(r: Record, newPlan: SubscriptionPlan, effective: Option<int>, now: int, gapDays: int)
    requires r.status == Active || r.status == Grace
    requires r.startDate.Some? && r.endDate == Some(r.startDate.value + r.plan.DurationDays() * DAY)
    requires r.graceEndDate == Some(r.endDate.value + gapDays * DAY)
    ensures var r' := PlanChanged(r, newPlan, effective, now).value.0;
      r'.graceEndDate.value - r'.endDate.value == gapDays * DAY
  {
    NumDaysOfWholeDays(gapDays);
  }

  /** A plan change after the billing date was moved earlier measures the grace
      gap from the old nominal end, so the grace end can land before the new
      end: activate a monthly plan with 7 grace days at time 0, move the
      billing date to day 10, then change to the annual plan at time 0. */
  lemma PlanChangeAfterBillingMove()
    ensures var r0 := NewRecord(CreateSubscriptionRequest("u", Monthly, None, None, None), "s", 0);
      var r1 := Activated(r0, 7, 0);
      var r2 := BillingDateChanged(r1, 10 * DAY, 0);
      r2.Ok? && r2.value.0.graceEndDate == Some(17 * DAY)
      && var r3 := PlanChanged(r2.value.0, Annual, Some(0), 0);
      r3.Ok? && r3.value.0.endDate == Some(365 * DAY) && r3.value.0.graceEndDate == Some(352 * DAY)
      && !GraceNotBeforeEnd(r3.value.0)
  {
    NumDaysOfWholeDays(7);
    NumDaysOfWholeDays(-13);
    NumDaysOfWholeDays(30);
    NumDaysOfWholeDays(10);
  }

  /** The crate's plan-change test: a fresh monthly subscription, activated and
      changed to annual on its start day, is refunded the whole month and
      charged a whole year. */
  lemma MonthlyToAnnualOnStartDay(request: CreateSubscriptionRequest, now: int)
    requires request.plan == Monthly && request.billingCycleAnchor == None
    ensures var r := Activated(NewRecord(request, "s", now), 7, now);
      var res := PlanChanged(r, Annual, None, now);
      && res.Ok? && res.value.0.plan == Annual && res.value.0.price == 1000.00
      && res.value.1.daysUsed == 0 && res.value.1.currentPlanRefund == 100.00
      && res.value.1.newPlanCharge == 1000.00 && res.value.1.netAmount == 900.00
  {
    NumDaysOfWholeDays(0);
  }

  // ---------------------------------------------------------------------------
  // The subscription object
  // ---------------------------------------------------------------------------

  class Subscription {
    const id: string
    const userId: string
    var plan: SubscriptionPlan
    var status: SubscriptionStatus
    var price: real
    const currency: string
    var startDate: Option<int>
    var endDate: Option<int>
    var graceEndDate: Option<int>
    var billingCycleAnchor: Option<int>
    var renewalAttempts: nat
    const maxRenewalAttempts: nat
    var autoRenew: bool
    var pauseDuration: Option<int>
    var pausedAt: Option<int>
    const metadata: Option<Json>
    const createdAt: int
    var updatedAt: int

    function Snapshot(): Record
      reads this
    {
      Record(id, userId, plan, status, price, currency, startDate, endDate, graceEndDate,
             billingCycleAnchor, renewalAttempts, maxRenewalAttempts, autoRenew,
             pauseDuration, pausedAt, metadata, createdAt, updatedAt)
    }

    /** `Subscription::new`. */
    constructor (request: CreateSubscriptionRequest, id: string, now: int)
      ensures Snapshot() == NewRecord(request, id, now)
    {
      this.id := id;
      userId := request.userId;
      plan := request.plan;
      status := Pending;
      price := request.plan.Price();
      currency := "ZAR";
      startDate := None;
      endDate := None;
      graceEndDate := None;
      billingCycleAnchor := request.billingCycleAnchor;
      renewalAttempts := 0;
      maxRenewalAttempts := 5;
      autoRenew := request.autoRenew.GetOr(true);
      pauseDuration := None;
      pausedAt := None;
      metadata := request.metadata;
      createdAt := now;
      updatedAt := now;
    }

    method Activate(graceDays: u32, now: int)
      modifies this
      ensures Snapshot() == Activated(old(Snapshot()), graceDays, now)
    {
      ghost var spec := Activated(Snapshot(), graceDays, now);
      var start := billingCycleAnchor.GetOr(now);
      status := Active;
      startDate := Some(start);
      endDate := Some(start + plan.DurationDays() * DAY);
      graceEndDate := Some(endDate.value + graceDays * DAY);
      renewalAttempts := 0;
      updatedAt := now;
      assert Snapshot() == spec;
    }

    method Extend(days: int, now: int)
      modifies this
      ensures Snapshot() == Extended(old(Snapshot()), days, now)
    {
      if endDate.Some? {
        endDate := Some(endDate.value + days * DAY);
        if graceEndDate.Some? {
          graceEndDate := Some(graceEndDate.value + days * DAY);
        }
      }
      updatedAt := now;
    }

    method Pause(now: int) returns (res: Result<(), string>)
      modifies this
      ensures res.Ok? <==> old(status) == Active
      ensures res.Ok? ==> Snapshot() == Paused(old(Snapshot()), now).value
      ensures res.Err? ==> Snapshot() == old(Snapshot()) && res.error == PAUSE_REFUSED
    {
      if status != Active {
        return Err(PAUSE_REFUSED);
      }
      status := Suspended;
      pausedAt := Some(now);
      updatedAt := now;
      res := Ok(());
    }

    method Resume(now: int) returns (res: Result<(), string>)
      modifies this
      ensures res.Ok? <==> old(status) == Suspended
      ensures res.Ok? ==> Snapshot() == Resumed(old(Snapshot()), now).value
      ensures res.Err? ==> Snapshot() == old(Snapshot()) && res.error == RESUME_REFUSED
    {
      if status != Suspended {
        return Err(RESUME_REFUSED);
      }
      EndPause(now);
      res := Ok(());
    }

    /** The successful part of `resume`. */
    method EndPause(now: int)
      requires status == Suspended
      modifies this
      ensures Snapshot() == Resumed(old(Snapshot()), now).value
    {
      ghost var spec := Resumed(Snapshot(), now);
      if pausedAt.Some? {
        var pause := now - pausedAt.value;
        endDate := Shift(endDate, pause);
        graceEndDate := Shift(graceEndDate, pause);
      }
      status := Active;
      pauseDuration := None;
      pausedAt := None;
      updatedAt := now;
      assert Snapshot() == spec.value;
    }

    method Cancel(now: int)
      modifies this
      ensures Snapshot() == CancelledRecord(old(Snapshot()), now)
    {
      status := Cancelled;
      autoRenew := false;
      updatedAt := now;
    }

    method ChangePlan(newPlan: SubscriptionPlan, effective: Option<int>, now: int) returns (res: Result<Proration, string>)
      modifies this
      ensures res.Ok? <==> old(status) == Active || old(status) == Grace
      ensures res.Ok? ==> Snapshot() == RebasedOnPlan(old(Snapshot()), newPlan, effective.GetOr(now), now)
      ensures res.Ok? ==> res.value == PlanChangeProration(old(plan), newPlan, old(startDate), effective.GetOr(now))
      ensures res.Err? ==> Snapshot() == old(Snapshot()) && res.error == PLAN_CHANGE_REFUSED
    {
      if status != Active && status != Grace {
        return Err(PLAN_CHANGE_REFUSED);
      }
      var eff := effective.GetOr(now);
      var proration := PlanChangeProration(plan, newPlan, startDate, eff);
      Rebase(newPlan, eff, now);
      res := Ok(proration);
    }

    /** The successful part of `change_plan`. */
    method Rebase(newPlan: SubscriptionPlan, eff: int, now: int)
      modifies this
      ensures Snapshot() == RebasedOnPlan(old(Snapshot()), newPlan, eff, now)
    {
      var oldPlan := plan;
      var newEnd := endDate;
      var newGrace := graceEndDate;
      if startDate.Some? {
        newEnd := Some(eff + newPlan.DurationDays() * DAY);
        if graceEndDate.Some? {
          var graceDays := NumDays(graceEndDate.value - (startDate.value + oldPlan.DurationDays() * DAY));
          newGrace := Some(newEnd.value + graceDays * DAY);
        }
      }
      assert newEnd == RebasedEnd(startDate, endDate, newPlan, eff);
      assert newGrace == CarriedGrace(startDate, graceEndDate, oldPlan, newEnd);
      plan := newPlan;
      price := newPlan.Price();
      endDate := newEnd;
      graceEndDate := newGrace;
      updatedAt := now;
    }

    method ChangeBillingDate(newDate: int, now: int) returns (res: Result<Proration, string>)
      modifies this
      ensures res.Ok? <==> old(status) == Active && old(endDate).Some?
      ensures res.Ok? ==> Snapshot() == MovedToBillingDate(old(Snapshot()), newDate, now)
      ensures res.Ok? ==> res.value == BillingDateProration(old(price), old(plan), old(endDate).value, newDate, now)
      ensures res.Err? ==> Snapshot() == old(Snapshot())
      ensures res.Err? ==> res.error == if old(status) != Active then BILLING_DATE_REFUSED else NO_END_DATE
    {
      if status != Active {
        return Err(BILLING_DATE_REFUSED);
      }
      if endDate.None? {
        return Err(NO_END_DATE);
      }
      var proration := BillingDateProration(price, plan, endDate.value, newDate, now);
      MoveBillingDate(newDate, now);
      res := Ok(proration);
    }

    /** The successful part of `change_billing_date`. */
    method MoveBillingDate(newDate: int, now: int)
      requires endDate.Some?
      modifies this
      ensures Snapshot() == MovedToBillingDate(old(Snapshot()), newDate, now)
    {
      var currentEnd := endDate.value;
      ghost var moved := MovedToBillingDate(Snapshot(), newDate, now);
      endDate := Some(newDate);
      if graceEndDate.Some? {
        var graceDays := NumDays(graceEndDate.value - currentEnd);
        graceEndDate := Some(newDate + graceDays * DAY);
      }
      assert graceEndDate == moved.graceEndDate;
      billingCycleAnchor := Some(newDate);
      updatedAt := now;
    }

    method IncrementRenewalAttempt(now: int)
      modifies this
      ensures Snapshot() == old(Snapshot()).(renewalAttempts := old(renewalAttempts) + 1, updatedAt := now)
    {
      renewalAttempts := renewalAttempts + 1;
      updatedAt := now;
    }

    method ResetRenewalAttempts(now: int)
      modifies this
      ensures Snapshot() == old(Snapshot()).(renewalAttempts := 0, updatedAt := now)
    {
      renewalAttempts := 0;
      updatedAt := now;
    }

    method CanRenewManuallyNow() returns (r: bool)
      ensures r <==> status == Expired || status == Suspended
    {
      r := status == Expired || status == Suspended;
    }

    method CanAutoRenewNow() returns (r: bool)
      ensures r <==> autoRenew && renewalAttempts < maxRenewalAttempts
    {
      r := autoRenew && renewalAttempts < maxRenewalAttempts;
    }

    method DaysUntilExpiry(now: int) returns (r: Option<int>)
      ensures r == DaysUntil(endDate, now)
    {
      r := if endDate.Some? then Some(NumDays(endDate.value - now)) else None;
    }

    method DaysUntilGraceEnd(now: int) returns (r: Option<int>)
      ensures r == DaysUntil(graceEndDate, now)
    {
      r := if graceEndDate.Some? then Some(NumDays(graceEndDate.value - now)) else None;
    }

    method IsInGracePeriodNow(now: int) returns (r: bool)
      ensures r <==> IsInGracePeriod(Snapshot(), now)
    {
      r := status == Grace || (status == Active && endDate.Some? && now > endDate.value);
    }

    method UpdateStatusBasedOnDates(graceDays: u32, now: int)
      modifies this
      ensures Snapshot() == DatesUpdated(old(Snapshot()), graceDays, now)
    {
      match status {
        case Active =>
          if endDate.Some? && now > endDate.value {
            status := Grace;
            if graceEndDate.None? {
              graceEndDate := Some(endDate.value + graceDays * DAY);
            }
            updatedAt := now;
          }
        case Grace =>
          if graceEndDate.Some? && now > graceEndDate.value {
            status := Expired;
            updatedAt := now;
          }
        case _ =>
      }
    }
  }

  /** The crate's pause/resume test: activate, pause, resume at a later or equal
      time; the subscription is Active again and its end has not moved back. */
  method PauseResumeScenario(request: CreateSubscriptionRequest, activatedAt: int, pausedAt: int, resumedAt: int)
    returns (pauseOk: bool, resumeOk: bool, endBefore: int, endAfter: int)
    requires resumedAt >= pausedAt
    ensures pauseOk && resumeOk && endAfter >= endBefore
  {
    var s := new Subscription(request, "subscription", activatedAt);
    s.Activate(7, activatedAt);
    endBefore := s.endDate.value;
    var p := s.Pause(pausedAt);
    pauseOk := p.Ok?;
    var q := s.Resume(resumedAt);
    resumeOk := q.Ok? && s.status == Active;
    endAfter := s.endDate.value;
  }
}
