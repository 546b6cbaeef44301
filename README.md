# Recurring billing for the Peach Payments gateway: the reconciliation core

A model of the core of a subscription-billing backend. The backend sells
monthly and annual plans, takes payment through the Peach Payments hosted
checkout, and renews subscriptions by charging stored card tokens. The
repository holds two crates that do the same job in different ways: the
application crate (`src/`) and the backend crate (`backend/src/`). The
model covers the part of both where payments and subscriptions are
reconciled:

- **Payments** (`Payments`). This covers the payment record and its status
  updates, and the classification of the gateway's result codes by
  `from_peach_code`.
- **Subscriptions** (`Subscriptions`, `Common`). This covers the plan
  table. It also covers the subscription state machine:
  - activation, extension and pause/resume;
  - cancellation;
  - plan change and billing-date change, each with its proration;
  - the renewal-attempt counters;
  - the date-driven sweep from Active to Grace to Expired.

  The backend's simpler in-memory subscription is `SubscriptionService`.
- **Webhook ingestion and the payment handlers** (`PaymentHandlers`):
  - the canonical signing string;
  - the 400/401/200 gates of the webhook;
  - the two spellings of the subscription-id key;
  - the dispatch on the result code;
  - the status check, the recurring charge, payment initiation, the GET
    redirect and storing a payment method.

  Each of the inline result-code classifications is modelled as written,
  so their differences are stated and proved.
- **The renewal sweep** (`RenewalTask`). One pass of the loop over the due
  subscriptions renews each one or notifies its user. A suspension pass
  over the expired, unpaid ones follows.
- **The stores**:
  - the backend's tables (`Store`): id-prefix normalisation, the
    merchant-transaction-id format, the update-by-key operations and the
    due/expired selections;
  - the application crate's store (`AppDatabase`): URL dispatch,
    pagination, `extract_count`, the payment-status field rules, the
    duplicate-email check and the active/expiring selections.
- **Gateway request builders**:
  - `PeachService`: the access-token cache, the checkout payload, webhook
    signature validation and registration-token extraction;
  - `CheckoutApi`: the backend's signed checkout parameters, its
    transaction id and the refund parameters.
- **Small pure pieces**:
  - the Display tables (`Common`, `BackendModels`);
  - email normalisation and the domain blacklist (`Users`);
  - the configuration defaults and the NOTIFICATION_DAYS list (`Config`).

The clock, generated UUIDs and nonces, HMAC-SHA256 and every reply of the
gateway are parameters. Timestamps are integer seconds and a day is 86400
of them. Money is `real`. A HashMap's iteration order is an explicit key
order (`Text.StrMap`), so that "independent of iteration order" is a
theorem and not an assumption. The backend's SQL tables are sequences of
rows:
- an `UPDATE … WHERE` is a pointwise map over the rows;
- "not found" means no row matched;
- `LIMIT 1` takes the first match.

Objects whose methods assign their own fields are classes. This covers the
application crate's `Payment`, `Subscription` and `User`, the backend's
in-memory `Subscription`, the token cache of `PeachPaymentService`, and both
stores. Each such method is specified by a pure function on a snapshot of
the record, and the properties are proved about that function.

Shared helpers:
- `Base`: Option, Result and integer widths;
- `Text`: prefixes, byte-wise string order, sorting key/value pairs,
  splitting, trimming, decimal digits and ASCII case;
- `Json`: the part of a JSON value that the code reads.

## Model

| member | source | states |
|---|---|---|
| Payments.FromPeachCode | src/models/payment.rs:182-197 | `000.000*`/`000.100*` give Completed, `000.200*` gives Processing, exactly `100.396.104` gives Cancelled, everything else gives Failed |
| Payments.FromPeachCodeRange | src/models/payment.rs:182-197 | the classification only ever yields Completed, Processing, Cancelled or Failed; never Pending or Refunded |
| Payments.CancelledCodeIsNeither | src/models/payment.rs:182-197 | the cancellation code is neither a success nor a pending code, so the three branches do not overlap |
| Payments.FromPeachCodeExamples | src/models/payment.rs:204-211 | the crate's classification test: its five sample codes map to Completed, Completed, Processing, Cancelled and Failed |
| Payments.StampingVersusFinal | src/models/payment.rs:142-150 | every status that stamps `completed_at` is final; Refunded is the one final status that does not stamp; PartiallyRefunded is not final |
| Payments.RetryBudget | src/models/payment.rs:176-178 | once three retries are reached no retry is allowed, and a retry allowed at some count is allowed at every lower count |
| Payments.NewPayment | src/models/payment.rs:117-140 | a new payment is Pending and OneTime with no retries, no gateway ids and no completion stamp; currency defaults to ZAR and recurring to false |
| Payments.StatusUpdated | src/models/payment.rs:142-150 | status and failure reason are always overwritten, even with None; `completed_at` becomes now exactly for Completed/Failed/Cancelled and is kept otherwise |
| Payments.NoTransitionGuard | src/models/payment.rs:142-150 | every status can be applied from every status; even a final payment can go back to Pending |
| Payments.TokenSet | src/models/payment.rs:158-162 | the token is stored, the type becomes Recurring, and no other business field changes |
| Payments.Payment.constructor | src/models/payment.rs:117-140 | the object starts as the record `NewPayment` describes |
| Payments.Payment.UpdateStatus | src/models/payment.rs:142-150 | the object's new record is `StatusUpdated` of the old one |
| Payments.Payment.SetPeachIds | src/models/payment.rs:152-156 | both gateway ids are replaced and `updated_at` is stamped; nothing else changes |
| Payments.Payment.SetRecurringToken | src/models/payment.rs:158-162 | the object's new record is `TokenSet` of the old one |
| Payments.Payment.IncrementRetry | src/models/payment.rs:164-167 | the retry count goes up by exactly one; nothing else changes but `updated_at` |
| Payments.Payment.IsFinalStatus | src/models/payment.rs:169-174 | true exactly for Completed, Failed, Cancelled and Refunded |
| Payments.Payment.CanRetry | src/models/payment.rs:176-178 | true exactly when the status is not final and fewer than three retries were made |
| Payments.RetryScenario | src/models/payment.rs:213-236 | a new payment can retry; after three increments it cannot |
| Common.MethodText | src/models/common.rs:50-59 | every payment method renders as a non-empty text |
| Common.MethodTextInjective | src/models/common.rs:50-59 | the table is CARD, EFT, 1VOUCHER and SCAN_TO_PAY, and no two methods render alike |
| Common.SubscriptionPlan.Price | src/models/common.rs:68-73 | every plan has a positive price |
| Common.SubscriptionPlan.DurationDays | src/models/common.rs:75-80 | every plan lasts a positive number of days |
| Common.SubscriptionPlan.Text | src/models/common.rs:83-90 | every plan renders as a non-empty text |
| Common.PlanTable | src/models/common.rs:67-90 | monthly is R100.00 for 30 days, annual is R1000.00 for 365 days, rendered "monthly" and "annual" |
| Common.AnnualCheaperPerDay | src/models/common.rs:67-81 | a day of the annual plan costs less than a day of the monthly plan |
| Common.PlanTextInjective | src/models/common.rs:83-90 | the two plans render differently |
| Common.Success | src/models/common.rs:14-21 | success is true, the data is present, and there is no message and no error |
| Common.SuccessWithMessage | src/models/common.rs:23-30 | success is true, the data and the message are present, and there is no error |
| Common.Error | src/models/common.rs:32-39 | success is false, there is no data, and the error is present |
| Common.DefaultQuery | src/models/common.rs:98-105 | page 1, limit 20 |
| Subscriptions.NumDays | src/models/subscription.rs:210-214 | chrono's whole-day count of a duration: truncated toward zero, for negative durations too |
| Subscriptions.NumDaysOfWholeDays | src/models/subscription.rs:198-249 | a difference of k whole days counts as exactly k days, for negative k too |
| Subscriptions.NewRecord | src/models/subscription.rs:109-131 | Pending at the plan's price in ZAR, no attempts out of five, auto-renew defaulting to true, no dates |
| Subscriptions.Activated | src/models/subscription.rs:133-145 | Active from the anchor (or now) for the plan's duration, the grace end the grace period after the end, attempts reset, the terms and auto-renew kept |
| Subscriptions.Extended | src/models/subscription.rs:147-155 | with an end, the end and the grace end (when set) move by the given days and the grace order is kept; with no end, no date changes |
| Subscriptions.Paused | src/models/subscription.rs:157-166 | succeeds exactly from Active, otherwise the refusal text; on success the subscription is Suspended with paused_at = now, and its dates, counters, auto-renew flag and terms are kept |
| Subscriptions.Resumed | src/models/subscription.rs:168-190 | succeeds exactly from Suspended; otherwise the refusal text |
| Subscriptions.ResumeShiftsDates | src/models/subscription.rs:168-190 | a successful resume is Active with the pause cleared, the end and grace end shifted by the time since the pause (unshifted when no pause time is recorded), and the grace order kept |
| Subscriptions.CancelledRecord | src/models/subscription.rs:192-196 | any status, Expired included, becomes Cancelled with auto-renew off, and the dates are kept |
| Subscriptions.PlanChangeProration | src/models/subscription.rs:198-249 | the days used are the whole days from the start to the effective date (0 without a start), and days used plus days remaining is the old duration |
| Subscriptions.ProrationAmounts | src/models/subscription.rs:198-249 | the refund is the old price pro rata for the remaining days, the charge is the new plan's full price, and the net amount is charge minus refund |
| Subscriptions.PlanChanged | src/models/subscription.rs:198-249 | succeeds exactly from Active or Grace; otherwise an error |
| Subscriptions.PlanChangeEffects | src/models/subscription.rs:198-249 | a successful change replaces plan and price, keeps status and start, returns the proration, ends a full new period after the effective date when started, and carries the grace gap measured from the old nominal end |
| Subscriptions.PlanChangeKeepsNominalGraceGap | src/models/subscription.rs:198-249 | when the end is still the nominal one, the gap between grace end and end survives the plan change exactly |
| Subscriptions.PlanChangeAfterBillingMove | src/models/subscription.rs:198-284 | after the billing date is moved to day 10 of a monthly plan, a change to annual ends on day 365 with its grace end on day 352, before the end |
| Subscriptions.BillingDateChanged | src/models/subscription.rs:251-284 | succeeds exactly when Active with an end date; otherwise the error for not being Active or for having no end |
| Subscriptions.MovedToBillingDate | src/models/subscription.rs:251-284 | the end and the anchor become the new date, status, start and terms are kept, and the grace end keeps its whole-day distance from the end |
| Subscriptions.BillingDateProration | src/models/subscription.rs:251-284 | no refund; the days used are the whole days until the old end, the days remaining those until the new date, and the charge is the net amount |
| Subscriptions.BillingDateProrationRate | src/models/subscription.rs:251-284 | the net amount is the price pro rata for the difference between the new and the old whole days left |
| Subscriptions.DaysUntil | src/models/subscription.rs:304-314 | present exactly when the date is; the value is `NumDays` of the time left, so positive only when the date is at least a day away, and never negative for a date not yet passed |
| Subscriptions.DatesUpdated | src/models/subscription.rs:322-347 | Active becomes Grace exactly when now is strictly past the end; Grace becomes Expired exactly when now is strictly past the grace end; other statuses are untouched; the dates and terms are kept |
| Subscriptions.SweepToGraceSetsGraceEnd | src/models/subscription.rs:322-347 | an Active record the sweep moves to Grace has a grace end |
| Subscriptions.SweepTakesTwoSteps | src/models/subscription.rs:322-347 | an Active record long past its grace period reaches Grace on the first sweep and Expired only on the second |
| Subscriptions.GracePeriodAgreesWithSweep | src/models/subscription.rs:316-347 | for Active or Grace, `is_in_grace_period` holds exactly when the sweep leaves the record in Grace or Expired |
| Subscriptions.PauseThenResume | src/models/subscription.rs:157-190 | pausing an Active subscription and resuming it gives Active with the end and grace end shifted by the pause length, the end never earlier when the clock did not go back |
| Subscriptions.CancelledCannotRenew | src/models/subscription.rs:192-302 | a cancelled subscription can neither auto-renew nor renew manually |
| Subscriptions.MonthlyToAnnualOnStartDay | src/models/subscription.rs:437-454 | on the start day, monthly to annual uses no days, refunds R100.00, charges R1000.00, and nets R900.00 |
| Subscriptions.Subscription.constructor | src/models/subscription.rs:109-131 | the object starts as the record `NewRecord` describes |
| Subscriptions.Subscription.Activate | src/models/subscription.rs:133-145 | the object's new record is `Activated` of the old one |
| Subscriptions.Subscription.Extend | src/models/subscription.rs:147-155 | the object's new record is `Extended` of the old one |
| Subscriptions.Subscription.Pause | src/models/subscription.rs:157-166 | succeeds exactly from Active and installs `Paused`; an error leaves the object unchanged |
| Subscriptions.Subscription.Resume | src/models/subscription.rs:168-190 | succeeds exactly from Suspended and installs `Resumed`; an error leaves the object unchanged |
| Subscriptions.Subscription.EndPause | src/models/subscription.rs:173-189 | the object's new record is the successful `Resumed` of the old one |
| Subscriptions.Subscription.Cancel | src/models/subscription.rs:192-196 | the object's new record is `CancelledRecord` of the old one |
| Subscriptions.Subscription.ChangePlan | src/models/subscription.rs:198-249 | succeeds exactly from Active or Grace, rebasing the record and returning `PlanChangeProration`; an error leaves the object unchanged |
| Subscriptions.Subscription.Rebase | src/models/subscription.rs:224-239 | the object's new record is the old one rebased on the new plan from the effective date |
| Subscriptions.Subscription.ChangeBillingDate | src/models/subscription.rs:251-284 | succeeds exactly when Active with an end date, installing `MovedToBillingDate` and returning `BillingDateProration`; an error leaves the object unchanged |
| Subscriptions.Subscription.MoveBillingDate | src/models/subscription.rs:267-274 | the object's new record is `MovedToBillingDate` of the old one |
| Subscriptions.Subscription.IncrementRenewalAttempt | src/models/subscription.rs:286-289 | the attempt count goes up by one; nothing else but `updated_at` changes |
| Subscriptions.Subscription.ResetRenewalAttempts | src/models/subscription.rs:291-294 | the attempt count becomes zero; nothing else but `updated_at` changes |
| Subscriptions.Subscription.CanRenewManuallyNow | src/models/subscription.rs:296-298 | true exactly for Expired and Suspended |
| Subscriptions.Subscription.CanAutoRenewNow | src/models/subscription.rs:300-302 | true exactly when auto-renew is on and attempts are below the maximum |
| Subscriptions.Subscription.DaysUntilExpiry | src/models/subscription.rs:304-308 | `DaysUntil` of the end date |
| Subscriptions.Subscription.DaysUntilGraceEnd | src/models/subscription.rs:310-314 | `DaysUntil` of the grace end |
| Subscriptions.Subscription.IsInGracePeriodNow | src/models/subscription.rs:316-320 | true exactly in Grace, or when Active with now strictly past the end |
| Subscriptions.Subscription.UpdateStatusBasedOnDates | src/models/subscription.rs:322-347 | the object's new record is `DatesUpdated` of the old one |
| Subscriptions.PauseResumeScenario | src/models/subscription.rs:411-435 | the crate's pause/resume test: pause and resume both succeed and the end has not moved back |
| Users.User.constructor | src/models/user.rs:33-44 | the name as given, the email lowercased, active and not verified |
| Users.User.Update | src/models/user.rs:46-51 | the name is replaced exactly when one is given; the email never changes |
| Users.ToLowerNormalizes | src/models/user.rs:33-44 | a lowercased email has no capitals left, and lowercasing it again changes nothing |
| Users.NormalizationExample | src/models/user.rs:80-84 | the crate's test: a mixed-case address is stored in lower case |
| Users.EmailDomain | src/models/user.rs:58 | present exactly when the address holds an '@', and never itself holds one |
| Users.EmailDomainOfAddress | src/models/user.rs:54-65 | for `local@domain[@rest]` with no '@' in local or domain, the domain read is exactly `domain` |
| Users.ValidateEmailDomain | src/models/user.rs:54-65 | rejected exactly when the domain read is tempmail.com or 10minutemail.com, with `forbidden_email_domain`; an address without '@' passes |
| Users.ForbiddenDomainRejected | src/models/user.rs:54-65 | a plain `local@domain` address is rejected exactly when the domain is blacklisted |
| Users.OnlySecondSegmentCounts | src/models/user.rs:54-65 | a blacklisted domain behind a second '@' passes, as in `a@b@tempmail.com` |
| Users.SecondSegmentRefused | src/models/user.rs:54-65 | a blacklisted domain right after the first '@' is rejected, whatever follows |
| Config.VarOr | src/config.rs:54-63 | the variable's value when set, the default otherwise |
| Config.ParseOr | src/config.rs:54-61 | the parsed number when the text is a u32, the default otherwise |
| Config.ParsedEntries | src/config.rs:62-66 | never more days than entries |
| Config.DayList | src/config.rs:62-66 | never more days than comma-separated entries |
| Config.RenderDays | src/config.rs:62-66 | one decimal rendering per day, in order |
| Config.ParsedEntriesRendered | src/config.rs:62-66 | reading rendered days back gives exactly the days |
| Config.DayListRoundTrip | src/config.rs:62-66 | any non-empty list of days, written comma-separated, reads back as the same list |
| Config.DefaultDayList | src/config.rs:62-66 | "7,3,1" gives [7, 3, 1] |
| Config.ParsedLenient | src/config.rs:62-66 | an entry that is not a number is skipped, and a padded entry is trimmed and kept |
| Config.DayListLenient | src/config.rs:62-66 | the same for a whole list text: `a,junk, b` reads as [a, b] |
| Config.FromEnv | src/config.rs:34-69 | Ok exactly when all eleven PEACH_* variables are set, and then each of the eleven gateway settings is its variable's value; the database URL is DATABASE_URL's value as given, or file://subscription.db when unset; grace days and attempts fall back to 7 and 5 when unset or unparsable; the notification days are read from NOTIFICATION_DAYS, or from "7,3,1" when it is unset |
| Config.DefaultsAgree | src/config.rs:54-79 | with GRACE_PERIOD_DAYS and MAX_RENEWAL_ATTEMPTS unset or unparsable and NOTIFICATION_DAYS unset, the settings equal `AppConfig::default` (7, 5, [7, 3, 1]) |
| Config.ParsedEntriesNone | src/config.rs:62-66 | entries none of which is a number give no days |
| Config.UnparsableNotificationDays | src/config.rs:62-66 | a NOTIFICATION_DAYS that is set but holds no number gives [], not the default [7, 3, 1] |
| PeachService.AsI64 | src/services/peach.rs:84 | a u64 below 2^63 keeps its value; one above wraps to the negative value 2^64 less |
| PeachService.AuthOutcome | src/services/peach.rs:42-97 | a fresh cached token (more than 300 s left) is returned with the cache unchanged; otherwise a failed request gives "Authentication failed: " + its text and a reply without `access_token` gives "No access_token in response", both keeping the cache, and a reply with one returns that token and caches it to expire at now + expires_in, or now + 3600 s when the reply gives none |
| PeachService.DefaultLifetimeReuse | src/services/peach.rs:47-84 | a token fetched without `expires_in` is cached for 3600 s and counts as fresh exactly for requests under 55 minutes later |
| PeachService.PeachPaymentService.constructor | src/services/peach.rs:33-39 | the client keeps the configuration and starts with no cached token |
| PeachService.PeachPaymentService.Authenticate | src/services/peach.rs:42-97 | the result and the new cache are `AuthOutcome` of the old cache |
| PeachService.CheckoutPayload | src/services/peach.rs:105-137 | `createRegistration` exactly for a card with recurring on; `paymentBrand` exactly for the non-card methods, set to the method's text; `customParameters` exactly when metadata is given |
| PeachService.CheckoutPayloadCharge | src/services/peach.rs:105-114 | every payload is a DB debit of the amount, in the requested currency or ZAR, for the configured entity |
| PeachService.CheckoutPayloadTracking | src/services/peach.rs:105-114 | every payload carries the merchant transaction id, the nonce and the two configured URLs |
| PeachService.PeachPaymentService.CreateCheckout | src/services/peach.rs:100-174 | the cache is updated as `AuthOutcome` says; a payload is sent exactly when authentication succeeds; success exactly when the reply carries a `checkoutId`, with the redirect URL and widget settings built from it |
| PeachService.AuthenticateTwice | src/services/peach.rs:44-51 | two calls within 55 minutes both give the first token; the second ignores the gateway |
| PeachService.ValidWebhookSignature | src/services/peach.rs:250-265 | true exactly when the signature equals the hex HMAC of the payload under the secret |
| PeachService.WebhookSignatureExamples | src/services/peach.rs:352-366 | the crate's test: the digest itself passes; `invalid_signature` and the upper-cased digest fail |
| PeachService.ExtractRegistrationToken | src/services/peach.rs:297-301 | present exactly when `registrationId` is a string, and then that string |
| PeachService.RegistrationTokenExamples | src/services/peach.rs:368-389 | the crate's tests: a present id is returned, a missing one gives None, and a number gives None |
| AppDatabase.OpenStorage | src/services/database.rs:20-28 | `memory://` gives memory, `file://` gives the file named by the rest, any other scheme is the unsupported-URL error |
| AppDatabase.ExtractCount | src/services/database.rs:375-380 | the first row's `count` as a u64, and 0 for no rows or no count |
| AppDatabase.Paginate | src/services/database.rs:223-259 | page 1 and limit 20 by default and offset (page − 1) × limit; an error exactly when the u32 arithmetic would panic: page 0, an offset of 2^32 or more, `total + limit` reaching 2^32, or limit 0 |
| AppDatabase.PageCountIsCeiling | src/services/database.rs:257 | the pages hold every row and none is left empty: the page count is the ceiling of total / limit, so 0 for no rows |
| AppDatabase.DefaultPage | src/services/database.rs:224-227 | no query gives page 1, limit 20 and offset 0, for any count more than 20 below 2^32 |
| AppDatabase.DefaultPageOverflow | src/services/database.rs:224-257 | without a query, a count within 20 of 2^32 makes `total + limit` overflow |
| AppDatabase.DegenerateQueries | src/services/database.rs:224-257 | page 0 and limit 0 are errors, not a wrap-around or a division by zero |
| AppDatabase.StatusWritten | src/services/database.rs:191-221 | the status is written; `completed_at` is stamped exactly for Completed/Failed/Cancelled; the failure reason is written only when one is given; nothing else changes |
| AppDatabase.StoreKeepsOldReason | src/services/database.rs:191-221 | with a reason given, the store's write is the record's `update_status`; without one, the store keeps the old reason and the record clears it |
| AppDatabase.UpdateWhere | src/services/database.rs:191-221 | exactly the rows with the id are written, as `StatusWritten` says |
| AppDatabase.ActiveSubscription | src/services/database.rs:290-298 | None exactly when the user has no Active or Grace subscription; otherwise the newest such one |
| AppDatabase.Expiring | src/services/database.rs:310-320 | exactly the Active, auto-renewing subscriptions ending within the given days |
| AppDatabase.ExpiringMonotone | src/services/database.rs:310-320 | a longer look-ahead never drops a subscription |
| AppDatabase.ExpiringWithinGrace | src/services/database.rs:310-320 | an expiring subscription is in its grace period exactly when its end has passed |
| AppDatabase.DatabaseService.constructor | src/services/database.rs:20-37 | the store starts empty |
| AppDatabase.DatabaseService.CreateUser | src/services/database.rs:105-126 | refused, with nothing changed, when the email as given or lowercased is stored; otherwise the user with the lowercased email is appended, and emails stay unique |
| AppDatabase.DatabaseService.UpdatePaymentStatus | src/services/database.rs:191-221 | the payments become `UpdateWhere` of the old ones; nothing else changes |
| BackendModels.Display | backend/src/models/payment.rs:23-33 | Card, EFT, Voucher and ScanToPay render exactly as CARD, EFT, VOUCHER and SCAN_TO_PAY |
| BackendModels.DisplayInjective | backend/src/models/payment.rs:23-33 | no two methods render alike |
| BackendModels.DisplayAgainstApplicationCrate | backend/src/models/payment.rs:23-33 | the crates render a method alike exactly when it is not the voucher: VOUCHER here against 1VOUCHER there |
| SubscriptionService.Subscription.constructor | backend/src/services/subscription.rs:28-42 | Pending, with no activation and no expiry |
| SubscriptionService.Subscription.Activate | backend/src/services/subscription.rs:44-50 | Active from now, expiring thirty days later, whatever the old status |
| SubscriptionService.Subscription.Cancel | backend/src/services/subscription.rs:52-55 | Cancelled, with the dates kept |
| SubscriptionService.Subscription.Expire | backend/src/services/subscription.rs:57-60 | Expired, with the dates kept |
| SubscriptionService.UnguardedLifecycle | backend/src/services/subscription.rs:44-60 | cancelled then expired then reactivated is Active again for thirty days, with owner and price unchanged |
| CheckoutApi.CheckoutTxnIdOfUuid | backend/src/services/peach.rs:48-52 | for a UUID, the id is "TXN_", the first eight hex digits, "_" and the millis |
| CheckoutApi.CheckoutTxnIdNeverStored | backend/src/services/peach.rs:48-52 | such an id never equals a merchant transaction id the store gives a payment |
| CheckoutApi.DefaultPaymentMethod | backend/src/services/peach.rs:56-67 | cards ask for CARD; bank transfer leaves it out |
| CheckoutApi.SignedKeys | backend/src/services/peach.rs:69-89 | the fixed keys, the test-mode flag exactly for bank transfer, the default method exactly for cards, and never `signature` |
| CheckoutApi.SignedParams | backend/src/services/peach.rs:69-89 | the map has exactly the signed keys, with test mode "true" for bank transfer and CARD for cards |
| CheckoutApi.SignedParamsCharge | backend/src/services/peach.rs:70-76 | every checkout is a DB debit of the amount in ZAR for the configured entity |
| CheckoutApi.SignedParamsTracking | backend/src/services/peach.rs:73-80 | every checkout carries the transaction id, the nonce, an empty notification URL and the backend's callback URL |
| CheckoutApi.VoucherApplied | backend/src/services/peach.rs:59-66 | the voucher reply's result code is 000.000.000 |
| CheckoutApi.InitiateCheckout | backend/src/services/peach.rs:41-150 | a voucher sends nothing; otherwise the signed string is the sorted key+value concatenation of the parameters, the map sent is those parameters plus the signature, and the reply is passed through or turned into an error |
| CheckoutApi.SentAddsOnlySignature | backend/src/services/peach.rs:110-131 | the map sent is the signed map plus exactly the key `signature` |
| CheckoutApi.RefundParams | backend/src/services/peach.rs:175-183 | a refund is an RF in ZAR of the amount, authenticated by entity and token |
| Text.SigningString | backend/src/services/peach.rs:91-99 | the key+value pairs sorted strictly by key and concatenated |
| Text.SigningStringOrderIndependent | backend/src/services/peach.rs:91-99 | maps with the same contents give the same signing string, whatever their iteration order |
| Text.ToLower | src/models/user.rs:38 | the same length, with each character lowercased |
| Store.RecordId | backend/src/services/database.rs:159-163 | the result always carries the table prefix: an argument with the prefix is kept, and one without gets it |
| Store.StripOnce | backend/src/services/database.rs:239-243 | stripping prefix+key gives key, and a doubled prefix loses only one copy |
| Store.RecordIdSpellings | backend/src/services/database.rs:347-351 | the bare key and the prefixed key address the same record, and normalising twice is normalising once |
| Store.MerchantTxnId | backend/src/services/database.rs:203-211 | twenty characters: "TXN_" and the first sixteen digits of the UUID upper-cased, all upper-case hex for a simple UUID |
| Store.UpperHexDigit | backend/src/services/database.rs:203-211 | upper-casing a lower-case hex digit gives an upper-case hex digit that lower-cases back |
| Store.MerchantTxnIdCollisions | backend/src/services/database.rs:203-211 | two UUIDs get the same id exactly when their first sixteen digits agree |
| Store.PaymentByMerchantId | backend/src/services/database.rs:252-266 | present exactly when some payment has the transaction id, and then one of those |
| Store.PaymentById | backend/src/services/database.rs:238-250 | present exactly when some payment has the normalised id, and then one of those |
| Store.SubscriptionById | backend/src/services/database.rs:346-358 | present exactly when some subscription has the normalised id, and then one of those |
| Store.RecurringTokenByUser | backend/src/services/database.rs:182-192 | None exactly when the user has no Active recurring payment; otherwise the token of one |
| Store.Due | backend/src/services/database.rs:527-536 | exactly the Active subscriptions whose end is at or before now |
| Store.ExpiredUnpaid | backend/src/services/database.rs:538-547 | exactly the Active subscriptions whose end is more than a day before now |
| Store.ExpiredUnpaidIsDue | backend/src/services/database.rs:527-547 | every expired, unpaid subscription is also due, and a due one that ended within the last day is not expired |
| Store.PaymentPatched | backend/src/services/database.rs:268-303 | each update sets its named field and changes no other |
| Store.PatchPayments | backend/src/services/database.rs:268-303 | exactly the rows with the transaction id are updated |
| Store.PatchPaymentsNoMatch | backend/src/services/database.rs:268-303 | without a matching row the table is unchanged |
| Store.SubscriptionPatched | backend/src/services/database.rs:370-460 | activation makes it Active from now for one day, renewal for thirty days, neither reading the old dates; a status update sets only the status; a payment-details update sets only method and brand; id and owner are always kept |
| Store.RenewalRestartsTerm | backend/src/services/database.rs:549-575 | a renewal ends thirty days after now: renewing early shortens the term, renewing late forgives the days after the old end |
| Store.PatchSubscriptions | backend/src/services/database.rs:406-429 | exactly the rows with the normalised id are updated |
| Store.PatchKeepsIds | backend/src/services/database.rs:406-429 | an update keeps ids unique and prefixed |
| Store.RenewalMessage | backend/src/services/database.rs:608 | the message starts "Your subscription " and names the subscription |
| Store.Acknowledged | backend/src/services/database.rs:650-662 | exactly the notifications with the id become acknowledged |
| Store.AcknowledgeIdempotent | backend/src/services/database.rs:650-662 | acknowledging twice is acknowledging once, and no acknowledged notification is un-acknowledged |
| Store.DatabaseService.constructor | backend/src/services/database.rs:19-40 | the five tables start empty |
| Store.DatabaseService.CreateUser | backend/src/services/database.rs:123-155 | refused, with nothing changed, exactly when a user with the same email exists; otherwise the row is appended; other tables unchanged |
| Store.DatabaseService.CreatePayment | backend/src/services/database.rs:199-234 | the row appended is Pending, with the formatted merchant transaction id, no checkout id, no token and Card by default; a taken id is an error with nothing changed |
| Store.DatabaseService.PatchPaymentsWhere | backend/src/services/database.rs:268-303 | the payments become `PatchPayments` of the old ones; an error exactly when no row matched |
| Store.DatabaseService.UpdatePaymentStatus | backend/src/services/database.rs:268-285 | only the status of the matching payments changes; "Payment not found" exactly when none matches |
| Store.DatabaseService.UpdatePaymentCheckoutId | backend/src/services/database.rs:287-303 | only the checkout id of the matching payments changes; "Payment not found" exactly when none matches |
| Store.DatabaseService.UpdatePaymentRecurringToken | backend/src/services/database.rs:505-525 | only the token of the matching payments changes; "Payment not found" exactly when none matches |
| Store.DatabaseService.CreateSubscription | backend/src/services/database.rs:319-344 | the row appended is Pending with the given plan and price and no dates; a taken id is an error with nothing changed |
| Store.DatabaseService.PatchSubscriptionsWhere | backend/src/services/database.rs:406-429 | the subscriptions become `PatchSubscriptions` of the old ones, and whether a row matched is reported |
| Store.DatabaseService.ActivateSubscription | backend/src/services/database.rs:370-402 | the subscription is activated for one day from now; "Subscription not found" exactly when it is missing |
| Store.DatabaseService.UpdateSubscriptionStatus | backend/src/services/database.rs:406-429 | only the status changes, with no guard on the old one; an error exactly when the subscription is missing |
| Store.DatabaseService.UpdateSubscriptionPaymentDetails | backend/src/services/database.rs:431-460 | only the method and brand change; an error exactly when the subscription is missing |
| Store.DatabaseService.MarkSubscriptionRenewed | backend/src/services/database.rs:549-575 | the subscription is renewed for thirty days from now; an error exactly when it is missing |
| Store.DatabaseService.SuspendSubscription | backend/src/services/database.rs:577-598 | only the status changes, to Suspended; an error exactly when the subscription is missing |
| Store.DatabaseService.CreateRecurringPayment | backend/src/services/database.rs:466-494 | an Active recurring payment holding the token is appended |
| Store.DatabaseService.CreateManualRenewalNotification | backend/src/services/database.rs:600-629 | an unacknowledged notification naming the subscription is appended |
| Store.DatabaseService.AcknowledgeNotification | backend/src/services/database.rs:650-662 | always succeeds; the notifications become `Acknowledged` of the old ones |
| PaymentHandlers.StatusCheckClass | backend/src/handlers/payment.rs:135-147 | `000.000*`/`000.100*` give Completed, other `000.200*` codes give Pending, every other code gives Failed |
| PaymentHandlers.RecurringClass | backend/src/handlers/payment.rs:553-563 | only `000.000*`/`000.100*` give Completed; everything else, a missing code included, gives Failed |
| PaymentHandlers.WebhookDispatch | backend/src/handlers/payment.rs:316-394 | exactly 000.000.000 and 000.100.110 complete, exactly 100.396.104 fails, and every other code is ignored |
| PaymentHandlers.ClassificationsCompared | backend/src/handlers/payment.rs:135-563 | the status query and the recurring charge complete exactly when `from_peach_code` does; the status query's Pending is `from_peach_code`'s Processing, which the recurring charge fails; the webhook completes only success codes and fails exactly the cancellation code, which the status query fails |
| PaymentHandlers.ClassificationExamples | backend/src/handlers/payment.rs:135-563 | `000.200.100` is Processing, Pending, Failed and ignored under the four classifications; `000.100.112` completes a status query but is ignored by the webhook; a missing code fails a recurring charge |
| PaymentHandlers.SignaturePayload | backend/src/handlers/payment.rs:225-242 | the concatenated key+value listing of the form without `signature`, sorted strictly by key |
| PaymentHandlers.SignaturePayloadDeterminedByFields | backend/src/handlers/payment.rs:225-242 | forms that agree on every field but the signature give the same payload, whatever their order |
| PaymentHandlers.SignaturePayloadOfSignedForm | backend/src/handlers/payment.rs:225-242 | a form that is the signed map plus its signature gives the signed map's signing string |
| PaymentHandlers.CallbackSubscriptionId | backend/src/handlers/payment.rs:305-308 | the value under the literal key when present, else under the percent-encoded key, and None exactly when neither is present |
| PaymentHandlers.AfterCompletion | backend/src/handlers/payment.rs:374-376 | the payment's subscription, when it names one, is activated; otherwise nothing changes |
| PaymentHandlers.PaymentCallback | backend/src/handlers/payment.rs:246-397 | 400 for a non-UTF-8 body, an unparsable form or a missing signature, 401 for a bad signature, each with no store change; 200 "Webhook received" exactly for an authentic form, after which a completion code for a known payment completes it, activates its subscription and schedules the method store exactly when an `id` is given and the payment is not recurring, the cancellation code fails the payment, and every other case changes nothing |
| PaymentHandlers.CheckPaymentStatus | backend/src/handlers/payment.rs:106-169 | 404 for an unknown payment; no checkout id, a gateway error or a missing code change nothing; otherwise the status becomes `StatusCheckClass` of the code, and on Completed the subscription is activated |
| PaymentHandlers.InitiatePayment | backend/src/handlers/payment.rs:33-102 | 404 for a missing subscription and 400 for one not Pending, before any write; otherwise a Pending card payment is stored first and gets the checkout id from a good reply, and stays without one when the gateway fails |
| PaymentHandlers.CreateRecurringPayment | backend/src/handlers/payment.rs:499-591 | a missing subscription or a missing or inactive method stops before the record is created; a failed create answers 500 even for a token-less method, and a token-less method answers 400 after the create and before any charge; a charge's status is `RecurringClass` of its code, and on Completed the subscription is activated |
| PaymentHandlers.StorePaymentMethod | backend/src/handlers/payment.rs:423-495 | 404 for an unknown payment and 400 for one not completed; the gateway is queried by payment id when known, else by checkout id; 200 exactly when a query was made and every step succeeded |
| PaymentHandlers.TrimLeadingSlashes | backend/src/handlers/payment.rs:178 | the result is the input after its run of leading slashes: a suffix of it, with only slashes before it and no slash at its head |
| PaymentHandlers.GatewayPathTrimmed | backend/src/handlers/payment.rs:177-180 | the gateway's resource path loses exactly its leading slash |
| PaymentHandlers.GatewayPathParts | backend/src/services/peach.rs:154 | the gateway's resource path splits into v1, checkouts, the id and payment |
| PaymentHandlers.GatewayPathRejectedAsWritten | backend/src/handlers/payment.rs:177-180 | as written, the gateway's resource path never yields a checkout id |
| PaymentHandlers.CheckoutIdOfPathCorrected | backend/src/handlers/payment.rs:177-180 | the corrected reading finds the id in the gateway's path and agrees with the written one wherever that finds an id |
| PaymentHandlers.Redirect | backend/src/handlers/payment.rs:181-213 | always 302; to the error page exactly when the gateway query failed, otherwise to `/payment-result.html?id=<merchantTransactionId, or unknown when the reply has none>&resourcePath=<path>` |
| PaymentHandlers.CallbackGetAsWritten | backend/src/handlers/payment.rs:173-222 | 400 without a path or a checkout id read from it; otherwise the redirect |
| PaymentHandlers.CallbackGet | backend/src/handlers/payment.rs:173-222 | the same with the corrected path reading |
| PaymentHandlers.GatewayRedirectOutcome | backend/src/handlers/payment.rs:173-222 | for the gateway's own path: 400 as written, and a redirect for the right id once corrected |
| PaymentHandlers.GatewayRedirectLocation | backend/src/handlers/payment.rs:181-206 | once corrected, a good reply for the gateway's own path redirects to the result page with the reply's merchant transaction id and that path |
| RenewalTask.Decide | backend/src/tasks/renewal_task.rs:29-87 | renewed exactly when there is a token, the charge replied, and its code is a success code; otherwise notified |
| RenewalTask.DecideAgreesWithRecurringCharge | backend/src/tasks/renewal_task.rs:44-50 | the sweep renews exactly when the handler's recurring charge would complete, and when `from_peach_code` says Completed |
| RenewalTask.PatchIdempotent | backend/src/tasks/renewal_task.rs:50-99 | every subscription update keeps the id and is idempotent |
| RenewalTask.PatchEach | backend/src/tasks/renewal_task.rs:26-99 | a row is updated exactly when its id is one of the targets |
| RenewalTask.Targets | backend/src/tasks/renewal_task.rs:93-94 | each expired row is addressed by its normalised id |
| RenewalTask.Notices | backend/src/tasks/renewal_task.rs:57-87 | at most one notification per due subscription |
| RenewalTask.NoticesMembers | backend/src/tasks/renewal_task.rs:57-87 | a notification is sent exactly for each subscription not renewed, unacknowledged |
| RenewalTask.NoticesCount | backend/src/tasks/renewal_task.rs:26-89 | every due subscription is either renewed or notified, and the notifications number the unrenewed ones |
| RenewalTask.Outcomes | backend/src/tasks/renewal_task.rs:26-89 | each due subscription's outcome is `Decide` of its user's token and its charge |
| RenewalTask.RenewedTargets | backend/src/tasks/renewal_task.rs:50-56 | as many ids as renewed subscriptions |
| RenewalTask.RenewedTargetsMembers | backend/src/tasks/renewal_task.rs:50-56 | an id is renewed exactly when its subscription's charge was paid |
| RenewalTask.RenewOne | backend/src/tasks/renewal_task.rs:27-87 | the outcome is `Decide`; a renewal patches only the subscription, and a notification only appends one |
| RenewalTask.RenewNext | backend/src/tasks/renewal_task.rs:26-89 | one turn of the loop carries the pass invariant one subscription further |
| RenewalTask.RenewDue | backend/src/tasks/renewal_task.rs:26-89 | the subscriptions are the renewed targets patched and the notifications are the old ones plus `Notices` |
| RenewalTask.SuspendExpired | backend/src/tasks/renewal_task.rs:92-99 | every expired subscription is suspended, and nothing else changes |
| RenewalTask.RunOnce | backend/src/tasks/renewal_task.rs:14-100 | a failed fetch is an empty list; the renewal pass runs over the due list, then the suspension pass over what is expired afterwards |
| RenewalTask.FilterKeepsDistinctIds | backend/src/tasks/renewal_task.rs:18-24 | a selection from rows with distinct ids has distinct ids |
| RenewalTask.DueIdsDistinct | backend/src/tasks/renewal_task.rs:18-24 | the due list holds each subscription once |
| RenewalTask.NotRenewedKeepsRow | backend/src/tasks/renewal_task.rs:57-87 | a failed renewal leaves the subscription's row unchanged |
| RenewalTask.RenewedNotSuspended | backend/src/tasks/renewal_task.rs:26-99 | a subscription renewed in a pass is not suspended by the same pass and stays Active |
| RenewalTask.RenewedNotExpired | backend/src/tasks/renewal_task.rs:50-99 | a row just renewed is not expired and unpaid |
| RenewalTask.ExpiredNotRenewed | backend/src/tasks/renewal_task.rs:26-99 | an expired row after renewal is never one of the renewed rows |

## Left out

- The SurrealDB and file storage engines, connections, schema DDL and the debug listing helpers are not modelled. In particular the `unique_merchant_txn` index (backend/src/services/database.rs:73) is not enforced: `Store.DatabaseService.CreatePayment` refuses only a taken record id, so two payments whose UUIDs share their first 16 hex digits (`Store.MerchantTxnIdCollisions`) are both stored here, where the database would refuse the second. Every "Database error" branch caused by a failed connection or query is left out. A store that is asked does answer.
- The clock, UUID generation, nonces and HMAC-SHA256 with hex encoding are parameters. Only equality of the HMAC output with a given signature matters.
- Every network request to the gateway is a parameter: the reply, or the error text.
- Floating-point amounts and their `{:.2}` formatting are not modelled. Backend amounts are passed as text. The `rust_decimal` arithmetic of the application crate is `real`, so rounding of Decimal division is not modelled.
- Lowercasing is ASCII-only; Unicode case mapping is not modelled.
- Some operations called by the shown code are missing from it: `update_payment_peach_id`, `store_payment_method`, `get_user_payment_methods`, `extract_payment_method_detail`, `initiate_checkout_api_v2` and `execute_recurring_payment`. The same holds for the `is_recurring` and `peach_payment_id` fields of the backend payment. These are parameters whose behaviour is only what the call sites show.
- The `tokio::spawn` with its two-second sleep (the auto-store after a webhook), the five-minute sleep between renewal passes and the `RwLock` around the token cache are not modelled. Each is one sequential step.
- The backend's `PaymentMethod` (Card, EFT, Voucher, ScanToPay) does not match the variants `initiate_checkout_api` matches on (CreditCard, DebitCard, BankTransfer, Voucher). The model follows the match, with its own `CheckoutApi.CheckoutMethod`.
- The recurring-charge handler calls the store's `create_recurring_payment` with the whole request and uses the result as a payment row. The store declares other arguments and returns a stored token. In `PaymentHandlers.CreateRecurringPayment` the payment record the call creates is a parameter.
- PaymentHandlers.CreateRecurringPayment: the record is created (backend/src/handlers/payment.rs:528) before the registration id is checked (:540). That call matches none of the store's operations, so its write is left out and the tables stay as they were until the charge. A token-less method therefore answers 400 with nothing written, where the program leaves the created record behind.
- The backend handlers and `backend/src/main.rs` call the store's async operations without `.await` (backend/src/handlers/payment.rs:39, 64, 84, 112, 150, 154, 321, 322, 375, 383, 505, 528, 565, 569 and backend/src/main.rs:22). As written, a `match` on such a call does not compile, and `let _ = db.update_payment_status(…)` drops the future without running it, so nothing is written. Every `PaymentHandlers` member reads each such call as awaited and completed.
- Payments.Payment.IncrementRetry, Subscriptions.Subscription.IncrementRenewalAttempt: the u32 counters are unbounded here. In the program, an increment at 2^32 − 1 panics in a debug build and wraps to 0 in a release build; the model assumes counters stay below 2^32.
- PeachService.AuthOutcome: `Duration::seconds(expires_in as i64)` and `Utc::now() + …` (src/services/peach.rs:80-84) panic when expires_in lies outside chrono's range; the model caches the token for any expires_in, assuming it lies within that range.
- AppDatabase.Paginate: its errors are the panics of a debug build (overflow checks on). A release build would wrap instead, which is not modelled.
- RenewalTask.RunOnce: the charge of the k-th due subscription is a function of k. Whether a repeated charge would answer differently is not modelled.
- `get_user_payment_methods` parses the user id as a UUID. The model reads the methods as a parameter, so that parse is not modelled.
- The thin CRUD handlers (users, notifications, subscriptions), both `main.rs` files and `backend/src/utils/config.rs` are not modelled. Each only forwards to an operation modelled here, or only reads the environment.
- The `validator` derives (amount at least 0.01, name length) are enforced by a library the shown code never invokes.
- The GET callback computes a status parameter from the result code but never puts it in the Location it returns, so that computation is not modelled.
- Common.SubscriptionPlan.Price, Common.SubscriptionPlan.DurationDays: the contracts only say positive; the exact table is `Common.PlanTable`.
- Common.SubscriptionPlan.Text, Common.MethodText: the contracts only say non-empty; the exact texts are in `Common.PlanTable` and `Common.MethodTextInjective`.
- Subscriptions.ProrationAmounts, Subscriptions.BillingDateProrationRate: they hold in exact arithmetic. Decimal division rounds to 28 significant digits, so in the program the charge of a plan change can differ from the plan's price in the last digit.
- `to_status_response` and the request structs only shape replies, so they are not modelled.

## Findings

| source | as written | input that shows it | evidently intended | confidence | as-written member | corrected member |
|---|---|---|---|---|---|---|
| backend/src/handlers/payment.rs:177-180 | the GET callback takes the checkout id only from a resource path whose first segment is `checkouts`, but a checkout's resource path has the form `/v1/checkouts/{id}/payment` (the form the client itself queries, backend/src/services/peach.rs:154), whose first segment is `v1`, so a redirect carrying it gets 400 | resourcePath `/v1/checkouts/abc/payment` | the id after `v1/checkouts/` is read and the shopper is redirected to the result page | not executed | PaymentHandlers.GatewayPathRejectedAsWritten | PaymentHandlers.CheckoutIdOfPathCorrected |
