/** One pass of the backend's renewal loop: every subscription due for
    renewal is either charged with its user's stored token and renewed, or
    its user is sent a manual-renewal notification; then every subscription
    left expired and unpaid is suspended. The gateway's answers to the
    charges, the clock and the notification ids are parameters. */
module RenewalTask {
  import opened Base
  import opened Text
  import opened Json
  import opened BackendModels
  import opened Store
  import P = Payments
  import PaymentHandlers

  datatype Outcome = Renewed | Notified

  /** The fate of one due subscription: with a token, the charge's reply is
      read (a missing code reads as ""), and only a success code renews;
      without a token nothing is charged and the user is notified. */
  function Decide(token: Option<string>, reply: Result<Json, string>): (o: Outcome)
    ensures o == Renewed <==>
      token.Some? && reply.Ok? && ResultCode(reply.value).Some? && P.IsSuccessCode(ResultCode(reply.value).value)
  {
    if token.Some? && reply.Ok? && P.IsSuccessCode(ResultCode(reply.value).GetOr("")) then Renewed else Notified
  }

  /** The sweep renews on exactly the replies on which a recurring charge
      through the handler completes, and on which `from_peach_code` says
      Completed. */
  lemma DecideAgreesWithRecurringCharge(token: string, reply: Json)
    ensures Decide(Some(token), Ok(reply)) == Renewed <==>
      PaymentHandlers.RecurringClass(ResultCode(reply)) == PaymentStatus.Completed
    ensures ResultCode(reply).Some? ==>
      (Decide(Some(token), Ok(reply)) == Renewed <==> P.FromPeachCode(ResultCode(reply).value) == P.Completed)
  {
  }

  // ---------------------------------------------------------------------------
  // What the pass does to the tables
  // ---------------------------------------------------------------------------

  /** Every update of a subscription keeps its id and is idempotent. */
  lemma PatchIdempotent(patch: SubscriptionPatch)
    ensures forall s :: SubscriptionPatched(s, patch).id == s.id
    ensures forall s :: SubscriptionPatched(SubscriptionPatched(s, patch), patch) == SubscriptionPatched(s, patch)
  {
  }

  /** The same update applied in turn to each target: a row is updated
      exactly when its id is one of the targets. */
  function PatchEach(rows: seq<SubscriptionRow>, targets: seq<string>, patch: SubscriptionPatch): (rows': seq<SubscriptionRow>)
    ensures |rows'| == |rows|
    ensures forall j :: 0 <= j < |rows| ==>
      rows'[j] == if rows[j].id in targets then SubscriptionPatched(rows[j], patch) else rows[j]
    decreases |targets|
  {
    if targets == [] then rows
    else
      var n := |targets| - 1;
      var before := PatchEach(rows, targets[..n], patch);
      assert targets == targets[..n] + [targets[n]];
      PatchIdempotent(patch);
      PatchSubscriptions(before, targets[n], patch)
  }

  /** `suspend_subscription(&sub.id)` addresses each row by its normalised id. */
  function Targets(rows: seq<SubscriptionRow>): (ts: seq<string>)
    ensures |ts| == |rows|
    ensures forall i :: 0 <= i < |rows| ==> ts[i] == RecordId(SUBSCRIPTION_PREFIX, rows[i].id)
  {
    seq(|rows|, i requires 0 <= i < |rows| => RecordId(SUBSCRIPTION_PREFIX, rows[i].id))
  }

  /** The notification a subscription's user receives. */
  function Notice(sub: SubscriptionRow, id: string): Notification {
    Notification(id, sub.userId, sub.id, RenewalMessage(sub.id), false)
  }

  /** The notifications of a pass, in the order of the due list: one for each
      subscription that was not renewed, none for the others. */
  function Notices(due: seq<SubscriptionRow>, outcomes: seq<Outcome>, ids: nat -> string): (ns: seq<Notification>)
    requires |outcomes| == |due|
    ensures |ns| <= |due|
    decreases |due|
  {
    if due == [] then []
    else
      var n := |due| - 1;
      var before := Notices(due[..n], outcomes[..n], ids);
      if outcomes[n] == Notified then before + [Notice(due[n], ids(n))] else before
  }

  /** The outcome of each due subscription, given the stored tokens and the
      gateway's answer to each charge. */
  function Outcomes(due: seq<SubscriptionRow>, tokens: seq<RecurringPayment>, charge: nat -> Result<Json, string>): (os: seq<Outcome>)
    ensures |os| == |due|
    ensures forall k :: 0 <= k < |due| ==> os[k] == Decide(RecurringTokenByUser(tokens, due[k].userId), charge(k))
    decreases |due|
  {
    if due == [] then []
    else
      var n := |due| - 1;
      Outcomes(due[..n], tokens, charge) + [Decide(RecurringTokenByUser(tokens, due[n].userId), charge(n))]
  }

  /** The ids a pass renews, in the order of the due list. */
  function RenewedTargets(due: seq<SubscriptionRow>, outcomes: seq<Outcome>): (ts: seq<string>)
    requires |outcomes| == |due|
    ensures |ts| == Count(outcomes, Renewed)
    decreases |due|
  {
    if due == [] then []
    else
      var n := |due| - 1;
      var before := RenewedTargets(due[..n], outcomes[..n]);
      if outcomes[n] == Renewed then before + [RecordId(SUBSCRIPTION_PREFIX, due[n].id)] else before
  }

  /** A notification is sent for exactly the subscriptions whose renewal
      was not paid, each with its own id. */
  lemma {:induction false} NoticesMembers(due: seq<SubscriptionRow>, outcomes: seq<Outcome>, ids: nat -> string)
    requires |outcomes| == |due|
    ensures forall n :: n in Notices(due, outcomes, ids) <==>
      exists k :: 0 <= k < |due| && outcomes[k] == Notified && n == Notice(due[k], ids(k))
    ensures forall n :: n in Notices(due, outcomes, ids) ==> !n.acknowledged
    decreases |due|
  {
    if due != [] {
      var last := |due| - 1;
      NoticesMembers(due[..last], outcomes[..last], ids);
    }
  }

  /** A subscription is renewed exactly when its charge was paid. */
  lemma {:induction false} RenewedTargetsMembers(due: seq<SubscriptionRow>, outcomes: seq<Outcome>)
    requires |outcomes| == |due|
    ensures forall t :: t in RenewedTargets(due, outcomes) <==>
      exists k :: 0 <= k < |due| && outcomes[k] == Renewed && t == RecordId(SUBSCRIPTION_PREFIX, due[k].id)
    decreases |due|
  {
    if due != [] {
      var last := |due| - 1;
      RenewedTargetsMembers(due[..last], outcomes[..last]);
    }
  }

  /** The number of subscriptions with the outcome. */
  function Count(outcomes: seq<Outcome>, o: Outcome): nat {
    if outcomes == [] then 0
    else Count(outcomes[..|outcomes| - 1], o) + (if outcomes[|outcomes| - 1] == o then 1 else 0)
  }

  /** One notification per subscription not renewed. */
  lemma {:induction false} NoticesCount(due: seq<SubscriptionRow>, outcomes: seq<Outcome>, ids: nat -> string)
    requires |outcomes| == |due|
    ensures |Notices(due, outcomes, ids)| == Count(outcomes, Notified)
    ensures Count(outcomes, Renewed) + Count(outcomes, Notified) == |due|
    decreases |due|
  {
    if due != [] {
      var n := |due| - 1;
      NoticesCount(due[..n], outcomes[..n], ids);
    }
  }

  // ---------------------------------------------------------------------------
  // The pass
  // ---------------------------------------------------------------------------

  /** The body of the renewal loop for one due subscription; `reply` is
      what the gateway answers when it is charged. */
  method RenewOne(db: DatabaseService, sub: SubscriptionRow, reply: Result<Json, string>, now: int, id: string)
    returns (outcome: Outcome)
    requires db.Valid()
    modifies db
    ensures db.Valid()
    ensures outcome == Decide(RecurringTokenByUser(old(db.recurringPayments), sub.userId), reply)
    ensures outcome == Renewed ==>
      db.subscriptions == PatchSubscriptions(old(db.subscriptions), RecordId(SUBSCRIPTION_PREFIX, sub.id), RenewAt(now))
      && db.notifications == old(db.notifications)
    ensures outcome == Notified ==>
      db.subscriptions == old(db.subscriptions) && db.notifications == old(db.notifications) + [Notice(sub, id)]
    ensures db.users == old(db.users) && db.payments == old(db.payments) && db.recurringPayments == old(db.recurringPayments)
  {
    outcome := Notified;
    var token := RecurringTokenByUser(db.recurringPayments, sub.userId);
    match token {
      case Some(_) =>
        if reply.Ok? && P.IsSuccessCode(ResultCode(reply.value).GetOr("")) {
          var marked := db.MarkSubscriptionRenewed(sub.id, now);
          outcome := Renewed;
        } else {
          var noted := db.CreateManualRenewalNotification(sub.userId, sub.id, id);
        }
      case None =>
        var noted := db.CreateManualRenewalNotification(sub.userId, sub.id, id);
    }
  }

  /** Extending the due list by one subscription extends the renewed ids
      and the notifications by its own. */
  lemma PassSnoc(due: seq<SubscriptionRow>, outcomes: seq<Outcome>, sub: SubscriptionRow, o: Outcome, ids: nat -> string)
    requires |outcomes| == |due|
    ensures RenewedTargets(due + [sub], outcomes + [o]) ==
      RenewedTargets(due, outcomes) + if o == Renewed then [RecordId(SUBSCRIPTION_PREFIX, sub.id)] else []
    ensures Notices(due + [sub], outcomes + [o], ids) ==
      Notices(due, outcomes, ids) + if o == Notified then [Notice(sub, ids(|due|))] else []
  {
    assert (due + [sub])[..|due|] == due;
    assert (outcomes + [o])[..|due|] == outcomes;
  }

  lemma OutcomesSnoc(due: seq<SubscriptionRow>, sub: SubscriptionRow, tokens: seq<RecurringPayment>, charge: nat -> Result<Json, string>)
    ensures Outcomes(due + [sub], tokens, charge) ==
      Outcomes(due, tokens, charge) + [Decide(RecurringTokenByUser(tokens, sub.userId), charge(|due|))]
  {
    assert (due + [sub])[..|due|] == due;
  }

  lemma PatchEachSnoc(rows: seq<SubscriptionRow>, targets: seq<string>, t: string, patch: SubscriptionPatch)
    ensures PatchEach(rows, targets + [t], patch) == PatchSubscriptions(PatchEach(rows, targets, patch), t, patch)
  {
    assert (targets + [t])[..|targets|] == targets;
  }

  /** A turn of the renewal loop that renews `sub` keeps its invariant;
      `done` is the part of the due list already handled. */
  lemma RenewedStep(subs0: seq<SubscriptionRow>, tokens: seq<RecurringPayment>, done: seq<SubscriptionRow>,
                    sub: SubscriptionRow, now: int, charge: nat -> Result<Json, string>, ids: nat -> string,
                    outcomes: seq<Outcome>, renewed: seq<string>)
    requires |outcomes| == |done|
    requires Decide(RecurringTokenByUser(tokens, sub.userId), charge(|done|)) == Renewed
    requires outcomes == Outcomes(done, tokens, charge)
    ensures outcomes + [Renewed] == Outcomes(done + [sub], tokens, charge)
    ensures RenewedTargets(done, outcomes) + [RecordId(SUBSCRIPTION_PREFIX, sub.id)] == RenewedTargets(done + [sub], outcomes + [Renewed])
    ensures Notices(done, outcomes, ids) == Notices(done + [sub], outcomes + [Renewed], ids)
    ensures PatchSubscriptions(PatchEach(subs0, renewed, RenewAt(now)), RecordId(SUBSCRIPTION_PREFIX, sub.id), RenewAt(now))
      == PatchEach(subs0, renewed + [RecordId(SUBSCRIPTION_PREFIX, sub.id)], RenewAt(now))
  {
    OutcomesSnoc(done, sub, tokens, charge);
    PassSnoc(done, outcomes, sub, Renewed, ids);
    PatchEachSnoc(subs0, renewed, RecordId(SUBSCRIPTION_PREFIX, sub.id), RenewAt(now));
  }

  /** A turn of the renewal loop that notifies `sub`'s user keeps its
      invariant. */
  lemma NotifiedStep(notes0: seq<Notification>, tokens: seq<RecurringPayment>, done: seq<SubscriptionRow>, sub: SubscriptionRow,
                     charge: nat -> Result<Json, string>, ids: nat -> string, outcomes: seq<Outcome>)
    requires |outcomes| == |done|
    requires Decide(RecurringTokenByUser(tokens, sub.userId), charge(|done|)) == Notified
    requires outcomes == Outcomes(done, tokens, charge)
    ensures outcomes + [Notified] == Outcomes(done + [sub], tokens, charge)
    ensures RenewedTargets(done, outcomes) == RenewedTargets(done + [sub], outcomes + [Notified])
    ensures notes0 + Notices(done, outcomes, ids) + [Notice(sub, ids(|done|))] ==
      notes0 + Notices(done + [sub], outcomes + [Notified], ids)
  {
    OutcomesSnoc(done, sub, tokens, charge);
    PassSnoc(done, outcomes, sub, Notified, ids);
    AppendAssociative(notes0, Notices(done, outcomes, ids), [Notice(sub, ids(|done|))]);
  }

  /** One turn of the renewal loop: `sub` follows `done`, the part of the
      due list already handled, and the loop's invariant is carried from
      `done` to `done + [sub]`. */
  method RenewNext(db: DatabaseService, ghost done: seq<SubscriptionRow>, sub: SubscriptionRow, now: int,
                   charge: nat -> Result<Json, string>, ids: nat -> string,
                   ghost subs0: seq<SubscriptionRow>, ghost notes0: seq<Notification>,
                   outcomes: seq<Outcome>, renewed: seq<string>)
    returns (outcomes': seq<Outcome>, renewed': seq<string>)
    requires db.Valid()
    requires outcomes == Outcomes(done, db.recurringPayments, charge)
    requires renewed == RenewedTargets(done, outcomes)
    requires db.subscriptions == PatchEach(subs0, renewed, RenewAt(now))
    requires db.notifications == notes0 + Notices(done, outcomes, ids)
    modifies db
    ensures db.Valid()
    ensures outcomes' == Outcomes(done + [sub], db.recurringPayments, charge)
    ensures renewed' == RenewedTargets(done + [sub], outcomes')
    ensures db.subscriptions == PatchEach(subs0, renewed', RenewAt(now))
    ensures db.notifications == notes0 + Notices(done + [sub], outcomes', ids)
    ensures db.users == old(db.users) && db.payments == old(db.payments) && db.recurringPayments == old(db.recurringPayments)
  {
    var outcome := RenewOne(db, sub, charge(|outcomes|), now, ids(|outcomes|));
    if outcome == Renewed {
      RenewedStep(subs0, db.recurringPayments, done, sub, now, charge, ids, outcomes, renewed);
      renewed' := renewed + [RecordId(SUBSCRIPTION_PREFIX, sub.id)];
    } else {
      NotifiedStep(notes0, db.recurringPayments, done, sub, charge, ids, outcomes);
      renewed' := renewed;
    }
    outcomes' := outcomes + [outcome];
  }

  /** The renewal part of a pass over the due list: each subscription is
      charged when its user has a token, renewed when the charge succeeds,
      and its user notified otherwise. A failed store call is logged and the
      loop goes on. */
  method RenewDue(db: DatabaseService, due: seq<SubscriptionRow>, now: int,
                  charge: nat -> Result<Json, string>, ids: nat -> string)
    returns (outcomes: seq<Outcome>, renewed: seq<string>)
    requires db.Valid()
    modifies db
    ensures db.Valid()
    ensures outcomes == Outcomes(due, old(db.recurringPayments), charge)
    ensures renewed == RenewedTargets(due, outcomes)
    ensures db.subscriptions == PatchEach(old(db.subscriptions), renewed, RenewAt(now))
    ensures db.notifications == old(db.notifications) + Notices(due, outcomes, ids)
    ensures db.users == old(db.users) && db.payments == old(db.payments) && db.recurringPayments == old(db.recurringPayments)
  {
    outcomes := [];
    renewed := [];
    for i := 0 to |due|
      invariant db.Valid()
      invariant outcomes == Outcomes(due[..i], old(db.recurringPayments), charge)
      invariant renewed == RenewedTargets(due[..i], outcomes)
      invariant db.subscriptions == PatchEach(old(db.subscriptions), renewed, RenewAt(now))
      invariant db.notifications == old(db.notifications) + Notices(due[..i], outcomes, ids)
      invariant db.users == old(db.users) && db.payments == old(db.payments)
      invariant db.recurringPayments == old(db.recurringPayments)
    {
      outcomes, renewed := RenewNext(db, due[..i], due[i], now, charge, ids, old(db.subscriptions), old(db.notifications), outcomes, renewed);
      PrefixSnoc(due, i);
    }
    assert due[..|due|] == due;
  }

  /** The suspension part of a pass: every expired subscription is
      suspended, in turn. */
  method SuspendExpired(db: DatabaseService, expired: seq<SubscriptionRow>)
    requires db.Valid()
    modifies db
    ensures db.Valid()
    ensures db.subscriptions == PatchEach(old(db.subscriptions), Targets(expired), StatusTo(SubscriptionStatus.Suspended))
    ensures db.users == old(db.users) && db.payments == old(db.payments) && db.recurringPayments == old(db.recurringPayments)
    ensures db.notifications == old(db.notifications)
  {
    for i := 0 to |expired|
      invariant db.Valid()
      invariant db.subscriptions == PatchEach(old(db.subscriptions), Targets(expired[..i]), StatusTo(SubscriptionStatus.Suspended))
      invariant db.users == old(db.users) && db.payments == old(db.payments)
      invariant db.recurringPayments == old(db.recurringPayments) && db.notifications == old(db.notifications)
    {
      var suspended := db.SuspendSubscription(expired[i].id);
      assert Targets(expired[..i + 1])[..i] == Targets(expired[..i]);
    }
    assert expired[..|expired|] == expired;
  }

  /** One iteration of `start_renewal_task`. `dueFetchFails` and
      `expiredFetchFails` say whether the two queries fail (a failed query
      counts as an empty list), `charge(k)` is the gateway's answer to the
      charge of the k-th due subscription, `ids(k)` the id of the
      notification created for it. Returns the due list, the outcome of
      each, the ids renewed and the expired list. */
  method RunOnce(db: DatabaseService, now: int, dueFetchFails: bool, expiredFetchFails: bool,
                 charge: nat -> Result<Json, string>, ids: nat -> string)
    returns (due: seq<SubscriptionRow>, outcomes: seq<Outcome>, renewed: seq<string>, expired: seq<SubscriptionRow>)
    requires db.Valid()
    modifies db
    ensures db.Valid()
    ensures due == if dueFetchFails then [] else Due(old(db.subscriptions), now)
    ensures outcomes == Outcomes(due, old(db.recurringPayments), charge)
    ensures renewed == RenewedTargets(due, outcomes)
    ensures expired == if expiredFetchFails then [] else ExpiredUnpaid(PatchEach(old(db.subscriptions), renewed, RenewAt(now)), now)
    ensures db.subscriptions ==
      PatchEach(PatchEach(old(db.subscriptions), renewed, RenewAt(now)), Targets(expired), StatusTo(SubscriptionStatus.Suspended))
    ensures db.notifications == old(db.notifications) + Notices(due, outcomes, ids)
    ensures db.users == old(db.users) && db.payments == old(db.payments) && db.recurringPayments == old(db.recurringPayments)
  {
    due := if dueFetchFails then [] else Due(db.subscriptions, now);
    outcomes, renewed := RenewDue(db, due, now, charge, ids);
    expired := if expiredFetchFails then [] else ExpiredUnpaid(db.subscriptions, now);
    SuspendExpired(db, expired);
  }

  // ---------------------------------------------------------------------------
  // Properties of a pass
  // ---------------------------------------------------------------------------

  predicate DistinctIds(rows: seq<SubscriptionRow>) {
    forall i, j :: 0 <= i < j < |rows| ==> rows[i].id != rows[j].id
  }

  /** A selection from rows with distinct ids has distinct ids. */
  lemma {:induction false} FilterKeepsDistinctIds(rows: seq<SubscriptionRow>, p: SubscriptionRow -> bool)
    requires DistinctIds(rows)
    ensures DistinctIds(Filter(rows, p))
  {
    if rows != [] {
      var tail := rows[1..];
      FilterKeepsDistinctIds(tail, p);
      var rest := Filter(tail, p);
      forall x | x in rest ensures x.id != rows[0].id {
        var m :| 0 <= m < |tail| && tail[m] == x;
        assert rows[m + 1] == x;
      }
    }
  }

  /** The due list holds each subscription once. */
  lemma DueIdsDistinct(rows: seq<SubscriptionRow>, now: int)
    requires IdsWellFormed(rows)
    ensures DistinctIds(Due(rows, now))
  {
    FilterKeepsDistinctIds(rows, s => IsDue(s, now));
  }

  /** A subscription whose renewal was not paid is left as it was by the
      renewal part of the pass. */
  lemma NotRenewedKeepsRow(rows: seq<SubscriptionRow>, now: int, outcomes: seq<Outcome>, renewed: seq<string>, k: nat, j: nat)
    requires IdsWellFormed(rows)
    requires |outcomes| == |Due(rows, now)| && k < |outcomes| && outcomes[k] == Notified
    requires renewed == RenewedTargets(Due(rows, now), outcomes)
    requires j < |rows| && rows[j].id == Due(rows, now)[k].id
    ensures PatchEach(rows, renewed, RenewAt(now))[j] == rows[j]
  {
    var due := Due(rows, now);
    RenewedTargetsMembers(due, outcomes);
    DueIdsDistinct(rows, now);
    forall k' | 0 <= k' < |due| && outcomes[k'] == Renewed ensures RecordId(SUBSCRIPTION_PREFIX, due[k'].id) != rows[j].id {
      assert k' != k;
      assert due[k'] in rows;
      assert due[k'].id != due[k].id;
    }
    assert rows[j].id !in renewed;
  }

  /** A subscription renewed in a pass is not suspended by the same pass:
      after renewal its term ends thirty days from now, so it is not
      expired and unpaid, and no other row shares its id. */
  lemma RenewedNotSuspended(rows: seq<SubscriptionRow>, renewed: seq<string>, expired: seq<SubscriptionRow>, now: int, j: nat)
    requires IdsWellFormed(rows)
    requires forall e :: e in expired ==> e in PatchEach(rows, renewed, RenewAt(now)) && IsExpiredUnpaid(e, now)
    requires j < |rows| && rows[j].id in renewed
    ensures PatchEach(PatchEach(rows, renewed, RenewAt(now)), Targets(expired), StatusTo(SubscriptionStatus.Suspended))[j]
            == SubscriptionPatched(rows[j], RenewAt(now))
    ensures SubscriptionPatched(rows[j], RenewAt(now)).status == SubscriptionStatus.Active
  {
    var after := PatchEach(rows, renewed, RenewAt(now));
    var targets := Targets(expired);
    forall m | 0 <= m < |targets| ensures targets[m] != after[j].id {
      ExpiredNotRenewed(rows, renewed, now, expired[m], j);
    }
  }

  /** A row just renewed runs for thirty more days, so it is not expired. */
  lemma RenewedNotExpired(s: SubscriptionRow, now: int)
    ensures !IsExpiredUnpaid(SubscriptionPatched(s, RenewAt(now)), now)
  {
  }

  /** An expired row after renewal is never one of the renewed rows. */
  lemma ExpiredNotRenewed(rows: seq<SubscriptionRow>, renewed: seq<string>, now: int, e: SubscriptionRow, j: nat)
    requires IdsWellFormed(rows)
    requires e in PatchEach(rows, renewed, RenewAt(now)) && IsExpiredUnpaid(e, now)
    requires j < |rows| && rows[j].id in renewed
    ensures RecordId(SUBSCRIPTION_PREFIX, e.id) != rows[j].id
  {
    var after := PatchEach(rows, renewed, RenewAt(now));
    var q :| 0 <= q < |after| && after[q] == e;
    assert q != j by {
      assert after[j] == SubscriptionPatched(rows[j], RenewAt(now));
      RenewedNotExpired(rows[j], now);
    }
    assert e.id == rows[q].id;
    assert StartsWith(rows[q].id, SUBSCRIPTION_PREFIX);
  }
}
