/** The database service of the application crate: how the storage URL is
    read, the pagination arithmetic of the payment listing, the count
    extraction, the user and payment-status writes, and the subscription
    selections. Tables are sequences of rows. */
module AppDatabase {
  import opened Base
  import opened Text
  import opened Json
  import opened Common
  import opened Payments
  import opened Users
  import S = Subscriptions

  datatype Storage = Memory | FileAt(path: string)

  /** `DatabaseService::new`: `memory://` selects in-memory storage, `file://`
      a file at the rest of the URL, and any other URL is refused. */
  function OpenStorage(url: string): (r: Result<Storage, string>)
    ensures r == Ok(Memory) <==> StartsWith(url, "memory://")
    ensures r.Ok? && r.value.FileAt? <==> !StartsWith(url, "memory://") && StartsWith(url, "file://")
    ensures r.Ok? && r.value.FileAt? ==> url == "file://" + r.value.path
    ensures r.Err? ==> r.error == "Unsupported database URL: " + url
  {
    if StartsWith(url, "memory://") then Ok(Memory)
    else if StartsWith(url, "file://") then Ok(FileAt(StripPrefix(url, "file://")))
    else Err("Unsupported database URL: " + url)
  }

  /** The numbers of one page of the payment listing. */
  datatype Page = Page(page: u32, limit: u32, offset: u32, total: u32, totalPages: u32)

  /** `extract_count`: the `count` of the first row as a u64, else 0. */
  function ExtractCount(rows: seq<Json>): (n: u64)
    ensures rows == [] ==> n == 0
    ensures rows != [] && U64Field(rows[0], "count").Some? ==> n == U64Field(rows[0], "count").value
    ensures rows != [] && U64Field(rows[0], "count").None? ==> n == 0
  {
    if rows == [] then 0 else U64Field(rows[0], "count").GetOr(0)
  }

  /** The pagination of `get_payments_by_user`, in u32 arithmetic that panics
      on overflow (an `Err` here): the page and limit default to 1 and 20, the
      offset is (page - 1) * limit, the count is truncated to 32 bits, and
      the page count is (total + limit - 1) / limit, evaluated left to right:
      the sum overflows once it reaches 2^32, the subtraction when the sum is
      0, and the division when the limit is 0. */
  function Paginate(query: Option<PaginationQuery>, countRows: seq<Json>): (r: Result<Page, string>)
    ensures var q := query.GetOr(DefaultQuery());
      var page := q.page.GetOr(1);
      var limit := q.limit.GetOr(20);
      var total := ExtractCount(countRows) % U32_LIMIT;
      && (r.Ok? <==> page >= 1 && (page - 1) * limit < U32_LIMIT && limit > 0 && total + limit < U32_LIMIT)
      && (r.Ok? ==> r.value.page == page && r.value.limit == limit && r.value.total == total
                    && r.value.offset == (page - 1) * limit)
  {
    var q := query.GetOr(DefaultQuery());
    var page := q.page.GetOr(1);
    var limit := q.limit.GetOr(20);
    if page < 1 then Err("attempt to subtract with overflow")
    else if (page - 1) * limit >= U32_LIMIT then Err("attempt to multiply with overflow")
    else
      var offset := (page - 1) * limit;
      var total := ExtractCount(countRows) % U32_LIMIT;
      if total + limit >= U32_LIMIT then Err("attempt to add with overflow")
      else if total + limit == 0 then Err("attempt to subtract with overflow")
      else if limit == 0 then Err("attempt to divide by zero")
      else Ok(Page(page, limit, offset, total, (total + limit - 1) / limit))
  }

  /** The page count is the ceiling of total / limit: enough pages for every
      row, and no page left empty. */
  lemma PageCountIsCeiling(query: Option<PaginationQuery>, countRows: seq<Json>)
    requires Paginate(query, countRows).Ok?
    ensures var p := Paginate(query, countRows).value;
      p.totalPages * p.limit >= p.total && (p.totalPages - 1) * p.limit < p.total
  {
    var p := Paginate(query, countRows).value;
    var n := p.total + p.limit - 1;
    assert p.totalPages == n / p.limit;
    assert n == p.totalPages * p.limit + n % p.limit;
  }

  /** Without a query the first page of twenty rows is served from offset 0. */
  lemma DefaultPage(countRows: seq<Json>)
    requires ExtractCount(countRows) % U32_LIMIT + 20 < U32_LIMIT
    ensures Paginate(None, countRows).Ok?
    ensures var p := Paginate(None, countRows).value; p.page == 1 && p.limit == 20 && p.offset == 0
  {
  }

  /** Without a query, a count within 20 of 2^32 makes the sum of the page
      count overflow. */
  lemma DefaultPageOverflow(countRows: seq<Json>)
    requires ExtractCount(countRows) % U32_LIMIT + 20 >= U32_LIMIT
    ensures Paginate(None, countRows) == Err("attempt to add with overflow")
  {
  }

  /** Page 0 and limit 0 are not refused politely: the arithmetic panics. */
  lemma DegenerateQueries(countRows: seq<Json>)
    ensures Paginate(Some(PaginationQuery(Some(0), Some(20))), countRows).Err?
    ensures Paginate(Some(PaginationQuery(Some(1), Some(0))), countRows).Err?
  {
  }

  /** `update_payment_status` as the store writes it: the reason is written
      only when one is given, and the completion time only for Completed,
      Failed and Cancelled. */
  function StatusWritten(p: PaymentRecord, status: PaymentStatus, reason: Option<string>, now: int): (p': PaymentRecord)
    ensures p'.status == status && p'.updatedAt == now
    ensures p'.failureReason == if reason.Some? then reason else p.failureReason
    ensures p'.completedAt == if StampsCompletion(status) then Some(now) else p.completedAt
    ensures p'.(status := p.status, updatedAt := p.updatedAt, failureReason := p.failureReason,
                completedAt := p.completedAt) == p
  {
    p.(status := status, updatedAt := now,
       failureReason := if reason.Some? then reason else p.failureReason,
       completedAt := if StampsCompletion(status) then Some(now) else p.completedAt)
  }

  /** The store's write and the record's own `update_status` agree except on
      the reason: with no reason given, the record clears a previous one and
      the store keeps it. */
  lemma StoreKeepsOldReason(p: PaymentRecord, status: PaymentStatus, reason: Option<string>, now: int)
    ensures reason.Some? ==> StatusWritten(p, status, reason, now) == StatusUpdated(p, status, reason, now)
    ensures reason.None? && p.failureReason.Some? ==>
      StatusWritten(p, status, reason, now).failureReason == p.failureReason
      && StatusUpdated(p, status, reason, now).failureReason == None
  {
  }

  /** The rows `UPDATE` touches: those with the given id. */
  function UpdateWhere(rows: seq<PaymentRecord>, id: string, status: PaymentStatus, reason: Option<string>, now: int): (rows': seq<PaymentRecord>)
    ensures |rows'| == |rows|
    ensures forall i :: 0 <= i < |rows| ==>
      rows'[i] == if rows[i].id == id then StatusWritten(rows[i], status, reason, now) else rows[i]
  {
    if rows == [] then []
    else [if rows[0].id == id then StatusWritten(rows[0], status, reason, now) else rows[0]]
         + UpdateWhere(rows[1..], id, status, reason, now)
  }

  /** `get_active_subscription_by_user`: the newest subscription of the user
      that is Active or in Grace. */
  predicate IsCurrent(r: S.Record, userId: string) {
    r.userId == userId && (r.status == S.Active || r.status == S.Grace)
  }

  function ActiveSubscription(rows: seq<S.Record>, userId: string): (r: Option<S.Record>)
    ensures r.None? <==> forall i :: 0 <= i < |rows| ==> !IsCurrent(rows[i], userId)
    ensures r.Some? ==> r.value in rows && IsCurrent(r.value, userId)
    ensures r.Some? ==> forall i :: 0 <= i < |rows| && IsCurrent(rows[i], userId) ==> rows[i].createdAt <= r.value.createdAt
  {
    if rows == [] then None
    else
      var rest := ActiveSubscription(rows[1..], userId);
      assert forall i :: 1 <= i < |rows| ==> rows[i] == rows[1..][i - 1];
      if !IsCurrent(rows[0], userId) then rest
      else if rest.Some? && rest.value.createdAt > rows[0].createdAt then rest
      else Some(rows[0])
  }

  /** `get_expiring_subscriptions`: Active, with auto-renewal on and an end no
      later than `daysAhead` days from now. */
  predicate IsExpiring(r: S.Record, now: int, daysAhead: int) {
    r.status == S.Active && r.endDate.Some? && r.endDate.value <= now + daysAhead * DAY && r.autoRenew
  }

  function Expiring(rows: seq<S.Record>, now: int, daysAhead: int): (sel: seq<S.Record>)
    ensures forall r :: r in sel <==> r in rows && IsExpiring(r, now, daysAhead)
  {
    if rows == [] then []
    else (if IsExpiring(rows[0], now, daysAhead) then [rows[0]] else []) + Expiring(rows[1..], now, daysAhead)
  }

  /** Looking further ahead never drops a subscription from the selection. */
  lemma ExpiringMonotone(rows: seq<S.Record>, now: int, days: int, more: nat)
    ensures forall r :: r in Expiring(rows, now, days) ==> r in Expiring(rows, now, days + more)
  {
  }

  /** An expiring subscription is not yet in its grace period only when its
      end has not passed. */
  lemma ExpiringWithinGrace(r: S.Record, now: int, daysAhead: int)
    requires IsExpiring(r, now, daysAhead)
    ensures S.IsInGracePeriod(r, now) <==> now > r.endDate.value
  {
  }

  /** Every stored email is unique. */
  predicate EmailsUnique(users: seq<UserRecord>) {
    forall i, j :: 0 <= i < j < |users| ==> users[i].email != users[j].email
  }

  predicate HasEmail(users: seq<UserRecord>, email: string) {
    exists i :: 0 <= i < |users| && users[i].email == email
  }

  class DatabaseService {
    var users: seq<UserRecord>
    var payments: seq<PaymentRecord>
    var subscriptions: seq<S.Record>

    /** The unique index on users' email. */
    predicate Valid()
      reads this
    {
      EmailsUnique(users)
    }

    constructor ()
      ensures Valid() && users == [] && payments == [] && subscriptions == []
    {
      users := [];
      payments := [];
      subscriptions := [];
    }

    /** `create_user`: refused when the email as given is already stored.
        The stored email is lowercased, so a different spelling of a stored
        address gets past that check and is refused by the unique index. */
    method CreateUser(name: string, email: string, id: string, now: int) returns (r: Result<UserRecord, string>)
      requires Valid()
      modifies this
      ensures Valid()
      ensures payments == old(payments) && subscriptions == old(subscriptions)
      ensures HasEmail(old(users), email) ==> r == Err("User with email " + email + " already exists")
      ensures r.Err? ==> users == old(users)
      ensures r.Ok? <==> !HasEmail(old(users), email) && !HasEmail(old(users), ToLower(email))
      ensures r.Ok? ==> users == old(users) + [r.value]
      ensures r.Ok? ==> r.value.email == ToLower(email) && r.value.name == name && r.value.id == id
    {
      var k := 0;
      while k < |users|
        invariant 0 <= k <= |users|
        invariant forall i :: 0 <= i < k ==> users[i].email != email
      {
        if users[k].email == email {
          return Err("User with email " + email + " already exists");
        }
        k := k + 1;
      }
      var user := new User(name, email, id, now);
      var row := user.Snapshot();
      k := 0;
      while k < |users|
        invariant 0 <= k <= |users|
        invariant forall i :: 0 <= i < k ==> users[i].email != row.email
      {
        if users[k].email == row.email {
          return Err("Database index `unique_email` already contains " + row.email);
        }
        k := k + 1;
      }
      users := users + [row];
      r := Ok(row);
    }

    /** `update_payment_status`: the write applies to the row with that id;
        with no such row nothing changes. */
    method UpdatePaymentStatus(paymentId: string, status: PaymentStatus, reason: Option<string>, now: int)
      returns (r: Result<(), string>)
      modifies this
      ensures r.Ok?
      ensures payments == UpdateWhere(old(payments), paymentId, status, reason, now)
      ensures users == old(users) && subscriptions == old(subscriptions)
    {
      payments := UpdateWhere(payments, paymentId, status, reason, now);
      r := Ok(());
    }
  }
}
