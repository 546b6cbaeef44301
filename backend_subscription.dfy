/** The backend's in-memory subscription: created Pending, then activated
    for thirty days, cancelled or expired, with no guard on the status it
    comes from. */
module SubscriptionService {
  import opened Base

  datatype Status = Pending | Active | Expired | Cancelled

  class Subscription {
    const id: string
    const userId: string
    const planType: string
    var status: Status
    const amount: real
    const currency: string
    const createdAt: int
    var updatedAt: int
    var activatedAt: Option<int>
    var expiresAt: Option<int>

    /** `Subscription::new`; `id` and `now` stand for the fresh UUID and the
        clock. */
    constructor (userId: string, planType: string, amount: real, currency: string, id: string, now: int)
      ensures this.id == id && this.userId == userId && this.planType == planType
      ensures this.amount == amount && this.currency == currency
      ensures status == Pending && activatedAt == None && expiresAt == None
      ensures createdAt == now && updatedAt == now
    {
      this.id := id;
      this.userId := userId;
      this.planType := planType;
      status := Pending;
      this.amount := amount;
      this.currency := currency;
      createdAt := now;
      updatedAt := now;
      activatedAt := None;
      expiresAt := None;
    }

    /** `activate`: Active from now for thirty days, whatever the status was. */
    method Activate(now: int)
      modifies this
      ensures status == Active && activatedAt == Some(now) && expiresAt == Some(now + 30 * DAY)
      ensures updatedAt == now
    {
      status := Active;
      activatedAt := Some(now);
      expiresAt := Some(now + 30 * DAY);
      updatedAt := now;
    }

    /** `cancel`: the dates are kept. */
    method Cancel(now: int)
      modifies this
      ensures status == Cancelled && updatedAt == now
      ensures activatedAt == old(activatedAt) && expiresAt == old(expiresAt)
    {
      status := Cancelled;
      updatedAt := now;
    }

    /** `expire`: the dates are kept. */
    method Expire(now: int)
      modifies this
      ensures status == Expired && updatedAt == now
      ensures activatedAt == old(activatedAt) && expiresAt == old(expiresAt)
    {
      status := Expired;
      updatedAt := now;
    }
  }

  /** Nothing guards a transition: a cancelled subscription can expire, and
      an expired one can be activated again, which restarts its thirty days;
      the identity and the price never change. */
  method UnguardedLifecycle(userId: string, plan: string, amount: real, t0: int, t1: int, t2: int, t3: int)
    returns (afterCancel: Status, afterExpire: Status, reactivated: Status, expiry: Option<int>, price: real, owner: string)
    ensures afterCancel == Cancelled && afterExpire == Expired && reactivated == Active
    ensures expiry == Some(t3 + 30 * DAY)
    ensures price == amount && owner == userId
  {
    var s := new Subscription(userId, plan, amount, "ZAR", "subscription", t0);
    s.Cancel(t1);
    afterCancel := s.status;
    s.Expire(t2);
    afterExpire := s.status;
    s.Activate(t3);
    reactivated := s.status;
    expiry := s.expiresAt;
    price := s.amount;
    owner := s.userId;
  }
}
