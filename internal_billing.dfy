/** The billing variant of `internal/billing/service.go`. Its store helpers
    are stubs: `getUser` returns the same "pro" user with 100 credits for
    every id, and `updateUser` writes nothing. Here `getUser` is that stub
    exactly; `updateUser` is a store request whose outcome is an input (the
    stub always succeeds) and whose argument each method returns, so that
    the record it would persist can be stated. Every balance change is a
    read-then-write in Go's 64-bit arithmetic, with no conditional write. */
module InternalBilling {
  import opened Base
  import opened Models
  import opened Stripe
  import opened PlanCatalog

  /** The stub `getUser`: never fails, and ignores every stored record. */
  function StubUser(userId: string, now: Time): (u: User)
    ensures u.id == userId && u.email == "" && u.createdAt == now
    ensures u.plan == "pro" && u.credits == 100
  {
    User(userId, "", "pro", 100, now)
  }

  /** `DeductCredits`: refuses with the `ErrInsufficientCredits` sentinel
      when the read balance is below `amount`, otherwise hands `updateUser`
      the read record with `amount` subtracted (`update`). */
  method DeductCredits(userId: string, amount: Int64, now: Time, updateOk: bool)
    returns (err: Option<BillingError>, update: Option<User>)
    ensures amount > 100 ==> err == Some(ErrInsufficientCredits) && update == None
    ensures amount <= 100 ==> update == Some(StubUser(userId, now).(credits := Wrap64(100 - amount)))
    ensures amount <= 100 && updateOk ==> err == None
    ensures amount <= 100 && !updateOk ==> err == Some(Failed("failed to update credits"))
    ensures 100 - MaxInt64 <= amount <= 100 ==> update.Some? && update.value.credits == 100 - amount >= 0
  {
    var user := StubUser(userId, now);
    if user.credits < amount {
      return Some(ErrInsufficientCredits), None;
    }
    user := user.(credits := Wrap64(user.credits - amount));
    update := Some(user);
    if !updateOk {
      return Some(Failed("failed to update credits")), update;
    }
    err := None;
  }

  /** A debit far below zero passes the `credits < amount` check, and Go's
      wrap-around then hands `updateUser` a negative balance: this variant
      keeps the balance non-negative only for amounts the caller keeps sane. */
  lemma ExtremeDebitWrapsNegative()
    ensures Wrap64(100 - MinInt64) < 0
  {
  }

  /** `AddCredits`: hands `updateUser` the read record with `amount` added,
      with no bound or guard. */
  method AddCredits(userId: string, amount: Int64, now: Time, updateOk: bool)
    returns (err: Option<BillingError>, update: Option<User>)
    ensures update == Some(StubUser(userId, now).(credits := Wrap64(100 + amount)))
    ensures IsInt64(100 + amount) ==> update.value.credits == 100 + amount
    ensures updateOk <==> err == None
    ensures !updateOk ==> err == Some(Failed("failed to add credits"))
  {
    var user := StubUser(userId, now);
    user := user.(credits := Wrap64(user.credits + amount));
    update := Some(user);
    if !updateOk {
      return Some(Failed("failed to add credits")), update;
    }
    err := None;
  }

  /** `GetUserCredits`: the stub's balance, 100, for every user. */
  method GetUserCredits(userId: string, now: Time) returns (credits: int, err: Option<BillingError>)
    ensures err == None && credits == 100
  {
    var user := StubUser(userId, now);
    return user.credits, None;
  }

  /** `CreateSubscription`: look the plan up; create the Stripe customer
      (`customerId` is Stripe's answer); create a subscription for EVERY
      plan, the free plan's empty price included (`subscriptionOk`); then
      overwrite the caller's `user` BEFORE handing it to `updateUser`
      (`updateOk`), so a failed update still leaves `user` changed. */
  method CreateSubscription(user: UserRef, planId: string, customerId: Option<string>, subscriptionOk: bool,
                            updateOk: bool)
    returns (err: Option<BillingError>, calls: seq<StripeCall>, update: Option<User>)
    modifies user
    ensures planId !in Plans() ==> err == Some(ErrInvalidPlan) && calls == [] && update == None
    ensures planId !in Plans() || customerId.None? || !subscriptionOk ==> user.val == old(user.val) && update == None
    ensures (planId in Plans() && customerId.None?) ==> err == Some(Failed("failed to create stripe customer")) && calls == [NewCustomer(old(user.val).email, old(user.val).id)]
    ensures (planId in Plans() && customerId.Some?) ==>
              calls == [NewCustomer(old(user.val).email, old(user.val).id),
                            NewSubscription(customerId.value, Plans()[planId].priceId)]
    ensures planId in Plans() && customerId.Some? && !subscriptionOk ==> err == Some(Failed("failed to create subscription"))
    ensures (planId in Plans() && customerId.Some? && subscriptionOk) ==>
              user.val == old(user.val).(plan := planId, credits := Plans()[planId].credits)
                  && update == Some(user.val)
                  && (updateOk <==> err == None)
                  && (!updateOk ==> err == Some(Failed("failed to update user")))
  {
    var found := LookupPlan(planId);
    if found.None? {
      return Some(ErrInvalidPlan), [], None;
    }
    var plan := found.value;
    calls := [NewCustomer(user.val.email, user.val.id)];
    if customerId.None? {
      return Some(Failed("failed to create stripe customer")), calls, None;
    }
    calls := calls + [NewSubscription(customerId.value, plan.priceId)];
    if !subscriptionOk {
      return Some(Failed("failed to create subscription")), calls, None;
    }
    user.val := user.val.(plan := planId, credits := plan.credits);
    update := Some(user.val);
    if !updateOk {
      return Some(Failed("failed to update user")), calls, update;
    }
    err := None;
  }
}
