/** The credits ledger of `backend/internal/billing/billing.go`: a billing
    service over the DynamoDB users table, here the map `users`. Every
    DynamoDB and Stripe request is one step whose success or failure is an
    input; the Stripe requests a call makes are returned so that what is
    (not) sent to Stripe can be stated. */
module Billing {
  import opened Base
  import opened Models
  import opened Stripe
  import opened PlanCatalog

  /** The users table, keyed by user id. */
  type Table = map<string, User>

  /** Every stored balance is non-negative. */
  ghost predicate NonNegative(users: Table) {
    forall id :: id in users ==> users[id].credits >= 0
  }

  /** The balance `GetUserCredits` reports: 0 for a user with no row. */
  function StoredCredits(users: Table, userId: string): (c: int)
    ensures userId in users ==> c == users[userId].credits
    ensures userId !in users ==> c == 0
    ensures NonNegative(users) ==> c >= 0
  {
    if userId in users then users[userId].credits else 0
  }

  /** Whether a row reads back into a `models.User`: the stored number must
      fit Go's `int`. A missing row is not read at all. */
  predicate Decodes(users: Table, userId: string)
    ensures Decodes(users, userId) <==> IsInt64(StoredCredits(users, userId))
  {
    userId !in users || IsInt64(users[userId].credits)
  }

  /** The `ConditionExpression` of the debit, `credits >= :amount`, as the
      store evaluates it: false when the row does not exist. */
  predicate DebitCondition(users: Table, userId: string, amount: int)
    ensures DebitCondition(users, userId, amount) <==>
              userId in users && StoredCredits(users, userId) >= amount
    ensures userId !in users ==> !DebitCondition(users, userId, amount)
  {
    userId in users && users[userId].credits >= amount
  }

  /** `SET credits = credits - :amount` on an existing row: only that row's
      credits change. */
  function Debited(users: Table, userId: string, amount: int): (r: Table)
    requires userId in users
    ensures r.Keys == users.Keys
    ensures StoredCredits(r, userId) == StoredCredits(users, userId) - amount
    ensures r[userId] == users[userId].(credits := users[userId].credits - amount)
    ensures forall other :: other in users && other != userId ==> r[other] == users[other]
  {
    users[userId := users[userId].(credits := users[userId].credits - amount)]
  }

  /** The conditional `UpdateItem` of the debit as one atomic step of the
      store: applied exactly when the condition holds, and then, for ANY
      amount, no balance becomes negative. */
  function ConditionalDebit(users: Table, userId: string, amount: int): (r: (Table, bool))
    ensures r.1 <==> DebitCondition(users, userId, amount)
    ensures r.1 ==> r.0 == Debited(users, userId, amount)
    ensures !r.1 ==> r.0 == users
    ensures NonNegative(users) ==> NonNegative(r.0)
  {
    if DebitCondition(users, userId, amount) then (Debited(users, userId, amount), true)
    else (users, false)
  }

  /** `SET credits = if_not_exists(credits, :zero) + :amount`: an upsert.
      A user without a row gets one holding only its id and credits; its
      other attributes read back as Go's zero values. */
  function Credited(users: Table, userId: string, amount: int): (r: Table)
    ensures r.Keys == users.Keys + {userId}
    ensures StoredCredits(r, userId) == StoredCredits(users, userId) + amount
    ensures userId in users ==> r[userId] == users[userId].(credits := users[userId].credits + amount)
    ensures userId !in users ==> r[userId] == User(userId, "", "", amount, ZeroTime)
    ensures forall other :: other in users && other != userId ==> r[other] == users[other]
  {
    if userId in users then users[userId := users[userId].(credits := users[userId].credits + amount)]
    else users[userId := User(userId, "", "", amount, ZeroTime)]
  }

  /** The `PutItem` of a plan change: the whole row is replaced, the plan's
      allotment REPLACES the balance and `createdAt` becomes the write time. */
  function Subscribed(users: Table, user: User, planId: string, now: Time): (r: Table)
    requires planId in Plans()
    ensures r.Keys == users.Keys + {user.id}
    ensures r[user.id] == User(user.id, user.email, planId, Plans()[planId].credits, now)
    ensures StoredCredits(r, user.id) == Plans()[planId].credits
    ensures forall other :: other in users && other != user.id ==> r[other] == users[other]
  {
    users[user.id := User(user.id, user.email, planId, Plans()[planId].credits, now)]
  }

  /** When `DeductCredits` succeeds: the read succeeds and decodes, the
      balance read covers `amount`, and the conditional update is accepted. */
  predicate DeductSucceeds(users: Table, userId: string, amount: int, getOk: bool, updateOk: bool) {
    getOk && Decodes(users, userId) && StoredCredits(users, userId) >= amount
    && updateOk && DebitCondition(users, userId, amount)
  }

  /** When `CreateSubscription` succeeds: a known plan, a created customer, a
      created subscription if the plan is priced, and an accepted write. */
  predicate SubscribeSucceeds(planId: string, customerId: Option<string>, subscriptionOk: bool, putOk: bool) {
    planId in Plans() && customerId.Some?
    && (Plans()[planId].priceId != "" ==> subscriptionOk) && putOk
  }

  /** A call on the ledger together with the outcomes of the requests it makes. */
  datatype LedgerCall =
    | Deduct(userId: string, amount: Int64, getOk: bool, updateOk: bool)
    | Add(userId: string, amount: Int64, updateOk: bool)
    | Subscribe(user: User, planId: string, customerId: Option<string>, subscriptionOk: bool, putOk: bool, now: Time)

  /** The table after one call, as the methods below promise it. */
  function After(users: Table, call: LedgerCall): Table {
    match call
    case Deduct(userId, amount, getOk, updateOk) =>
      if DeductSucceeds(users, userId, amount, getOk, updateOk) then Debited(users, userId, amount) else users
    case Add(userId, amount, updateOk) =>
      if updateOk then Credited(users, userId, amount) else users
    case Subscribe(user, planId, customerId, subscriptionOk, putOk, now) =>
      if SubscribeSucceeds(planId, customerId, subscriptionOk, putOk) then Subscribed(users, user, planId, now) else users
  }

  /** The table after a sequence of calls, in order. */
  function AfterAll(users: Table, calls: seq<LedgerCall>): Table
    decreases |calls|
  {
    if calls == [] then users else AfterAll(After(users, calls[0]), calls[1..])
  }

  /** No sequence of debits, non-negative credits and plan changes ever
      makes a stored balance negative. (`AddCredits` itself accepts a
      negative amount, which can.) */
  lemma {:induction false} CallsKeepBalancesNonNegative(users: Table, calls: seq<LedgerCall>)
    requires NonNegative(users)
    requires forall i :: 0 <= i < |calls| && calls[i].Add? ==> calls[i].amount >= 0
    ensures NonNegative(AfterAll(users, calls))
    decreases |calls|
  {
    if calls != [] {
      var next := After(users, calls[0]);
      match calls[0] {
        case Deduct(userId, amount, getOk, updateOk) =>
          if DeductSucceeds(users, userId, amount, getOk, updateOk) {
            assert next == ConditionalDebit(users, userId, amount).0;
          }
        case Add(userId, amount, updateOk) =>
          assert amount >= 0 by { assert calls[0].Add?; }
        case Subscribe(user, planId, customerId, subscriptionOk, putOk, now) =>
      }
      assert NonNegative(next);
      assert forall i :: 0 <= i < |calls[1..]| && calls[1..][i].Add? ==> calls[1..][i].amount >= 0 by {
        forall i | 0 <= i < |calls[1..]| && calls[1..][i].Add?
          ensures calls[1..][i].amount >= 0
        {
          assert calls[1..][i] == calls[i + 1];
        }
      }
      CallsKeepBalancesNonNegative(next, calls[1..]);
    }
  }

  /** Concurrent debits of one user: each request has passed its own read
      and check, possibly on a stale balance, and their conditional updates
      reach the store in some order. Returns the final table and, per
      request, whether its update was applied. */
  function ApplyDebits(users: Table, userId: string, amounts: seq<int>): (r: (Table, seq<bool>))
    ensures |r.1| == |amounts|
    ensures r.0.Keys == users.Keys
    decreases |amounts|
  {
    if amounts == [] then (users, [])
    else
      var step := ConditionalDebit(users, userId, amounts[0]);
      var rest := ApplyDebits(step.0, userId, amounts[1..]);
      (rest.0, [step.1] + rest.1)
  }

  /** The credits granted to the requests whose update was applied. */
  function Granted(amounts: seq<int>, applied: seq<bool>): int
    requires |applied| == |amounts|
    decreases |amounts|
  {
    if amounts == [] then 0
    else (if applied[0] then amounts[0] else 0) + Granted(amounts[1..], applied[1..])
  }

  /** However the concurrent debits interleave, the balance falls by exactly
      what was granted and never below zero: no credit is spent twice. */
  lemma {:induction false} ConcurrentDebitsNeverOverdraw(users: Table, userId: string, amounts: seq<int>)
    requires userId in users && users[userId].credits >= 0
    ensures userId in ApplyDebits(users, userId, amounts).0
    ensures ApplyDebits(users, userId, amounts).0[userId].credits
              == users[userId].credits - Granted(amounts, ApplyDebits(users, userId, amounts).1)
    ensures ApplyDebits(users, userId, amounts).0[userId].credits >= 0
  {
    if amounts != [] {
      var step := ConditionalDebit(users, userId, amounts[0]);
      ConcurrentDebitsNeverOverdraw(step.0, userId, amounts[1..]);
      var r := ApplyDebits(users, userId, amounts);
      var rest := ApplyDebits(step.0, userId, amounts[1..]);
      assert r.1 == [step.1] + rest.1;
      assert r.1[1..] == rest.1;
    }
  }

  /** Two requests each debiting 1 from a balance of 1, both reading before
      either writes: both pass the read-and-check, exactly one update is
      applied, and the balance ends at 0. */
  lemma TwoDebitsOfOneFromOne(users: Table, userId: string)
    requires userId in users && users[userId].credits == 1
    ensures StoredCredits(users, userId) >= 1
    ensures ApplyDebits(users, userId, [1, 1]).1 == [true, false]
    ensures ApplyDebits(users, userId, [1, 1]).0[userId].credits == 0
  {
    var first := ConditionalDebit(users, userId, 1);
    assert first.1 && first.0[userId].credits == 0;
    var second := ConditionalDebit(first.0, userId, 1);
    assert !second.1;
    assert [1, 1][1..] == [1];
    assert ApplyDebits(second.0, userId, []) == (second.0, []);
  }

  class BillingService {
    /** The DynamoDB users table. */
    var users: Table

    constructor (initial: Table)
      ensures users == initial
    {
      users := initial;
    }

    /** `GetUserCredits`: one `GetItem`, whose outcome is `getOk`. A user
        without a row has 0 credits; nothing is written. */
    method GetUserCredits(userId: string, getOk: bool) returns (credits: int, err: Option<BillingError>)
      ensures !getOk ==> credits == 0 && err == Some(Failed("failed to get user"))
      ensures getOk && !Decodes(users, userId) ==> credits == 0 && err == Some(Failed("failed to unmarshal user"))
      ensures getOk && Decodes(users, userId) ==> err == None && credits == StoredCredits(users, userId)
      ensures getOk && userId !in users ==> err == None && credits == 0
    {
      if !getOk {
        return 0, Some(Failed("failed to get user"));
      }
      if userId !in users {
        return 0, None;
      }
      var user := users[userId];
      if !IsInt64(user.credits) {
        return 0, Some(Failed("failed to unmarshal user"));
      }
      return user.credits, None;
    }

    /** `DeductCredits`: read the balance, refuse if it is below `amount`,
        then the conditional update (outcome `updateOk`). The refusal is a
        fresh `fmt.Errorf` error, not the `ErrInsufficientCredits` sentinel. */
    method DeductCredits(userId: string, amount: Int64, getOk: bool, updateOk: bool) returns (err: Option<BillingError>)
      modifies this
      ensures users == After(old(users), Deduct(userId, amount, getOk, updateOk))
      ensures err.None? <==> DeductSucceeds(old(users), userId, amount, getOk, updateOk)
      ensures err.Some? ==> users == old(users)
      ensures err.None? ==> userId in old(users) && users == Debited(old(users), userId, amount)
      ensures !getOk ==> err == Some(Failed("failed to get user"))
      ensures getOk && !Decodes(old(users), userId) ==> err == Some(Failed("failed to unmarshal user"))
      ensures (getOk && Decodes(old(users), userId) && StoredCredits(old(users), userId) < amount)
                ==> err == Some(Failed("insufficient credits"))
      ensures (getOk && Decodes(old(users), userId) && StoredCredits(old(users), userId) >= amount
                && !(updateOk && DebitCondition(old(users), userId, amount)))
                ==> err == Some(Failed("failed to deduct credits"))
      ensures NonNegative(old(users)) ==> NonNegative(users)
    {
      var credits, readErr := GetUserCredits(userId, getOk);
      if readErr.Some? {
        return readErr;
      }
      if credits < amount {
        return Some(Failed("insufficient credits"));
      }
      if !updateOk {
        return Some(Failed("failed to deduct credits"));
      }
      var step := ConditionalDebit(users, userId, amount);
      if !step.1 {
        return Some(Failed("failed to deduct credits"));
      }
      users := step.0;
      return None;
    }

    /** `AddCredits`: one upserting update (outcome `updateOk`); no bound and
        no check on `amount`. */
    method AddCredits(userId: string, amount: Int64, updateOk: bool) returns (err: Option<BillingError>)
      modifies this
      ensures users == After(old(users), Add(userId, amount, updateOk))
      ensures updateOk ==> err == None && users == Credited(old(users), userId, amount)
      ensures !updateOk ==> err == Some(Failed("failed to add credits")) && users == old(users)
    {
      if !updateOk {
        return Some(Failed("failed to add credits"));
      }
      users := Credited(users, userId, amount);
      return None;
    }

    /** `CreateSubscription`: look the plan up; create the Stripe customer
        (`customerId` is Stripe's answer, None on failure); for a priced plan
        only, create the subscription (`subscriptionOk`); then replace the
        user's row (`putOk`) and only after that update the caller's `user`. */
    method CreateSubscription(user: UserRef, planId: string, customerId: Option<string>, subscriptionOk: bool,
                              putOk: bool, now: Time)
      returns (err: Option<BillingError>, calls: seq<StripeCall>)
      modifies this, user
      ensures users == After(old(users), Subscribe(old(user.val), planId, customerId, subscriptionOk, putOk, now))
      ensures err.None? <==> SubscribeSucceeds(planId, customerId, subscriptionOk, putOk)
      ensures planId !in Plans() ==> err == Some(ErrInvalidPlan) && calls == []
      ensures planId in Plans() ==> |calls| >= 1 && calls[0] == NewCustomer(old(user.val).email, old(user.val).id)
      ensures planId in Plans() ==> (|calls| == 2 <==> customerId.Some? && Plans()[planId].priceId != "")
      ensures |calls| <= 2
      ensures |calls| == 2 ==> calls[1] == NewSubscription(customerId.value, Plans()[planId].priceId)
      ensures planId in Plans() && customerId.None? ==> err == Some(Failed("failed to create stripe customer"))
      ensures (planId in Plans() && customerId.Some? && Plans()[planId].priceId != "" && !subscriptionOk)
                ==> err == Some(Failed("failed to create subscription"))
      ensures (planId in Plans() && customerId.Some? && (Plans()[planId].priceId != "" ==> subscriptionOk) && !putOk)
                ==> err == Some(Failed("failed to create subscription"))
      ensures err.Some? ==> users == old(users) && user.val == old(user.val)
      ensures err.None? ==> users == Subscribed(old(users), old(user.val), planId, now)
      ensures err.None? ==> user.val == old(user.val).(plan := planId, credits := Plans()[planId].credits)
    {
      var found := LookupPlan(planId);
      if found.None? {
        return Some(ErrInvalidPlan), [];
      }
      var plan := found.value;
      calls := [NewCustomer(user.val.email, user.val.id)];
      if customerId.None? {
        return Some(Failed("failed to create stripe customer")), calls;
      }
      if plan.priceId != "" {
        calls := calls + [NewSubscription(customerId.value, plan.priceId)];
        if !subscriptionOk {
          return Some(Failed("failed to create subscription")), calls;
        }
      }
      if !putOk {
        return Some(Failed("failed to create subscription")), calls;
      }
      users := users[user.val.id := User(user.val.id, user.val.email, planId, plan.credits, now)];
      user.val := user.val.(plan := planId, credits := plan.credits);
      err := None;
    }
  }
}
