/** The two Stripe requests the billing code issues. The model records each
    request it makes; whether Stripe accepts it is an input. */
module Stripe {

  datatype StripeCall =
    | NewCustomer(email: string, userId: string)       // customer.New
    | NewSubscription(customerId: string, priceId: string)  // subscription.New
}

/** The static plan table and the two sentinel errors of the billing
    package (`backend/internal/billing/service.go`; `billing.go` declares
    the same table, while `internal/billing/service.go` declares none and
    reads a `Plans` it does not define). Prices per month and feature lists
    are descriptive and left out. */
module PlanCatalog {
  import opened Base

  datatype Plan = Plan(id: string, name: string, priceId: string, credits: int)

  /** Errors of the billing code: the two sentinels, and the errors built
      with `fmt.Errorf`, identified by their fixed message. An error built
      with `fmt.Errorf` never equals a sentinel, whatever its text. */
  datatype BillingError =
    | ErrInsufficientCredits
    | ErrInvalidPlan
    | Failed(message: string)

  /** `Plans`: free, pro and enterprise, each stored under its own id. */
  function Plans(): (plans: map<string, Plan>)
    ensures plans.Keys == {"free", "pro", "enterprise"}
    ensures forall id :: id in plans ==> plans[id].id == id && plans[id].credits > 0
    ensures plans["free"].priceId == ""
    ensures plans["pro"].priceId == "price_pro"
    ensures plans["enterprise"].priceId == "price_enterprise"
  {
    map[
      "free" := Plan("free", "Free Tier", "", 10),
      "pro" := Plan("pro", "Pro", "price_pro", 100),
      "enterprise" := Plan("enterprise", "Enterprise", "price_enterprise", 1000)
    ]
  }

  /** `Plans[planID]` with Go's comma-ok: absent for any id outside the table. */
  function LookupPlan(planId: string): (r: Option<Plan>)
    ensures r.Some? <==> planId in {"free", "pro", "enterprise"}
    ensures r.Some? ==> r.value.id == planId && r.value.credits > 0
    ensures r.Some? ==> (r.value.priceId == "" <==> planId == "free")
  {
    if planId in Plans() then Some(Plans()[planId]) else None
  }

  /** The allotments are 10, 100 and 1000 credits, rising with the tier. */
  lemma AllotmentsRiseByTier()
    ensures Plans()["free"].credits == 10
    ensures Plans()["pro"].credits == 100
    ensures Plans()["enterprise"].credits == 1000
    ensures Plans()["free"].credits < Plans()["pro"].credits < Plans()["enterprise"].credits
  {
  }
}
