/** `getPlanLimit` of lib/stripe.ts: how many child profiles a plan allows. */
module PlanLimit {

  const FreeLimit: nat := 1
  const PremiumLimit: nat := 10

  /** `plan === 'free' ? 1 : 10`: every plan name other than "free" gets the premium limit. */
  function GetPlanLimit(plan: string): (r: nat)
    ensures r == FreeLimit <==> plan == "free"
    ensures r == FreeLimit || r == PremiumLimit
  {
    if plan == "free" then FreeLimit else PremiumLimit
  }

  /** Upgrading never lowers the limit. */
  lemma FreeBelowPremium()
    ensures GetPlanLimit("free") < GetPlanLimit("premium")
    ensures GetPlanLimit("free") == 1 && GetPlanLimit("premium") == 10
  {
  }
}
