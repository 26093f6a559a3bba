/** The subscription-tier route guard (src/context/PlanRoute.tsx) and its composition with the
    subscription provider. */
module PlanRoute {
  import opened Wrappers
  import opened SubscriptionContext

  /** The tiers a route may demand as its `minPlan`. */
  datatype Tier = Trial | Basic | Medium | Premium

  /** The name of each tier as the backend spells it; names are case-sensitive. */
  function TierName(t: Tier): string {
    match t
    case Trial => "trial"
    case Basic => "Basic"
    case Medium => "Medium"
    case Premium => "Premium"
  }

  /** The `planWeights` table looked up with the received plan name. A name outside the table
      has no weight (`undefined` in the source). */
  function Weight(name: string): (w: Option<int>)
    ensures w.Some? <==> exists t :: TierName(t) == name
  {
    if name == "trial" then assert TierName(Trial) == name; Some(1)
    else if name == "Basic" then assert TierName(Basic) == name; Some(1)
    else if name == "Medium" then assert TierName(Medium) == name; Some(2)
    else if name == "Premium" then assert TierName(Premium) == name; Some(3)
    else None
  }

  /** The weight a required tier is compared against. */
  function TierWeight(t: Tier): int {
    Weight(TierName(t)).value
  }

  /** The documented tier order, written as an explicit relation independent of the weights:
      Trial and Basic satisfy Basic-or-lower gates, Medium needs Medium or Premium, Premium
      needs Premium. */
  predicate AtLeast(held: Tier, required: Tier) {
    match required
    case Trial => true
    case Basic => true
    case Medium => held == Medium || held == Premium
    case Premium => held == Premium
  }

  /** Comparing weights is exactly the documented order. */
  lemma WeightsMatchOrder(held: Tier, required: Tier)
    ensures TierWeight(held) >= TierWeight(required) <==> AtLeast(held, required)
    ensures TierWeight(Trial) == TierWeight(Basic) < TierWeight(Medium) < TierWeight(Premium)
  {
  }

  /** The order is a total preorder: reflexive, transitive and total. */
  lemma AtLeastIsTotalPreorder(a: Tier, b: Tier, c: Tier)
    ensures AtLeast(a, a)
    ensures AtLeast(a, b) && AtLeast(b, c) ==> AtLeast(a, c)
    ensures AtLeast(a, b) || AtLeast(b, a)
  {
  }

  const UpsellPath := "/home/plans-gym"

  /** What the guard renders: nothing, a redirect, or the guarded children. */
  datatype View = Nothing | Redirect(to: string) | Children

  /** `PlanRoute`. While loading it renders nothing; without a subscription it redirects to
      the plan-selection view; otherwise it redirects exactly when the plan's weight is defined
      and below the required one. */
  function Guard(loading: bool, sub: Option<Subscription>, minPlan: Tier): (v: View)
    ensures loading <==> v == Nothing
    ensures v.Redirect? ==> v.to == UpsellPath
    ensures !loading && sub.None? ==> v.Redirect?
    ensures !loading && sub.Some? ==>
      forall t :: TierName(t) == sub.value.planType ==> (v == Children <==> AtLeast(t, minPlan))
    ensures !loading && sub.Some? && (forall t :: TierName(t) != sub.value.planType) ==> v == Children
  {
    if loading then Nothing
    else if sub.None? then Redirect(UpsellPath)
    else
      var w := Weight(sub.value.planType);
      if w.Some? && w.value < TierWeight(minPlan) then Redirect(UpsellPath) else Children
  }

  /** Passing a gate implies passing every gate of no greater weight. */
  lemma GuardMonotone(sub: Subscription, m: Tier, m': Tier)
    requires TierWeight(m') <= TierWeight(m)
    requires Guard(false, Some(sub), m) == Children
    ensures Guard(false, Some(sub), m') == Children
  {
  }

  /** The chat route demands Medium: trial and Basic are redirected, Medium and Premium enter. */
  lemma ChatRouteGate(status: string, endDate: string)
    ensures Guard(false, Some(Subscription("trial", status, endDate)), Medium) == Redirect(UpsellPath)
    ensures Guard(false, Some(Subscription("Basic", status, endDate)), Medium) == Redirect(UpsellPath)
    ensures Guard(false, Some(Subscription("Medium", status, endDate)), Medium) == Children
    ensures Guard(false, Some(Subscription("Premium", status, endDate)), Medium) == Children
  {
  }

  /** The guard looks only at the plan name: status and end date never change its decision,
      so an expired Premium subscription still passes a Premium gate. */
  lemma GuardIgnoresStatus(loading: bool, sub: Subscription, status: string, endDate: string, m: Tier)
    ensures Guard(loading, Some(sub), m) == Guard(loading, Some(sub.(status := status, endDate := endDate)), m)
  {
  }

  /** What a guarded route shows after the provider has seen the settlements in `trace`. */
  function Access(trace: seq<Outcome>, minPlan: Tier): View {
    var s := Run(Initial(), trace);
    Guard(s.loading, s.snapshot, minPlan)
  }

  /** End to end: before any fetch settles the route renders nothing; afterwards only the last
      settlement matters, a failure or an empty body redirects, and a received subscription is
      judged by the guard. */
  lemma {:induction false} AccessAfterTrace(trace: seq<Outcome>, minPlan: Tier)
    ensures |trace| == 0 ==> Access(trace, minPlan) == Nothing
    ensures |trace| > 0 ==>
      match trace[|trace| - 1]
      case Err => Access(trace, minPlan) == Redirect(UpsellPath)
      case Ok(None) => Access(trace, minPlan) == Redirect(UpsellPath)
      case Ok(Some(sub)) => Access(trace, minPlan) == Guard(false, Some(sub), minPlan)
  {
    if |trace| > 0 {
      RunLastWins(Initial(), trace);
    }
  }
}
