/** The subscription provider (src/context/SubscriptionContext.tsx): the cached snapshot of the
    caller's subscription, the loading flag, and the fetch that drives both. */
module SubscriptionContext {
  import opened Wrappers

  /** The subscription record as received. `planType` is whatever string the backend sent:
      the source declares a four-name union but never checks it. */
  datatype Subscription = Subscription(planType: string, status: string, endDate: string)

  /** The provider's state: the snapshot (`null` when absent) and the loading flag. */
  datatype State = State(snapshot: Option<Subscription>, loading: bool)

  /** What a fetch of the subscription settles to: the response body (JSON `null` is `None`),
      or a rejection. The call itself is external to this model. */
  type Outcome = Fetched<Option<Subscription>>

  /** The state on mount, before the first fetch settles. */
  function Initial(): (s: State)
    ensures s.loading && s.snapshot.None?
  {
    State(None, true)
  }

  /** `fetchSubscription` settling: success replaces the snapshot wholesale with the body,
      failure stores `null`, and either way loading ends. Issuing a fetch changes nothing, so
      the refresh callback, being the same function, is this same transition. */
  function Settle(s: State, o: Outcome): (r: State)
    ensures !r.loading
    ensures o.Ok? ==> r.snapshot == o.data
    ensures o.Err? ==> r.snapshot.None?
  {
    match o
    case Ok(body) => State(body, false)
    case Err => State(None, false)
  }

  /** The state after a sequence of fetch settlements, in the order they settled. */
  function Run(s: State, trace: seq<Outcome>): State
    decreases |trace|
  {
    if |trace| == 0 then s else Run(Settle(s, trace[0]), trace[1..])
  }

  /** Last-settled-wins: after a non-empty trace the state is exactly what the last settlement
      produced, whatever came before it. */
  lemma {:induction false} RunLastWins(s: State, trace: seq<Outcome>)
    requires |trace| > 0
    ensures Run(s, trace) == Settle(Initial(), trace[|trace| - 1])
    decreases |trace|
  {
    if |trace| == 1 {
      assert Run(s, trace) == Run(Settle(s, trace[0]), []);
    } else {
      RunLastWins(Settle(s, trace[0]), trace[1..]);
    }
  }

  /** Loading goes from true to false at most once: it is still true after a trace exactly
      when the provider started loading and nothing has settled yet. */
  lemma {:induction false} RunLoading(s: State, trace: seq<Outcome>)
    ensures Run(s, trace).loading <==> s.loading && |trace| == 0
  {
    if |trace| > 0 {
      RunLastWins(s, trace);
    }
  }

  /** Whether the provider is mounted above the consumer; the refresh callback is left out. */
  datatype ContextValue = ContextValue(subscription: Option<Subscription>, loading: bool)

  const OutsideProvider := "useSubscription must be used within SubscriptionProvider"

  /** `useSubscription`: with no provider value the accessor throws; it never returns a default. */
  function UseSubscription(ctx: Option<ContextValue>): (r: Result<ContextValue, string>)
    ensures r.Success? <==> ctx.Some?
    ensures r.Success? ==> r.value == ctx.value
    ensures r.Failure? ==> r.error == OutsideProvider
  {
    match ctx
    case None => Failure(OutsideProvider)
    case Some(v) => Success(v)
  }

  /** The value the provider publishes for a state. */
  function Publish(s: State): (v: ContextValue)
    ensures UseSubscription(Some(v)) == Success(v)
    ensures v.subscription == s.snapshot && v.loading == s.loading
  {
    ContextValue(s.snapshot, s.loading)
  }
}
