/** Runs of the market: any sequence of the five mutating calls, in any order,
    with any arguments, successful or not. */
module MarketRuns {
  import opened Wrappers
  import opened A2aMarket
  import opened MarketInvariant

  datatype Call =
    | PublishIntent(intent: Intent)
    | SubmitRequests(batch: seq<Request>)
    | EngageRequest(actor: Id, requestId: Id, selectionResultId: Id)
    | CloseEngagement(engagementId: EngagementId, closing: Closing, source: Option<Id>)
    | FreezeDeal(terms: Acceptance)

  /** The record a successful call answers with, by its id. */
  datatype Ref = IntentRef(id: Id) | RequestRef(id: Id) | EngagementRef(e: EngagementId) | DealRef(d: DealId)

  function Step(s: Market, c: Call): Market
    requires Indexed(s)
  {
    match c
    case PublishIntent(i) => Publish(s, i).state
    case SubmitRequests(b) => Submit(s, b).state
    case EngageRequest(a, q, r) => Engage(s, a, q, r).state
    case CloseEngagement(e, k, r) => Close(s, e, k, r).state
    case FreezeDeal(t) => Freeze(s, t).state
  }

  function Answer(s: Market, c: Call): Result<Ref, MarketError>
    requires Indexed(s)
  {
    match c
    case PublishIntent(i) =>
      var r := Publish(s, i).result;
      if r.Ok? then Ok(IntentRef(r.value.intentId)) else Err(r.error)
    case SubmitRequests(b) =>
      var r := Submit(s, b).result;
      if r.Ok? then Ok(RequestRef(if r.value == [] then Id("") else r.value[0].requestId)) else Err(r.error)
    case EngageRequest(a, q, r) =>
      var r := Engage(s, a, q, r).result;
      if r.Ok? then Ok(EngagementRef(r.value.engagementId)) else Err(r.error)
    case CloseEngagement(e, k, r) =>
      var r := Close(s, e, k, r).result;
      if r.Ok? then Ok(EngagementRef(r.value.engagementId)) else Err(r.error)
    case FreezeDeal(t) =>
      var r := Freeze(s, t).result;
      if r.Ok? then Ok(DealRef(r.value.dealId)) else Err(r.error)
  }

  lemma StepKeepsInv(s: Market, c: Call)
    requires Inv(s)
    ensures Inv(Step(s, c))
  {
    hide Inv, Publish, Submit, Engage, Close, Freeze, Indexed;
    match c
    case PublishIntent(i) => PublishKeepsInv(s, i);
    case SubmitRequests(b) => SubmitKeepsInv(s, b);
    case EngageRequest(a, q, r) => EngageKeepsInv(s, a, q, r);
    case CloseEngagement(e, k, r) => CloseKeepsInv(s, e, k, r);
    case FreezeDeal(t) => FreezeKeepsInv(s, t);
  }

  /** The state after a run, which keeps the invariant. */
  ghost function After(s: Market, run: seq<Call>): (t: Market)
    requires Inv(s)
    ensures Inv(t)
  {
    if run == [] then s
    else
      var before := After(s, run[..|run| - 1]);
      StepKeepsInv(before, run[|run| - 1]);
      Step(before, run[|run| - 1])
  }

  /** The state after a run from the empty market. */
  ghost function Reached(maxOutboundRfq: nat, run: seq<Call>): (t: Market)
    ensures Inv(t)
  {
    EmptyInv(maxOutboundRfq);
    After(Empty(maxOutboundRfq), run)
  }
}
