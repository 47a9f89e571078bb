/** The checks a runtime's candidate action must pass (arena_core/candidate_validation.py) and the
    projection of a terminal result to one outcome (arena_core/application_policy.py). */
module CandidateValidation {
  import opened Wrappers
  import opened Money

  datatype Role = Buyer | Seller

  datatype Order = Order(good: string, quantity: nat, limitPrice: Option<Dec>, publicPrice: Option<Dec>, message: Option<string>)

  datatype RfqTarget = RfqTarget(intentId: string, openingPrice: Dec)

  datatype Action =
    | Buy(order: Order) | Sell(order: Order) | Pass
    | Propose(price: Dec) | Accept | Reject
    | RequestNegotiations(requests: seq<RfqTarget>)
    | EngageRequest(requestId: string) | RejectAllRequests

  datatype ActionName = BuyName | SellName | PassName

  datatype Portfolio = Portfolio(
    allowedActions: set<ActionName>, allowedGoods: set<string>, holdings: map<string, nat>, cash: Dec)

  /** The frozen view of a task; each kind of task has its own. */
  datatype Input =
    | Decide(portfolio: Portfolio)
    | Negotiate(role: Role, turnSequence: nat, remainingTurns: nat, latestQuote: Option<Dec>, limitPrice: Option<Dec>)
    | MarketIntent(portfolio: Portfolio)
    | MarketRfq(maxOutbound: nat, directory: set<string>, ceiling: Dec)
    | MarketSelect(visible: set<string>, inventory: nat, quantity: nat)

  datatype Violation =
    | ActionNotAllowed | GoodNotAllowed | InsufficientInventory | InsufficientCash | PricePrecision
    | PublicPriceNotAllowed | MarketPriceRequired | MarketPriceBoundary
    | RfqBudget | RfqTargetNotVisible | LimitPrice | RequestNotVisible
    | OpeningRequired | ProposalRequired | FinalTurnMustClose

  /** The precision check: the price in millionths is whole after the product was rounded. */
  predicate Precise(p: Dec) {
    Rounded(p.coefficient * GOLD_SCALE) % Pow10(p.places) == 0
  }

  predicate PreciseIfSet(p: Option<Dec>) {
    p.Some? ==> Precise(p.value)
  }

  function Holding(p: Portfolio, good: string): nat {
    if good in p.holdings then p.holdings[good] else 0
  }

  predicate GoodAllowed(p: Portfolio, good: string) {
    p.allowedGoods == {} || good in p.allowedGoods
  }

  function NameOf(a: Action): ActionName
    requires a.Buy? || a.Sell? || a.Pass?
  {
    if a.Buy? then BuyName else if a.Sell? then SellName else PassName
  }

  function DecideViolation(p: Portfolio, a: Action): Option<Violation>
    requires a.Buy? || a.Sell? || a.Pass?
  {
    if NameOf(a) !in p.allowedActions then Some(ActionNotAllowed)
    else if a.Pass? then None
    else if a.order.publicPrice.Some? || a.order.message.Some? then Some(PublicPriceNotAllowed)
    else if !PreciseIfSet(a.order.limitPrice) then Some(PricePrecision)
    else if !GoodAllowed(p, a.order.good) then Some(GoodNotAllowed)
    else if a.Sell? && Holding(p, a.order.good) < a.order.quantity then Some(InsufficientInventory)
    else if a.Buy? && a.order.limitPrice.Some? && !LessEq(Times(a.order.limitPrice.value, a.order.quantity), p.cash) then
      Some(InsufficientCash)
    else None
  }

  function IntentViolation(p: Portfolio, a: Action): Option<Violation>
    requires a.Buy? || a.Sell? || a.Pass?
  {
    if NameOf(a) !in p.allowedActions then Some(ActionNotAllowed)
    else if a.Pass? then None
    else if !GoodAllowed(p, a.order.good) then Some(GoodNotAllowed)
    else if a.order.publicPrice.None? || a.order.limitPrice.None? then Some(MarketPriceRequired)
    else if !Precise(a.order.publicPrice.value) || !Precise(a.order.limitPrice.value) then Some(PricePrecision)
    else if a.Buy? then
      if !LessEq(a.order.publicPrice.value, a.order.limitPrice.value) then Some(MarketPriceBoundary)
      else if !LessEq(Times(a.order.limitPrice.value, a.order.quantity), p.cash) then Some(InsufficientCash)
      else None
    else if !LessEq(a.order.limitPrice.value, a.order.publicPrice.value) then Some(MarketPriceBoundary)
    else if Holding(p, a.order.good) < a.order.quantity then Some(InsufficientInventory)
    else None
  }

  /** The first request that breaks a rule decides. */
  function RequestsViolation(directory: set<string>, ceiling: Dec, requests: seq<RfqTarget>): Option<Violation> {
    if requests == [] then None
    else if requests[0].intentId !in directory then Some(RfqTargetNotVisible)
    else if !Precise(requests[0].openingPrice) then Some(PricePrecision)
    else if !LessEq(requests[0].openingPrice, ceiling) then Some(LimitPrice)
    else RequestsViolation(directory, ceiling, requests[1..])
  }

  function RfqViolation(maxOutbound: nat, directory: set<string>, ceiling: Dec, a: Action): Option<Violation>
    requires a.RequestNegotiations? || a.Pass?
  {
    if a.Pass? then None
    else if |a.requests| > maxOutbound then Some(RfqBudget)
    else RequestsViolation(directory, ceiling, a.requests)
  }

  predicate RequestOk(directory: set<string>, ceiling: Dec, r: RfqTarget) {
    r.intentId in directory && Precise(r.openingPrice) && LessEq(r.openingPrice, ceiling)
  }

  /** No violation is reported exactly when every request is visible, precise and within the ceiling. */
  lemma {:induction false} NoViolationMeansEveryRequestOk(directory: set<string>, ceiling: Dec, requests: seq<RfqTarget>)
    ensures RequestsViolation(directory, ceiling, requests).None? <==>
              forall i | 0 <= i < |requests| :: RequestOk(directory, ceiling, requests[i])
  {
    hide Precise, LessEq;
    if requests != [] {
      NoViolationMeansEveryRequestOk(directory, ceiling, requests[1..]);
      if forall i | 0 <= i < |requests[1..]| :: RequestOk(directory, ceiling, requests[1..][i]) {
        forall i | 0 < i < |requests| ensures RequestOk(directory, ceiling, requests[i]) {
          assert requests[i] == requests[1..][i - 1];
        }
      }
    }
  }

  /** The loop over the requests of one action. */
  method MarketRfqCandidateViolation(maxOutbound: nat, directory: set<string>, ceiling: Dec, a: Action)
    returns (v: Option<Violation>)
    requires a.RequestNegotiations? || a.Pass?
    ensures v == RfqViolation(maxOutbound, directory, ceiling, a)
    ensures v.None? <==> a.Pass? || (|a.requests| <= maxOutbound && forall i | 0 <= i < |a.requests| :: RequestOk(directory, ceiling, a.requests[i]))
  {
    hide Precise, LessEq;
    if a.Pass? {
      return None;
    }
    NoViolationMeansEveryRequestOk(directory, ceiling, a.requests);
    if |a.requests| > maxOutbound {
      return Some(RfqBudget);
    }
    var i := 0;
    while i < |a.requests|
      invariant 0 <= i <= |a.requests|
      invariant RequestsViolation(directory, ceiling, a.requests[i..]) == RequestsViolation(directory, ceiling, a.requests)
    {
      var r := a.requests[i];
      assert a.requests[i..][1..] == a.requests[i + 1..];
      if r.intentId !in directory {
        return Some(RfqTargetNotVisible);
      }
      if !Precise(r.openingPrice) {
        return Some(PricePrecision);
      }
      if !LessEq(r.openingPrice, ceiling) {
        return Some(LimitPrice);
      }
      i := i + 1;
    }
    v := None;
  }

  function SelectViolation(visible: set<string>, inventory: nat, quantity: nat, a: Action): Option<Violation>
    requires a.EngageRequest? || a.RejectAllRequests?
  {
    if a.EngageRequest? && a.requestId !in visible then Some(RequestNotVisible)
    else if a.EngageRequest? && inventory < quantity then Some(InsufficientInventory)
    else None
  }

  /** A price on the wrong side of the role's private limit. */
  predicate Beyond(role: Role, price: Dec, limit: Dec) {
    if role == Buyer then !LessEq(price, limit) else !LessEq(limit, price)
  }

  function NegotiationViolation(i: Input, a: Action): Option<Violation>
    requires i.Negotiate? && (a.Propose? || a.Accept? || a.Reject?)
  {
    if i.turnSequence == 1 && !a.Propose? then Some(OpeningRequired)
    else if a.Accept? && i.latestQuote.None? then Some(ProposalRequired)
    else if i.remainingTurns <= 1 && a.Propose? then Some(FinalTurnMustClose)
    else if a.Propose? && !Precise(a.price) then Some(PricePrecision)
    else if a.Propose? && i.limitPrice.Some? && Beyond(i.role, a.price, i.limitPrice.value) then Some(LimitPrice)
    else if a.Accept? && i.limitPrice.Some? && Beyond(i.role, i.latestQuote.value, i.limitPrice.value) then Some(LimitPrice)
    else None
  }

  // ---------------------------------------------------------- application

  datatype RunStatus = Succeeded | Failed | TimedOut | Cancelled

  datatype Reason = Runtime(status: RunStatus) | Violated(violation: Violation) | KindMismatch

  datatype AppliedKind = Candidate | DefaultPass | NegotiationTimeout | MarketTimeout

  datatype Application = Application(accepted: bool, outcome: AppliedKind, action: Option<Action>, reason: Option<Reason>)

  function DefaultApplication(i: Input, reason: Reason): Application {
    if i.Decide? || i.MarketIntent? then Application(true, DefaultPass, Some(Pass), Some(reason))
    else Application(true, if i.Negotiate? then NegotiationTimeout else MarketTimeout, None, Some(reason))
  }

  /** The actions each kind of task may answer with. */
  predicate Fits(i: Input, a: Action) {
    match i
    case Decide(_) => a.Buy? || a.Sell? || a.Pass?
    case MarketIntent(_) => a.Buy? || a.Sell? || a.Pass?
    case Negotiate(_, _, _, _, _) => a.Propose? || a.Accept? || a.Reject?
    case MarketRfq(_, _, _) => a.RequestNegotiations? || a.Pass?
    case MarketSelect(_, _, _) => a.EngageRequest? || a.RejectAllRequests?
  }

  function CandidateViolation(i: Input, a: Action): Option<Violation>
    requires Fits(i, a)
  {
    match i
    case Decide(p) => DecideViolation(p, a)
    case MarketIntent(p) => IntentViolation(p, a)
    case Negotiate(_, _, _, _, _) => NegotiationViolation(i, a)
    case MarketRfq(n, d, c) => RfqViolation(n, d, c, a)
    case MarketSelect(v, n, q) => SelectViolation(v, n, q, a)
  }

  function DeriveApplication(i: Input, status: RunStatus, action: Option<Action>): Application {
    if status != Succeeded then DefaultApplication(i, Reason.Runtime(status))
    else if action.None? || !Fits(i, action.value) then DefaultApplication(i, KindMismatch)
    else
      var v := CandidateViolation(i, action.value);
      if v.Some? then DefaultApplication(i, Violated(v.value))
      else Application(true, Candidate, action, None)
  }

  /** Nothing is ever refused; an action enters as a candidate exactly when it succeeded, fits the task and breaks no rule. */
  lemma ApplicationIsTotal(i: Input, status: RunStatus, action: Option<Action>)
    ensures DeriveApplication(i, status, action).accepted
    ensures DeriveApplication(i, status, action).outcome == Candidate <==>
              status == Succeeded && action.Some? && Fits(i, action.value) && CandidateViolation(i, action.value).None?
    ensures DeriveApplication(i, status, action).outcome == Candidate ==> DeriveApplication(i, status, action).action == action
  {
  }

  // --------------------------------------------------------- what is applied

  /** What is applied when a result is no candidate: a pass where one must choose, otherwise a timeout of that kind. */
  lemma DefaultsByKind(i: Input, status: RunStatus, action: Option<Action>)
    requires DeriveApplication(i, status, action).outcome != Candidate
    ensures var d := DeriveApplication(i, status, action);
            && (i.Decide? || i.MarketIntent? ==> d.outcome == DefaultPass && d.action == Some(Pass))
            && (i.Negotiate? ==> d.outcome == NegotiationTimeout && d.action == None)
            && (i.MarketRfq? || i.MarketSelect? ==> d.outcome == MarketTimeout && d.action == None)
            && (status != Succeeded ==> d.reason == Some(Reason.Runtime(status)))
            && (status == Succeeded ==> d.reason != None && !d.reason.value.Runtime?)
  {
  }

  /** Which actions answer which kind of task. */
  lemma KindsOfActions(i: Input, a: Action)
    ensures Fits(i, a) <==>
              || ((i.Decide? || i.MarketIntent?) && (a.Buy? || a.Sell? || a.Pass?))
              || (i.Negotiate? && (a.Propose? || a.Accept? || a.Reject?))
              || (i.MarketRfq? && (a.RequestNegotiations? || a.Pass?))
              || (i.MarketSelect? && (a.EngageRequest? || a.RejectAllRequests?))
  {
  }

  /** A seller may engage a request it sees while it has the goods, and may always decline. */
  lemma SelectionsAreAllowedExactlyWhen(visible: set<string>, inventory: nat, quantity: nat, a: Action)
    requires a.EngageRequest? || a.RejectAllRequests?
    ensures SelectViolation(visible, inventory, quantity, a).None? <==>
              (a.EngageRequest? ==> a.requestId in visible && quantity <= inventory)
  {
  }

  /** Every violation reported of a negotiation move is one. */
  lemma NegotiationViolationsAreTrue(i: Input, a: Action)
    requires i.Negotiate? && (a.Propose? || a.Accept? || a.Reject?) && NegotiationViolation(i, a).Some?
    ensures match NegotiationViolation(i, a).value
            case OpeningRequired => i.turnSequence == 1 && !a.Propose?
            case ProposalRequired => a.Accept? && i.latestQuote.None?
            case FinalTurnMustClose => i.remainingTurns <= 1 && a.Propose?
            case PricePrecision => a.Propose? && !Precise(a.price)
            case LimitPrice =>
              && i.limitPrice.Some? && (a.Propose? || (a.Accept? && i.latestQuote.Some?))
              && var price := if a.Propose? then a.price else i.latestQuote.value;
                 if i.role == Buyer then !LessEq(price, i.limitPrice.value) else !LessEq(i.limitPrice.value, price)
            case _ => false
  {
    hide Precise, LessEq;
  }
}
