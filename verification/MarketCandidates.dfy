/** From validated candidates to market deals: what arena_core/candidate_validation.py checks is what
    the market oracle's records demand, and it keeps every deal affordable. */
module MarketCandidates {
  import opened Wrappers
  import Goods
  import Money
  import CV = CandidateValidation
  import PC = PriceChecks
  import A = A2aMarket
  import R = MarketRuns
  import T = MarketTheorems

  /** What a decide candidate may do, as a rule rather than as a list of refusals. */
  predicate DecideRule(p: CV.Portfolio, a: CV.Action)
    requires a.Buy? || a.Sell? || a.Pass?
  {
    match a
    case Pass => CV.PassName in p.allowedActions
    case Buy(o) =>
      && CV.BuyName in p.allowedActions && PrivateOrder(p, o)
      && (o.limitPrice.Some? ==> Money.LessEq(Money.Times(o.limitPrice.value, o.quantity), p.cash))
    case Sell(o) => CV.SellName in p.allowedActions && PrivateOrder(p, o) && Holds(p, o)
  }

  /** An empty list of goods allows them all. */
  predicate MayTrade(p: CV.Portfolio, o: CV.Order) {
    p.allowedGoods != {} ==> o.good in p.allowedGoods
  }

  /** The portfolio has what is offered. */
  predicate Holds(p: CV.Portfolio, o: CV.Order) {
    o.quantity > 0 ==> o.good in p.holdings && o.quantity <= p.holdings[o.good]
  }

  predicate PrivateOrder(p: CV.Portfolio, o: CV.Order) {
    o.publicPrice.None? && o.message.None? && (o.limitPrice.Some? ==> CV.Precise(o.limitPrice.value)) && MayTrade(p, o)
  }

  lemma DecideAcceptsExactlyTheRule(p: CV.Portfolio, a: CV.Action)
    requires a.Buy? || a.Sell? || a.Pass?
    ensures CV.DecideViolation(p, a).None? <==> DecideRule(p, a)
  {
    hide CV.Precise, Money.LessEq, Money.Times;
  }

  /** A public listing: the buyer's price and the money behind it, the seller's price and the goods. */
  predicate IntentRule(p: CV.Portfolio, a: CV.Action)
    requires a.Buy? || a.Sell? || a.Pass?
  {
    match a
    case Pass => CV.PassName in p.allowedActions
    case Buy(o) =>
      && CV.BuyName in p.allowedActions && PublicOrder(p, o)
      && Money.LessEq(o.publicPrice.value, o.limitPrice.value) && Money.LessEq(Money.Times(o.limitPrice.value, o.quantity), p.cash)
    case Sell(o) =>
      && CV.SellName in p.allowedActions && PublicOrder(p, o)
      && Money.LessEq(o.limitPrice.value, o.publicPrice.value) && Holds(p, o)
  }

  predicate PublicOrder(p: CV.Portfolio, o: CV.Order) {
    && o.publicPrice.Some? && o.limitPrice.Some? && CV.Precise(o.publicPrice.value) && CV.Precise(o.limitPrice.value)
    && MayTrade(p, o)
  }

  lemma IntentAcceptsExactlyTheRule(p: CV.Portfolio, a: CV.Action)
    requires a.Buy? || a.Sell? || a.Pass?
    ensures CV.IntentViolation(p, a).None? <==> IntentRule(p, a)
  {
    hide CV.Precise, Money.LessEq, Money.Times;
  }

  // ---------------------------------------------------------- atomic prices

  /** The price checks of an intent's constructor. */
  predicate PricesOk(side: Goods.Side, publicPrice: int, limitPrice: int) {
    && 0 < publicPrice && 0 < limitPrice
    && (side == Goods.Buy ==> publicPrice <= limitPrice)
    && (side == Goods.Sell ==> limitPrice <= publicPrice)
  }

  function SideOf(a: CV.Action): Goods.Side
    requires a.Buy? || a.Sell?
  {
    if a.Buy? then Goods.Buy else Goods.Sell
  }

  function GoodName(g: Goods.Good): string {
    match g
    case Grain => "grain"
    case Iron => "iron"
    case Warhorse => "warhorse"
    case Gems => "gems"
  }

  /** A validated order with the positive prices the wire admits. */
  ghost predicate Validated(p: CV.Portfolio, a: CV.Action) {
    && (a.Buy? || a.Sell?) && CV.IntentViolation(p, a).None?
    && (a.order.publicPrice.Some? ==> a.order.publicPrice.value.coefficient > 0)
    && (a.order.limitPrice.Some? ==> a.order.limitPrice.value.coefficient > 0)
  }

  /**
   * A validated order is converted to atomic prices exactly when both rounded amounts are within the
   * gold bound, and then it never fails the price checks of the market's intent.
   */
  lemma ValidatedIntentsAreBuiltExactlyWhen(p: CV.Portfolio, a: CV.Action)
    requires Validated(p, a)
    ensures a.order.publicPrice.Some? && a.order.limitPrice.Some?
    ensures var shown, limit := a.order.publicPrice.value, a.order.limitPrice.value;
            && (Money.Gold(shown).Ok? && Money.Gold(limit).Ok? <==>
                  PC.Units(shown) <= Money.MAX_GOLD_ATOMIC && PC.Units(limit) <= Money.MAX_GOLD_ATOMIC)
            && (Money.Gold(shown).Ok? && Money.Gold(limit).Ok? ==>
                  PricesOk(SideOf(a), Money.Gold(shown).value, Money.Gold(limit).value))
  {
    hide CV.Precise, Money.Gold, PC.Units, Money.LessEq, Money.Times, CV.IntentViolation;
    IntentAcceptsExactlyTheRule(p, a);
    var shown, limit := a.order.publicPrice.value, a.order.limitPrice.value;
    PC.ConvertsExactlyWhen(shown);
    PC.ConvertsExactlyWhen(limit);
    PC.PositiveStaysPositive(shown);
    PC.PositiveStaysPositive(limit);
    if a.Buy? { PC.ConversionKeepsOrder(shown, limit); } else { PC.ConversionKeepsOrder(limit, shown); }
  }

  /** The market intent was built from this validated order for one unit, through gold(). */
  ghost predicate BuiltFrom(i: A.Intent, p: CV.Portfolio, a: CV.Action) {
    && Validated(p, a) && i.side == SideOf(a) && a.order.good == GoodName(i.good) && a.order.quantity == 1
    && a.order.publicPrice.Some? && a.order.limitPrice.Some?
    && i.publicPrice >= 0 && i.limitPrice >= 0
    && Money.Gold(a.order.publicPrice.value) == Ok(i.publicPrice) && Money.Gold(a.order.limitPrice.value) == Ok(i.limitPrice)
  }

  /** What it lists can always be printed. */
  lemma BuiltPricesCanBeShown(i: A.Intent, p: CV.Portfolio, a: CV.Action)
    requires BuiltFrom(i, p, a)
    ensures PricesOk(i.side, i.publicPrice, i.limitPrice) && i.publicPrice <= Money.MAX_GOLD_ATOMIC
  {
    hide CV.Precise, Money.Gold, PC.Units, CV.IntentViolation;
    ValidatedIntentsAreBuiltExactlyWhen(p, a);
    PC.ConvertsExactlyWhen(a.order.publicPrice.value);
  }

  // ------------------------------------------------------------ affordability

  datatype Origin = Origin(portfolio: CV.Portfolio, action: CV.Action)

  /** The buyer had the money and the seller the goods when they published. */
  ghost predicate Affordable(s: A.Market, deal: A.Deal, origins: map<A.Id, Origin>) {
    exists buyer, seller ::
      && buyer in s.intents && seller in s.intents && buyer in origins && seller in origins
      && s.intents[buyer].participantId == deal.buyerParticipantId
      && s.intents[seller].participantId == deal.sellerParticipantId
      && deal.unitPrice >= 0 && PC.Covers(origins[buyer].portfolio.cash, deal.unitPrice)
      && GoodName(deal.good) in origins[seller].portfolio.holdings && 1 <= origins[seller].portfolio.holdings[GoodName(deal.good)]
  }

  lemma BuyersCanPay(i: A.Intent, p: CV.Portfolio, a: CV.Action, price: nat)
    requires BuiltFrom(i, p, a) && i.side == Goods.Buy && price <= i.limitPrice
    ensures PC.Covers(p.cash, price)
  {
    hide CV.Precise, Money.Gold, PC.Units, CV.IntentViolation, Money.LessEq, Money.Times, PC.Covers;
    IntentAcceptsExactlyTheRule(p, a);
    PC.ConvertsExactlyWhen(a.order.limitPrice.value);
    PC.CheckedCashCovers(a.order.limitPrice.value, p.cash);
    LessIsCovered(p.cash, price, i.limitPrice);
  }

  lemma LessIsCovered(cash: Money.Dec, price: nat, limit: nat)
    requires price <= limit && PC.Covers(cash, limit)
    ensures PC.Covers(cash, price)
  {
    hide Money.Pow10;
    assert price * Money.Pow10(cash.places) <= limit * Money.Pow10(cash.places);
  }

  lemma SellersCanDeliver(i: A.Intent, p: CV.Portfolio, a: CV.Action)
    requires BuiltFrom(i, p, a) && i.side == Goods.Sell
    ensures GoodName(i.good) in p.holdings && 1 <= p.holdings[GoodName(i.good)]
  {
    hide CV.Precise, Money.Gold, Money.LessEq, Money.Times, CV.IntentViolation;
    IntentAcceptsExactlyTheRule(p, a);
  }

  ghost predicate AllBuilt(intents: map<A.Id, A.Intent>, origins: map<A.Id, Origin>) {
    forall i | i in intents :: i in origins && BuiltFrom(intents[i], origins[i].portfolio, origins[i].action)
  }

  lemma FairIsAffordable(s: A.Market, deal: A.Deal, origins: map<A.Id, Origin>)
    requires T.FairDeal(s, deal) && AllBuilt(s.intents, origins)
    ensures Affordable(s, deal, origins)
  {
    hide BuiltFrom, PC.Covers;
    var buyer, seller :| && buyer in s.intents && seller in s.intents
      && s.intents[buyer].side == Goods.Buy && s.intents[seller].side == Goods.Sell
      && s.intents[seller].good == deal.good
      && deal.buyerParticipantId == s.intents[buyer].participantId && deal.sellerParticipantId == s.intents[seller].participantId
      && 0 < deal.unitPrice <= s.intents[buyer].limitPrice;
    BuyersCanPay(s.intents[buyer], origins[buyer].portfolio, origins[buyer].action, deal.unitPrice);
    SellersCanDeliver(s.intents[seller], origins[seller].portfolio, origins[seller].action);
  }

  /**
   * After any run of the market fed with intents from validated candidates, every Deal is one
   * its buyer can pay and its seller can deliver, from what each held when publishing.
   */
  lemma DealsAreAffordable(maxOutboundRfq: nat, run: seq<R.Call>, origins: map<A.Id, Origin>, d: A.DealId)
    requires d in R.Reached(maxOutboundRfq, run).deals && AllBuilt(R.Reached(maxOutboundRfq, run).intents, origins)
    ensures Affordable(R.Reached(maxOutboundRfq, run), R.Reached(maxOutboundRfq, run).deals[d], origins)
  {
    hide AllBuilt, Affordable, T.FairDeal, R.Reached;
    T.DealsAreFair(maxOutboundRfq, run, d);
    FairIsAffordable(R.Reached(maxOutboundRfq, run), R.Reached(maxOutboundRfq, run).deals[d], origins);
  }

  // --------------------------------------------------------------- directory

  /** The identifiers of an intent and of its session fit the wire. */
  ghost predicate WireNames(i: A.Intent) {
    A.WireIdentifier(i.intentId.text) && A.WireIdentifier(i.agentId.text) && A.SessionFits(i)
  }

  /**
   * After any run fed with converted candidates under wire identifiers, the directory answers every
   * unexpired buyer: no price that came through gold() can take it down.
   */
  lemma FedDirectoriesAnswer(maxOutboundRfq: nat, run: seq<R.Call>, origins: map<A.Id, Origin>, requester: A.Id, t: int)
    requires requester in R.Reached(maxOutboundRfq, run).intents && AllBuilt(R.Reached(maxOutboundRfq, run).intents, origins)
    requires forall i | i in R.Reached(maxOutboundRfq, run).intents :: WireNames(R.Reached(maxOutboundRfq, run).intents[i])
    requires var i := R.Reached(maxOutboundRfq, run).intents[requester]; i.side == Goods.Buy && t < i.expiresAt
    ensures A.DirectoryError(R.Reached(maxOutboundRfq, run), requester, t).None?
  {
    hide R.Reached, AllBuilt, WireNames, A.DirectoryError;
    BuiltIntentsArePublishable(R.Reached(maxOutboundRfq, run), origins, requester, t);
  }

  lemma BuiltIntentsArePublishable(s: A.Market, origins: map<A.Id, Origin>, requester: A.Id, t: int)
    requires requester in s.intents && AllBuilt(s.intents, origins) && forall i | i in s.intents :: WireNames(s.intents[i])
    requires s.intents[requester].side == Goods.Buy && t < s.intents[requester].expiresAt
    ensures A.DirectoryError(s, requester, t).None?
  {
    hide BuiltFrom, A.WireIdentifier, A.Listed, A.SessionFits;
    forall i | i in s.intents && A.Listed(s, s.intents[requester], s.intents[i], t) ensures A.Showable(s.intents[i]) {
      BuiltPricesCanBeShown(s.intents[i], origins[i].portfolio, origins[i].action);
    }
  }
}
