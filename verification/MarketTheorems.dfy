/** What every run of the market guarantees. */
module MarketTheorems {
  import opened Wrappers
  import opened Goods
  import Money
  import opened A2aMarket
  import opened MarketInvariant
  import opened MarketRuns
  import opened MarketReplay

  // ---------------------------------------------------------- round slots

  /** A (game, round, participant) slot is reserved by e exactly when e is an active or
      accepted engagement naming that participant in that round. */
  lemma SlotReservedExactlyByLiveEngagement(maxOutboundRfq: nat, run: seq<Call>, k: Slot, e: EngagementId)
    ensures var s := Reached(maxOutboundRfq, run);
            (k in s.reserved && s.reserved[k] == e)
            <==> (e in s.engagements && Live(s.engagements[e]) && Names(s.intents, s.engagements[e], k))
  {
    hide After, Indexed, AsksOk, ClaimsOk, EngagementsOk, StatusesOk, SelectionIndexOk, DealsOk, Names;
  }

  /** The participant of slot k is party to the deal in that game round. */
  ghost predicate PartyIn(s: Market, d: DealId, k: Slot)
    requires d in s.deals
  {
    s.deals[d].engagementId in s.engagements && Names(s.intents, s.engagements[s.deals[d].engagementId], k)
  }

  lemma DealHoldsSlot(s: Market, d: DealId, k: Slot)
    requires TalksOk(s) && d in s.deals && PartyIn(s, d, k)
    ensures k in s.reserved && s.reserved[k] == s.deals[d].engagementId && d == DealId(s.deals[d].engagementId)
  {
    hide EngagementsOk, StatusesOk, SelectionIndexOk, Names;
  }

  /** Over any run a participant is party to at most one Deal per game round. */
  lemma OneDealPerParticipantPerRound(maxOutboundRfq: nat, run: seq<Call>, d1: DealId, d2: DealId, k: Slot)
    requires d1 in Reached(maxOutboundRfq, run).deals && d2 in Reached(maxOutboundRfq, run).deals
    requires PartyIn(Reached(maxOutboundRfq, run), d1, k) && PartyIn(Reached(maxOutboundRfq, run), d2, k)
    ensures d1 == d2
  {
    hide After, Indexed, AsksOk, TalksOk, ClaimsOk, PartyIn;
    var s := Reached(maxOutboundRfq, run);
    DealHoldsSlot(s, d1, k);
    DealHoldsSlot(s, d2, k);
  }

  // ---------------------------------------------------------------- deals

  /** The terms a Deal may have: a buy and a sell intent of one game, round and good, by
      different participants, at a price both private limits allow, accepted by one of the two
      from a Result other than the proposal; an accepted opening keeps its own price. */
  ghost predicate FairDeal(s: Market, deal: Deal) {
    exists buyer, seller ::
      && buyer in s.intents && seller in s.intents
      && s.intents[buyer].side == Buy && s.intents[seller].side == Sell
      && s.intents[buyer].gameId == s.intents[seller].gameId
      && s.intents[buyer].roundId == s.intents[seller].roundId
      && s.intents[buyer].good == s.intents[seller].good == deal.good
      && deal.buyerParticipantId == s.intents[buyer].participantId
      && deal.sellerParticipantId == s.intents[seller].participantId
      && deal.buyerParticipantId != deal.sellerParticipantId
      && 0 < deal.unitPrice && deal.quantity == 1
      && s.intents[seller].limitPrice <= deal.unitPrice <= s.intents[buyer].limitPrice
      && deal.acceptedByParticipantId in {deal.buyerParticipantId, deal.sellerParticipantId}
      && deal.latestProposalResultId != deal.acceptanceResultId
  }

  lemma DealsAreFair(maxOutboundRfq: nat, run: seq<Call>, d: DealId)
    requires d in Reached(maxOutboundRfq, run).deals
    ensures FairDeal(Reached(maxOutboundRfq, run), Reached(maxOutboundRfq, run).deals[d])
  {
    var s := Reached(maxOutboundRfq, run);
    hide After, Indexed, ClaimsOk, IntentsOk, RequestIndexOk, TargetsOk, OneOpenRequest, DistinctSellers,
         StatusesOk, SelectionIndexOk, SlotsOk;
    var g := s.engagements[s.deals[d].engagementId];
    assert EngagementOk(s.intents, s.requests, s.deals[d].engagementId, g);
    assert RequestOk(s.intents, g.requestId, s.requests[g.requestId].request);
    assert DealOk(s.intents, g, s.requests[g.requestId].request, d, s.deals[d]);
  }

  /** The Results that author a deal. */
  ghost function Sources(deal: Deal): set<Id> {
    {deal.latestProposalResultId, deal.acceptanceResultId}
  }

  lemma ProposalOwner(s: Market, d: DealId)
    requires Inv(s) && d in s.deals
    ensures s.deals[d].acceptanceResultId in s.claims
    ensures s.claims[s.deals[d].acceptanceResultId] == AcceptanceClaim(s.deals[d].engagementId)
    ensures d == DealId(s.deals[d].engagementId) && s.deals[d].engagementId == EngagementId(s.deals[d].requestId)
    ensures var p := s.deals[d].latestProposalResultId;
            && p in s.claims
            && (s.claims[p] == ProposalClaim(s.deals[d].engagementId)
                || (s.claims[p] == RfqClaim(p) && p in s.requestIdsByResult
                    && s.requestIdsByResult[p] == [s.deals[d].requestId]))
  {
    hide Indexed, IntentsOk, RequestsOk, TargetsOk, OneOpenRequest, DistinctSellers,
         StatusesOk, SelectionIndexOk, SlotsOk, IntentClaimsOk, EngagementClaimsOk;
    var g := s.engagements[s.deals[d].engagementId];
    assert EngagementOk(s.intents, s.requests, s.deals[d].engagementId, g);
  }

  /** Two distinct Deals never share a source Result, even when a proposal is the opening of
      its own RFQ. */
  lemma DealsNeverShareAResult(maxOutboundRfq: nat, run: seq<Call>, d1: DealId, d2: DealId)
    requires d1 in Reached(maxOutboundRfq, run).deals && d2 in Reached(maxOutboundRfq, run).deals && d1 != d2
    ensures Sources(Reached(maxOutboundRfq, run).deals[d1]) !! Sources(Reached(maxOutboundRfq, run).deals[d2])
  {
    hide After, Inv;
    var s := Reached(maxOutboundRfq, run);
    ProposalOwner(s, d1);
    ProposalOwner(s, d2);
  }

  /** The deal was frozen by a call whose proposer and accepter are its two parties. */
  ghost predicate FrozenBy(deal: Deal, c: Call) {
    && c.FreezeDeal?
    && c.terms.engagementId == deal.engagementId
    && c.terms.proposalResultId == deal.latestProposalResultId
    && c.terms.acceptanceResultId == deal.acceptanceResultId
    && c.terms.accepterId == deal.acceptedByParticipantId
    && c.terms.unitPrice == deal.unitPrice
    && {c.terms.proposerId, c.terms.accepterId} == {deal.buyerParticipantId, deal.sellerParticipantId}
  }

  lemma PublishKeepsDeals(s: Market, i: Intent)
    requires Indexed(s)
    ensures Publish(s, i).state.deals == s.deals
  {
    hide Indexed, Compatible, SlotOf;
  }

  lemma SubmitKeepsDeals(s: Market, b: seq<Request>)
    requires Indexed(s)
    ensures Submit(s, b).state.deals == s.deals
  {
    hide Indexed, Compatible, SubmitError;
  }

  lemma EngageKeepsDeals(s: Market, actor: Id, q: Id, r: Id)
    requires Indexed(s)
    ensures Engage(s, actor, q, r).state.deals == s.deals
  {
    hide Indexed, Compatible, NewEngagement, SlotOf;
  }

  lemma CloseKeepsDeals(s: Market, e: EngagementId, k: Closing, source: Option<Id>)
    requires Indexed(s)
    ensures Close(s, e, k, source).state.deals == s.deals
  {
    hide Indexed, Compatible, CloseError, Shut;
    if e in s.engagements {
      ShutLeavesDeals(s, e, k, source);
    }
  }

  lemma ShutLeavesDeals(s: Market, e: EngagementId, k: Closing, source: Option<Id>)
    requires Indexed(s) && e in s.engagements
    ensures Shut(s, e, k, source).deals == s.deals
  {
    hide Indexed, Released, SlotOf;
  }

  lemma FreezingMakesItsDeal(s: Market, a: Acceptance, d: DealId)
    requires Indexed(s) && d in Freeze(s, a).state.deals
    ensures (d in s.deals && s.deals[d] == Freeze(s, a).state.deals[d]) || FrozenBy(Freeze(s, a).state.deals[d], FreezeDeal(a))
  {
    hide Indexed, Claimed, DealClaims, Claimable;
  }

  lemma NewDealsComeFromFreezing(s: Market, c: Call, d: DealId)
    requires Inv(s) && d in Step(s, c).deals
    ensures (d in s.deals && s.deals[d] == Step(s, c).deals[d]) || FrozenBy(Step(s, c).deals[d], c)
  {
    hide AsksOk, TalksOk, ClaimsOk, Indexed, Publish, Submit, Engage, Close, Freeze, FrozenBy;
    match c
    case PublishIntent(i) => PublishKeepsDeals(s, i);
    case SubmitRequests(b) => SubmitKeepsDeals(s, b);
    case EngageRequest(a, q, r) => EngageKeepsDeals(s, a, q, r);
    case CloseEngagement(e, k, r) => CloseKeepsDeals(s, e, k, r);
    case FreezeDeal(t) => FreezingMakesItsDeal(s, t, d);
  }

  /** Every Deal of a run was frozen by one of its calls, from opposite sides. */
  lemma {:induction false} EveryDealHasOppositeAuthors(maxOutboundRfq: nat, run: seq<Call>, d: DealId)
    requires d in Reached(maxOutboundRfq, run).deals
    ensures exists k :: 0 <= k < |run| && FrozenBy(Reached(maxOutboundRfq, run).deals[d], run[k])
  {
    hide Inv, Step, FrozenBy;
    if run != [] {
      var last := |run| - 1;
      var before := Reached(maxOutboundRfq, run[..last]);
      NewDealsComeFromFreezing(before, run[last], d);
      if !FrozenBy(Reached(maxOutboundRfq, run).deals[d], run[last]) {
        EveryDealHasOppositeAuthors(maxOutboundRfq, run[..last], d);
      }
    }
  }

  // ------------------------------------------------------------- requests

  /** The requests of one buyer intent. */
  ghost function RequestsOf(s: Market, buyer: Id): set<Id> {
    set q | q in s.requests && s.requests[q].request.buyerIntentId == buyer
  }

  lemma {:induction false} InjectiveImageSize(s: Market, qs: set<Id>, sellers: set<Id>)
    requires qs <= s.requests.Keys && DistinctSellers(s.requests)
    requires forall p, q :: p in qs && q in qs ==> s.requests[p].request.buyerIntentId == s.requests[q].request.buyerIntentId
    requires forall q :: q in qs ==> s.requests[q].request.sellerIntentId in sellers
    ensures |qs| <= |sellers|
    decreases |qs|
  {
    if qs != {} {
      var q :| q in qs;
      var x := s.requests[q].request.sellerIntentId;
      InjectiveImageSize(s, qs - {q}, sellers - {x});
    }
  }

  /** A buyer intent sends at most max_outbound_rfq requests in all, each to another seller, of
      which at most one is pending or engaged. */
  lemma RfqBudget(maxOutboundRfq: nat, run: seq<Call>, buyer: Id)
    ensures var s := Reached(maxOutboundRfq, run);
            && |RequestsOf(s, buyer)| <= maxOutboundRfq
            && (forall p, q :: p in RequestsOf(s, buyer) && q in RequestsOf(s, buyer) && p != q ==>
                  && s.requests[p].request.sellerIntentId != s.requests[q].request.sellerIntentId
                  && !(Open(s.requests[p]) && Open(s.requests[q])))
  {
    EmptyInv(maxOutboundRfq);
    RunsLoseNothing(Empty(maxOutboundRfq), run);
    hide After, Indexed, Kept, RequestsKept, EngagementsKept, TalksOk, ClaimsOk, IntentsOk, RequestsOk, RequestIndexOk;
    var s := Reached(maxOutboundRfq, run);
    assert Targets(s.targetsByBuyer, buyer) == SellersAsked(s.requests, buyer);
    InjectiveImageSize(s, RequestsOf(s, buyer), Targets(s.targetsByBuyer, buyer));
  }

  /** A request is engaged exactly while it has a live engagement. */
  lemma EngagedExactlyWhileLive(maxOutboundRfq: nat, run: seq<Call>, q: Id)
    requires q in Reached(maxOutboundRfq, run).requests
    ensures var s := Reached(maxOutboundRfq, run);
            s.requests[q].status == Engaged
            <==> exists e :: e in s.engagements && s.engagements[e].requestId == q && Live(s.engagements[e])
  {
    hide After, Indexed, AsksOk, ClaimsOk, SelectionIndexOk, SlotsOk, DealsOk;
    var s := Reached(maxOutboundRfq, run);
    forall e | e in s.engagements
      ensures e == EngagementId(s.engagements[e].requestId)
    {
      assert EngagementOk(s.intents, s.requests, e, s.engagements[e]);
    }
    if s.requests[q].status == Engaged { assert EngagementId(q) in s.engagements; }
  }

  lemma OwnerOfSlot(s: Market, i: Id, j: Id)
    requires IntentsOk(s.intents, s.intentBySlot, s.intentByResult)
    requires i in s.intents && j in s.intents && SlotOf(s.intents[i]) == SlotOf(s.intents[j])
    ensures i == j
  {
  }

  /** While a request is pending its buyer's round slot is free. */
  lemma PendingBuyerSlotIsFree(s: Market, q: Id)
    requires Inv(s) && q in s.requests && s.requests[q].status == Pending
    ensures SlotOf(s.intents[s.requests[q].request.buyerIntentId]) !in s.reserved
  {
    hide Indexed, TargetsOk, RequestIndexOk, SelectionIndexOk, DealsOk, ClaimsOk, IntentsOk, DistinctSellers;
    var request := s.requests[q].request;
    assert RequestOk(s.intents, q, request);
    var k := SlotOf(s.intents[request.buyerIntentId]);
    if k in s.reserved {
      var e := s.reserved[k];
      var g := s.engagements[e];
      assert Live(g) && Names(s.intents, g, k);
      assert EngagementOk(s.intents, s.requests, e, g);
      assert RequestOk(s.intents, g.requestId, s.requests[g.requestId].request);
      if k == SlotOf(s.intents[g.buyerIntentId]) {
        OwnerOfSlot(s, request.buyerIntentId, g.buyerIntentId);
        assert false;
      } else {
        OwnerOfSlot(s, request.buyerIntentId, g.sellerIntentId);
      }
    }
  }

  /** Only the seller's side can make an engagement fail as counterparty_busy. */
  lemma OnlyTheSellerCanBeBusy(maxOutboundRfq: nat, run: seq<Call>, actor: Id, q: Id, selection: Id)
    requires Engage(Reached(maxOutboundRfq, run), actor, q, selection).result == Err(Busy)
    ensures var s := Reached(maxOutboundRfq, run);
            && q in s.requests && s.requests[q].status == Pending
            && SlotOf(s.intents[s.requests[q].request.buyerIntentId]) !in s.reserved
            && SlotOf(s.intents[s.requests[q].request.sellerIntentId]) in s.reserved
  {
    hide After, AsksOk, TalksOk, ClaimsOk, Indexed, SlotOf;
    PendingBuyerSlotIsFree(Reached(maxOutboundRfq, run), q);
  }

  // ------------------------------------------------- directory and requests

  /** A buyer who may ask at all, with ids no earlier record used. */
  ghost predicate FreeToAsk(s: Market, request: Request)
    requires request.buyerIntentId in s.intents
  {
    var buyer := s.intents[request.buyerIntentId];
    && buyer.side == Buy
    && request.createdAt < buyer.expiresAt
    && SlotOf(buyer) !in s.reserved
    && !HasOpenRequest(s.requests, request.buyerIntentId)
    && |RequestsOf(s, request.buyerIntentId)| < s.maxOutboundRfq
    && request.openingPrice <= buyer.limitPrice
    && request.requestId !in s.requests
    && request.sourceResultId !in s.requestIdsByResult && request.sourceResultId !in s.claims
  }

  lemma {:induction false} SellersNoMoreThanRequests(s: Market, qs: set<Id>, sellers: set<Id>)
    requires qs <= s.requests.Keys
    requires forall x :: x in sellers ==> exists q :: q in qs && s.requests[q].request.sellerIntentId == x
    ensures |sellers| <= |qs|
    decreases |sellers|
  {
    if sellers != {} {
      var x :| x in sellers;
      var q :| q in qs && s.requests[q].request.sellerIntentId == x;
      forall y | y in sellers - {x}
        ensures exists p :: p in qs - {q} && s.requests[p].request.sellerIntentId == y
      {
        var p :| p in qs && s.requests[p].request.sellerIntentId == y;
        assert p in qs - {q};
      }
      SellersNoMoreThanRequests(s, qs - {q}, sellers - {x});
    }
  }

  /**
   * For a buyer free to ask: the directory at time t answers exactly when everything it lists can be
   * shown, and an untried seller intent accepts a request at time t exactly when it is listed.
   */
  lemma DirectoryListsExactlyTheAskable(maxOutboundRfq: nat, run: seq<Call>, request: Request)
    requires request.buyerIntentId in Reached(maxOutboundRfq, run).intents
    requires request.sellerIntentId in Reached(maxOutboundRfq, run).intents
    requires FreeToAsk(Reached(maxOutboundRfq, run), request)
    requires forall q :: q in RequestsOf(Reached(maxOutboundRfq, run), request.buyerIntentId) ==>
               Reached(maxOutboundRfq, run).requests[q].request.sellerIntentId != request.sellerIntentId
    ensures var s := Reached(maxOutboundRfq, run); var buyer := s.intents[request.buyerIntentId];
            && (DirectoryError(s, request.buyerIntentId, request.createdAt).None?
                <==> Publishable(s, buyer, request.createdAt))
            && (Submit(s, [request]).result.Ok?
                <==> Listed(s, buyer, s.intents[request.sellerIntentId], request.createdAt))
  {
    hide After;
    DirectoryListsAskable(Reached(maxOutboundRfq, run), request);
  }

  /** A price can be shown exactly when it is within the gold bound, and then the wire reads it back exactly. */
  lemma PriceShowsExactlyWithinBound(price: nat)
    ensures Money.FormatGold(price).Ok? <==> price <= Money.MAX_GOLD_ATOMIC
    ensures price <= Money.MAX_GOLD_ATOMIC ==>
              && Money.ParseFixedDecimal(Money.FormatGold(price).value).Ok?
              && Money.Means(Money.ParseFixedDecimal(Money.FormatGold(price).value).value, price)
  {
    hide Money.ParseFixedDecimal, Money.Means, Money.WithoutTrailingZeros, Money.Str, Money.GoldDecimal;
    if price <= Money.MAX_GOLD_ATOMIC {
      Money.FormatGoldParses(price);
    }
  }

  /** A seller whose listed price no longer prints, over a floor anybody can meet. */
  const OVERPRICED: Intent := Intent(
    Id("s"), Id("rs"), Id("g"), Id("r"), Id("ps"), Id("as"), "S", Sell, Grain, Money.MAX_GOLD_ATOMIC + 1, 4, 10, None, 0)

  const BUYER: Intent := Intent(
    Id("b"), Id("rb"), Id("g"), Id("r"), Id("pb"), Id("ab"), "B", Buy, Grain, 5, 5, 10, None, 0)

  const QUESTION: Request := Request(Id("q"), Id("rq"), Id("b"), Id("s"), 5, "hello", 0)

  ghost predicate Untouched(s: Market) {
    s.maxOutboundRfq == 3 && s.reserved == map[] && s.requests == map[] && s.requestIdsByResult == map[] && s.targetsByBuyer == map[]
  }

  /** Publishing a fresh intent adds it and its claim, nothing else. */
  lemma FreshIntentIsAdded(s: Market, i: Intent)
    requires Indexed(s) && Untouched(s) && i.intentId !in s.intents && SlotOf(i) !in s.intentBySlot
    requires i.sourceResultId !in s.intentByResult && i.sourceResultId !in s.claims
    ensures var t := Publish(s, i).state;
            && Untouched(t) && t.intents == s.intents[i.intentId := i] && t.intentBySlot == s.intentBySlot[SlotOf(i) := i.intentId]
            && t.intentByResult == s.intentByResult[i.sourceResultId := i.intentId]
            && t.claims == s.claims[i.sourceResultId := IntentClaim(i.intentId)]
  {
    hide Indexed;
  }

  lemma BothPublished()
    ensures var s := Reached(3, [PublishIntent(OVERPRICED), PublishIntent(BUYER)]);
            && Untouched(s) && s.intents == map[Id("s") := OVERPRICED, Id("b") := BUYER]
            && QUESTION.sourceResultId !in s.claims
  {
    hide AsksOk, TalksOk, ClaimsOk, Indexed, Publish;
    EmptyInv(3);
    var e := Empty(3);
    var run := [PublishIntent(OVERPRICED), PublishIntent(BUYER)];
    assert run[..1] == [PublishIntent(OVERPRICED)] && run[..1][..0] == [];
    assert After(e, []) == e;
    PublishKeepsInv(e, OVERPRICED);
    FreshIntentIsAdded(e, OVERPRICED);
    var t := Publish(e, OVERPRICED).state;
    assert After(e, run[..1]) == t;
    FreshIntentIsAdded(t, BUYER);
  }

  lemma OverpricedIsListedNotShown(s: Market)
    requires Indexed(s) && Untouched(s) && s.intents == map[Id("s") := OVERPRICED, Id("b") := BUYER]
    requires QUESTION.sourceResultId !in s.claims
    ensures DirectoryError(s, Id("b"), 0) == Some(NotPublishable) && Submit(s, [QUESTION]).result.Ok?
  {
    hide Indexed, WireIdentifier;
    assert Listed(s, BUYER, s.intents[Id("s")], 0) && !Showable(s.intents[Id("s")]);
    assert !Publishable(s, BUYER, 0);
  }

  /** One such seller takes the directory from every buyer it overlaps, who could still ask it. */
  lemma DirectoryCanFail()
    ensures var s := Reached(3, [PublishIntent(OVERPRICED), PublishIntent(BUYER)]);
            && DirectoryError(s, Id("b"), 0) == Some(NotPublishable)
            && Submit(s, [QUESTION]).result.Ok?
  {
    hide AsksOk, TalksOk, ClaimsOk, Indexed, Publish, Submit, DirectoryError, After, Untouched;
    BothPublished();
    OverpricedIsListedNotShown(Reached(3, [PublishIntent(OVERPRICED), PublishIntent(BUYER)]));
  }

  /** The budget check counts the sellers asked, which are no more than the requests made. */
  lemma AskedWithinRequests(s: Market, b: Id)
    requires Inv(s)
    ensures Targets(s.targetsByBuyer, b) == SellersAsked(s.requests, b) && |Targets(s.targetsByBuyer, b)| <= |RequestsOf(s, b)|
  {
    hide Indexed, TalksOk, ClaimsOk, IntentsOk, RequestsOk, RequestIndexOk, OneOpenRequest, DistinctSellers;
    assert Targets(s.targetsByBuyer, b) == SellersAsked(s.requests, b);
    forall x | x in SellersAsked(s.requests, b)
      ensures exists q :: q in RequestsOf(s, b) && s.requests[q].request.sellerIntentId == x
    {
      var q :| q in s.requests && s.requests[q].request.buyerIntentId == b && s.requests[q].request.sellerIntentId == x;
      assert q in RequestsOf(s, b);
    }
    SellersNoMoreThanRequests(s, RequestsOf(s, b), SellersAsked(s.requests, b));
  }

  lemma DirectoryListsAskable(s: Market, request: Request)
    requires Inv(s) && request.buyerIntentId in s.intents && request.sellerIntentId in s.intents
    requires FreeToAsk(s, request)
    requires forall q :: q in RequestsOf(s, request.buyerIntentId) ==>
               s.requests[q].request.sellerIntentId != request.sellerIntentId
    ensures DirectoryError(s, request.buyerIntentId, request.createdAt).None?
            <==> Publishable(s, s.intents[request.buyerIntentId], request.createdAt)
    ensures Submit(s, [request]).result.Ok?
            <==> Listed(s, s.intents[request.buyerIntentId], s.intents[request.sellerIntentId], request.createdAt)
  {
    hide Indexed, AsksOk, TalksOk, ClaimsOk, HasOpenRequest, Targets, Publishable;
    AskedWithinRequests(s, request.buyerIntentId);
    IntentNamesItself(s, request.buyerIntentId);
    IntentNamesItself(s, request.sellerIntentId);
    assert request.sellerIntentId !in SellersAsked(s.requests, request.buyerIntentId);
  }
}
