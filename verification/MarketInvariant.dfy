/** The invariant that links the market's dictionaries, and its preservation by
    every operation. No operation checks these facts directly. Each part of the
    invariant speaks only of the dictionaries it depends on, so an operation has
    to be argued about only for the parts whose dictionaries it changes. */
module MarketInvariant {
  import opened Wrappers
  import opened A2aMarket

  type Intents = map<Id, Intent>
  type Requests = map<Id, Tracked>
  type Engagements = map<EngagementId, Engagement>

  // ------------------------------------------------------------- the parts

  /** Intents and their two unique indexes. */
  ghost predicate IntentsOk(intents: Intents, bySlot: map<Slot, Id>, byResult: map<Id, Id>) {
    && (forall i :: i in intents ==>
          && intents[i].intentId == i
          && SlotOf(intents[i]) in bySlot && bySlot[SlotOf(intents[i])] == i
          && intents[i].sourceResultId in byResult && byResult[intents[i].sourceResultId] == i)
    && (forall r :: r in byResult ==> byResult[r] in intents && intents[byResult[r]].sourceResultId == r)
    && (forall k :: k in bySlot ==> bySlot[k] in intents && SlotOf(intents[bySlot[k]]) == k)
  }

  /** A stored request joins two compatible intents at an affordable opening. */
  ghost predicate RequestOk(intents: Intents, q: Id, request: Request) {
    && request.requestId == q
    && request.buyerIntentId in intents && request.sellerIntentId in intents
    && CounterpartyError(intents[request.buyerIntentId], intents[request.sellerIntentId]).None?
    && request.openingPrice <= intents[request.buyerIntentId].limitPrice
  }

  ghost predicate RequestsOk(intents: Intents, requests: Requests) {
    forall q :: q in requests ==> RequestOk(intents, q, requests[q].request)
  }

  /** The index of requests by the Result that authored them. */
  ghost predicate RequestIndexOk(requests: Requests, byResult: map<Id, seq<Id>>) {
    && (forall q :: q in requests ==>
          requests[q].request.sourceResultId in byResult && byResult[requests[q].request.sourceResultId] == [q])
    && (forall r :: r in byResult ==>
          |byResult[r]| == 1 && byResult[r][0] in requests && requests[byResult[r][0]].request.sourceResultId == r)
  }

  /** The sellers a buyer intent has asked so far. */
  ghost function SellersAsked(requests: Requests, buyer: Id): set<Id> {
    set q | q in requests && requests[q].request.buyerIntentId == buyer :: requests[q].request.sellerIntentId
  }

  ghost predicate TargetsOk(requests: Requests, targets: map<Id, set<Id>>, maxOutbound: nat) {
    forall b: Id :: Targets(targets, b) == SellersAsked(requests, b) && |Targets(targets, b)| <= maxOutbound
  }

  /** One open request per buyer intent. */
  ghost predicate OneOpenRequest(requests: Requests) {
    forall p, q | p in requests && q in requests && Open(requests[p]) && Open(requests[q])
                  && requests[p].request.buyerIntentId == requests[q].request.buyerIntentId :: p == q
  }

  /** A buyer intent never asks the same seller twice. */
  ghost predicate DistinctSellers(requests: Requests) {
    forall p, q | p in requests && q in requests
                  && requests[p].request.buyerIntentId == requests[q].request.buyerIntentId
                  && requests[p].request.sellerIntentId == requests[q].request.sellerIntentId :: p == q
  }

  /** An engagement copies its request and the participants of its intents. */
  ghost predicate EngagementOk(intents: Intents, requests: Requests, e: EngagementId, g: Engagement) {
    && g.engagementId == e && e == EngagementId(g.requestId)
    && g.requestId in requests
    && g.buyerIntentId == requests[g.requestId].request.buyerIntentId
    && g.sellerIntentId == requests[g.requestId].request.sellerIntentId
    && g.buyerIntentId in intents && g.sellerIntentId in intents
    && g.buyerParticipantId == intents[g.buyerIntentId].participantId
    && g.sellerParticipantId == intents[g.sellerIntentId].participantId
    && g.good == intents[g.buyerIntentId].good
  }

  ghost predicate EngagementsOk(intents: Intents, requests: Requests, engagements: Engagements) {
    forall e :: e in engagements ==> EngagementOk(intents, requests, e, engagements[e])
  }

  /** A request is engaged exactly while its engagement is live, declined once it is closed. */
  ghost predicate StatusesOk(requests: Requests, engagements: Engagements) {
    && (forall q :: q in requests ==>
          && (requests[q].status == Engaged <==> EngagementId(q) in engagements && Live(engagements[EngagementId(q)]))
          && (requests[q].status == Declined <==> EngagementId(q) in engagements && !Live(engagements[EngagementId(q)])))
    && (forall e :: e in engagements ==> e.requestId in requests)
    && (forall e :: e in engagements ==>
          && (engagements[e].status == Active || engagements[e].status == TimedOut ==>
                engagements[e].terminalSourceResultId == None)
          && (engagements[e].status == Rejected ==> engagements[e].terminalSourceResultId.Some?))
  }

  ghost predicate SelectionIndexOk(engagements: Engagements, bySelection: map<Id, EngagementId>) {
    && (forall e :: e in engagements ==>
          engagements[e].selectionResultId in bySelection && bySelection[engagements[e].selectionResultId] == e)
    && (forall r :: r in bySelection ==>
          bySelection[r] in engagements && engagements[bySelection[r]].selectionResultId == r)
  }

  /** The engagement names the participant of this slot as buyer or seller in that round. */
  ghost predicate Names(intents: Intents, g: Engagement, k: Slot) {
    && g.buyerIntentId in intents && g.sellerIntentId in intents
    && (k == SlotOf(intents[g.buyerIntentId]) || k == SlotOf(intents[g.sellerIntentId]))
  }

  /** A slot is reserved by e exactly when e is live and names that slot. */
  ghost predicate SlotsOk(intents: Intents, engagements: Engagements, reserved: map<Slot, EngagementId>) {
    forall k: Slot, e: EngagementId ::
      (k in reserved && reserved[k] == e)
      <==> (e in engagements && Live(engagements[e]) && Names(intents, engagements[e], k))
  }

  ghost predicate DealOk(intents: Intents, g: Engagement, request: Request, d: DealId, deal: Deal) {
    && deal.dealId == d && d == DealId(deal.engagementId)
    && g.status == AcceptedPendingSettlement
    && g.terminalSourceResultId == Some(deal.acceptanceResultId)
    && deal.requestId == g.requestId
    && deal.buyerParticipantId == g.buyerParticipantId
    && deal.sellerParticipantId == g.sellerParticipantId
    && deal.good == g.good && deal.quantity == 1
    && g.buyerIntentId in intents && g.sellerIntentId in intents
    && 0 < deal.unitPrice
    && intents[g.sellerIntentId].limitPrice <= deal.unitPrice <= intents[g.buyerIntentId].limitPrice
    && deal.latestProposalResultId != deal.acceptanceResultId
    && (deal.acceptedByParticipantId == deal.buyerParticipantId
        || deal.acceptedByParticipantId == deal.sellerParticipantId)
    && (deal.latestProposalResultId == request.sourceResultId ==>
          deal.unitPrice == request.openingPrice && deal.acceptedByParticipantId == deal.sellerParticipantId)
  }

  ghost predicate DealsOk(intents: Intents, requests: Requests, engagements: Engagements, deals: map<DealId, Deal>) {
    && (forall d :: d in deals ==>
          && deals[d].engagementId in engagements
          && engagements[deals[d].engagementId].requestId in requests
          && DealOk(intents, engagements[deals[d].engagementId],
                    requests[engagements[deals[d].engagementId].requestId].request, d, deals[d]))
    && (forall e :: e in engagements && engagements[e].status == AcceptedPendingSettlement ==> DealId(e) in deals)
  }

  ghost predicate ClaimedAs(claims: map<Id, Claim>, resultId: Id, claim: Claim) {
    resultId in claims && claims[resultId] == claim
  }

  /** Every recorded action owns the claim on the Result that authored it. */
  ghost predicate IntentClaimsOk(claims: map<Id, Claim>, intents: Intents) {
    forall i :: i in intents ==> ClaimedAs(claims, intents[i].sourceResultId, IntentClaim(i))
  }

  ghost predicate RequestClaimsOk(claims: map<Id, Claim>, requests: Requests) {
    forall q :: q in requests ==>
      ClaimedAs(claims, requests[q].request.sourceResultId, RfqClaim(requests[q].request.sourceResultId))
  }

  ghost predicate EngagementClaimsOk(claims: map<Id, Claim>, engagements: Engagements) {
    forall e :: e in engagements ==>
      && ClaimedAs(claims, engagements[e].selectionResultId, EngageClaim(e))
      && (engagements[e].status == Rejected && engagements[e].terminalSourceResultId.Some? ==>
            ClaimedAs(claims, engagements[e].terminalSourceResultId.value, RejectClaim(e)))
  }

  ghost predicate DealClaimsOk(claims: map<Id, Claim>, requests: Requests, deals: map<DealId, Deal>) {
    forall d :: d in deals ==>
      && ClaimedAs(claims, deals[d].acceptanceResultId, AcceptanceClaim(deals[d].engagementId))
      && deals[d].requestId in requests
      && (ClaimedAs(claims, deals[d].latestProposalResultId, ProposalClaim(deals[d].engagementId))
          || deals[d].latestProposalResultId == requests[deals[d].requestId].request.sourceResultId)
  }

  ghost predicate ClaimsOk(s: Market) {
    && IntentClaimsOk(s.claims, s.intents) && RequestClaimsOk(s.claims, s.requests)
    && EngagementClaimsOk(s.claims, s.engagements) && DealClaimsOk(s.claims, s.requests, s.deals)
  }

  ghost predicate AsksOk(s: Market) {
    && IntentsOk(s.intents, s.intentBySlot, s.intentByResult)
    && RequestsOk(s.intents, s.requests)
    && RequestIndexOk(s.requests, s.requestIdsByResult)
    && TargetsOk(s.requests, s.targetsByBuyer, s.maxOutboundRfq)
    && OneOpenRequest(s.requests) && DistinctSellers(s.requests)
  }

  ghost predicate TalksOk(s: Market) {
    && EngagementsOk(s.intents, s.requests, s.engagements)
    && StatusesOk(s.requests, s.engagements)
    && SelectionIndexOk(s.engagements, s.engagementBySelection)
    && SlotsOk(s.intents, s.engagements, s.reserved)
    && DealsOk(s.intents, s.requests, s.engagements, s.deals)
  }

  ghost predicate Inv(s: Market) {
    Indexed(s) && AsksOk(s) && TalksOk(s) && ClaimsOk(s)
  }

  lemma IntentNamesItself(s: Market, i: Id)
    requires Inv(s) && i in s.intents
    ensures s.intents[i].intentId == i
  {
    hide Indexed, TalksOk, ClaimsOk, RequestsOk, RequestIndexOk, TargetsOk, OneOpenRequest, DistinctSellers;
  }

  lemma EmptyInv(maxOutboundRfq: nat)
    ensures Inv(Empty(maxOutboundRfq))
  {
  }

  // ------------------------------------------------------- adding an intent

  lemma NewIntentKeepsIndexes(intents: Intents, bySlot: map<Slot, Id>, byResult: map<Id, Id>, x: Intent)
    requires IntentsOk(intents, bySlot, byResult)
    requires x.intentId !in intents && SlotOf(x) !in bySlot && x.sourceResultId !in byResult
    ensures IntentsOk(intents[x.intentId := x], bySlot[SlotOf(x) := x.intentId],
                      byResult[x.sourceResultId := x.intentId])
  {
  }

  lemma NewIntentKeepsRequests(intents: Intents, requests: Requests, x: Intent)
    requires x.intentId !in intents && RequestsOk(intents, requests)
    ensures RequestsOk(intents[x.intentId := x], requests)
  {
    forall q | q in requests
      ensures RequestOk(intents[x.intentId := x], q, requests[q].request)
    {
      assert RequestOk(intents, q, requests[q].request);
    }
  }

  lemma NewIntentKeepsEngagements(intents: Intents, requests: Requests, engagements: Engagements, x: Intent)
    requires x.intentId !in intents && EngagementsOk(intents, requests, engagements)
    ensures EngagementsOk(intents[x.intentId := x], requests, engagements)
  {
    forall e | e in engagements
      ensures EngagementOk(intents[x.intentId := x], requests, e, engagements[e])
    {
      assert EngagementOk(intents, requests, e, engagements[e]);
    }
  }

  lemma NewIntentKeepsSlots(intents: Intents, requests: Requests, engagements: Engagements,
                            reserved: map<Slot, EngagementId>, x: Intent)
    requires x.intentId !in intents && EngagementsOk(intents, requests, engagements)
    requires SlotsOk(intents, engagements, reserved)
    ensures SlotsOk(intents[x.intentId := x], engagements, reserved)
  {
    forall e, k: Slot | e in engagements
      ensures Names(intents, engagements[e], k) == Names(intents[x.intentId := x], engagements[e], k)
    {
      assert EngagementOk(intents, requests, e, engagements[e]);
    }
  }

  lemma NewIntentKeepsDeals(intents: Intents, requests: Requests, engagements: Engagements,
                            deals: map<DealId, Deal>, x: Intent)
    requires x.intentId !in intents && DealsOk(intents, requests, engagements, deals)
    ensures DealsOk(intents[x.intentId := x], requests, engagements, deals)
  {
  }

  /** Claims are only ever added, never changed. */
  ghost predicate Grown(claims: map<Id, Claim>, more: map<Id, Claim>) {
    forall r :: r in claims ==> r in more && more[r] == claims[r]
  }

  lemma GrownKeepsClaims(s: Market, more: map<Id, Claim>)
    requires ClaimsOk(s) && Grown(s.claims, more)
    ensures IntentClaimsOk(more, s.intents) && RequestClaimsOk(more, s.requests)
    ensures EngagementClaimsOk(more, s.engagements) && DealClaimsOk(more, s.requests, s.deals)
  {
  }

  lemma NewIntentIsClaimed(claims: map<Id, Claim>, intents: Intents, x: Intent)
    requires IntentClaimsOk(claims, intents) && ClaimedAs(claims, x.sourceResultId, IntentClaim(x.intentId))
    ensures IntentClaimsOk(claims, intents[x.intentId := x])
  {
  }

  /** Ids point at keys because every part of the invariant says so of its own dictionaries. */
  lemma PartsAreIndexed(s: Market)
    requires IntentsOk(s.intents, s.intentBySlot, s.intentByResult) && RequestsOk(s.intents, s.requests)
    requires RequestIndexOk(s.requests, s.requestIdsByResult)
    requires EngagementsOk(s.intents, s.requests, s.engagements)
    requires SelectionIndexOk(s.engagements, s.engagementBySelection)
    ensures Indexed(s)
  {
    hide SlotOf, CounterpartyError;
  }

  lemma PublishKeepsInv(s: Market, intent: Intent)
    requires Inv(s)
    ensures Inv(Publish(s, intent).state)
  {
    hide IntentsOk, RequestsOk, RequestIndexOk, TargetsOk, OneOpenRequest, DistinctSellers, EngagementsOk, StatusesOk,
         SelectionIndexOk, SlotsOk, DealsOk, IntentClaimsOk, RequestClaimsOk, EngagementClaimsOk, DealClaimsOk, Indexed;
    var t := Publish(s, intent).state;
    if t != s {
      NewIntentKeepsIndexes(s.intents, s.intentBySlot, s.intentByResult, intent);
      NewIntentKeepsRequests(s.intents, s.requests, intent);
      NewIntentKeepsEngagements(s.intents, s.requests, s.engagements, intent);
      NewIntentKeepsSlots(s.intents, s.requests, s.engagements, s.reserved, intent);
      NewIntentKeepsDeals(s.intents, s.requests, s.engagements, s.deals, intent);
      GrownKeepsClaims(s, t.claims);
      NewIntentIsClaimed(t.claims, s.intents, intent);
      PartsAreIndexed(t);
    }
  }

  // ------------------------------------------------------ adding a request

  lemma SellersAskedAfter(requests: Requests, request: Request, b: Id)
    requires request.requestId !in requests
    ensures SellersAsked(requests[request.requestId := Tracked(request, Pending, None)], b)
         == SellersAsked(requests, b) + (if b == request.buyerIntentId then {request.sellerIntentId} else {})
  {
    var after := requests[request.requestId := Tracked(request, Pending, None)];
    forall x | x in SellersAsked(requests, b)
      ensures x in SellersAsked(after, b)
    {
      var p :| p in requests && requests[p].request.buyerIntentId == b && requests[p].request.sellerIntentId == x;
      assert p in after && after[p] == requests[p];
    }
    if b == request.buyerIntentId {
      assert request.requestId in after && after[request.requestId].request == request;
    }
  }

  lemma NewRequestKeepsTargets(requests: Requests, targets: map<Id, set<Id>>, maxOutbound: nat, request: Request)
    requires TargetsOk(requests, targets, maxOutbound) && request.requestId !in requests
    requires |Targets(targets, request.buyerIntentId)| + 1 <= maxOutbound
    ensures TargetsOk(requests[request.requestId := Tracked(request, Pending, None)],
                      targets[request.buyerIntentId :=
                        Targets(targets, request.buyerIntentId) + {request.sellerIntentId}],
                      maxOutbound)
  {
    var more := targets[request.buyerIntentId := Targets(targets, request.buyerIntentId) + {request.sellerIntentId}];
    forall b: Id
      ensures Targets(more, b) == SellersAsked(requests[request.requestId := Tracked(request, Pending, None)], b)
      ensures |Targets(more, b)| <= maxOutbound
    {
      SellersAskedAfter(requests, request, b);
      assert Targets(targets, b) == SellersAsked(requests, b);
    }
  }

  lemma NewRequestIsUnrivalled(requests: Requests, targets: map<Id, set<Id>>, maxOutbound: nat, request: Request)
    requires request.requestId !in requests
    requires TargetsOk(requests, targets, maxOutbound) && OneOpenRequest(requests) && DistinctSellers(requests)
    requires !HasOpenRequest(requests, request.buyerIntentId)
    requires request.sellerIntentId !in Targets(targets, request.buyerIntentId)
    ensures OneOpenRequest(requests[request.requestId := Tracked(request, Pending, None)])
    ensures DistinctSellers(requests[request.requestId := Tracked(request, Pending, None)])
  {
    forall p | p in requests && requests[p].request.buyerIntentId == request.buyerIntentId
      ensures requests[p].request.sellerIntentId != request.sellerIntentId && !Open(requests[p])
    {
      assert requests[p].request.sellerIntentId in SellersAsked(requests, request.buyerIntentId);
    }
  }

  lemma NewRequestKeepsIndex(requests: Requests, byResult: map<Id, seq<Id>>, request: Request)
    requires RequestIndexOk(requests, byResult)
    requires request.requestId !in requests && request.sourceResultId !in byResult
    ensures RequestIndexOk(requests[request.requestId := Tracked(request, Pending, None)],
                           byResult[request.sourceResultId := [request.requestId]])
  {
  }

  lemma NewRequestKeepsEngagements(intents: Intents, requests: Requests, request: Request, engagements: Engagements)
    requires request.requestId !in requests
    requires EngagementsOk(intents, requests, engagements) && StatusesOk(requests, engagements)
    ensures EngagementsOk(intents, requests[request.requestId := Tracked(request, Pending, None)], engagements)
    ensures StatusesOk(requests[request.requestId := Tracked(request, Pending, None)], engagements)
  {
    forall e | e in engagements
      ensures EngagementOk(intents, requests[request.requestId := Tracked(request, Pending, None)], e, engagements[e])
    {
      assert EngagementOk(intents, requests, e, engagements[e]);
    }
  }

  lemma NewRequestKeepsDeals(intents: Intents, requests: Requests, q: Id, t: Tracked, engagements: Engagements,
                             deals: map<DealId, Deal>)
    requires q !in requests && DealsOk(intents, requests, engagements, deals)
    ensures DealsOk(intents, requests[q := t], engagements, deals)
  {
    hide DealOk;
  }

  lemma NewRequestKeepsClaims(requests: Requests, q: Id, t: Tracked, claims: map<Id, Claim>, deals: map<DealId, Deal>)
    requires q !in requests && DealClaimsOk(claims, requests, deals) && RequestClaimsOk(claims, requests)
    requires ClaimedAs(claims, t.request.sourceResultId, RfqClaim(t.request.sourceResultId))
    ensures DealClaimsOk(claims, requests[q := t], deals) && RequestClaimsOk(claims, requests[q := t])
  {
  }

  lemma NewRequestKeepsRequests(s: Market, request: Request)
    requires IntentsOk(s.intents, s.intentBySlot, s.intentByResult) && RequestsOk(s.intents, s.requests)
    requires request.buyerIntentId in s.intents && RequestError(s, request).None?
    ensures RequestsOk(s.intents, s.requests[request.requestId := Tracked(request, Pending, None)])
    ensures s.intents[request.buyerIntentId].intentId == request.buyerIntentId
    ensures s.intents[request.sellerIntentId].intentId == request.sellerIntentId
    ensures request.requestId !in s.requests
    ensures request.sellerIntentId !in Targets(s.targetsByBuyer, request.buyerIntentId)
  {
    forall q | q in s.requests
      ensures RequestOk(s.intents, q, s.requests[q].request)
    {
    }
  }

  lemma SubmitKeepsInv(s: Market, batch: seq<Request>)
    requires Inv(s)
    ensures Inv(Submit(s, batch).state)
  {
    hide IntentsOk, RequestsOk, RequestIndexOk, TargetsOk, OneOpenRequest, DistinctSellers, EngagementsOk, StatusesOk,
         SelectionIndexOk, SlotsOk, DealsOk, IntentClaimsOk, RequestClaimsOk, EngagementClaimsOk, DealClaimsOk, Indexed;
    hide RequestError, CounterpartyError, HasOpenRequest, Open;
    var t := Submit(s, batch).state;
    if t != s {
      var request := batch[0];
      NewRequestKeepsRequests(s, request);
      NewRequestKeepsTargets(s.requests, s.targetsByBuyer, s.maxOutboundRfq, request);
      NewRequestIsUnrivalled(s.requests, s.targetsByBuyer, s.maxOutboundRfq, request);
      NewRequestKeepsIndex(s.requests, s.requestIdsByResult, request);
      NewRequestKeepsEngagements(s.intents, s.requests, request, s.engagements);
      GrownKeepsClaims(s, t.claims);
      NewRequestKeepsDeals(s.intents, s.requests, request.requestId, Tracked(request, Pending, None), s.engagements, s.deals);
      NewRequestKeepsClaims(s.requests, request.requestId, Tracked(request, Pending, None), t.claims, s.deals);
      PartsAreIndexed(t);
    }
  }

  // --------------------------------------- changing the status of a request

  /** The request map with one status moved on; the request itself stays. */
  function Moved(requests: Requests, q: Id, status: RequestStatus, e: Option<EngagementId>): Requests
    requires q in requests
  {
    requests[q := Tracked(requests[q].request, status, e)]
  }

  lemma MovedKeepsAsks(s: Market, q: Id, status: RequestStatus, e: Option<EngagementId>)
    requires q in s.requests && AsksOk(s) && Open(s.requests[q])
    ensures RequestsOk(s.intents, Moved(s.requests, q, status, e))
    ensures OneOpenRequest(Moved(s.requests, q, status, e)) && DistinctSellers(Moved(s.requests, q, status, e))
  {
    hide IntentsOk, TargetsOk, RequestIndexOk;
    forall p | p in s.requests
      ensures RequestOk(s.intents, p, s.requests[p].request)
    {
    }
  }

  lemma MovedKeepsIndexes(requests: Requests, byResult: map<Id, seq<Id>>, targets: map<Id, set<Id>>, maxOutbound: nat,
                          q: Id, status: RequestStatus, e: Option<EngagementId>)
    requires q in requests && RequestIndexOk(requests, byResult) && TargetsOk(requests, targets, maxOutbound)
    ensures RequestIndexOk(Moved(requests, q, status, e), byResult)
    ensures TargetsOk(Moved(requests, q, status, e), targets, maxOutbound)
  {
    var after := Moved(requests, q, status, e);
    forall b: Id
      ensures SellersAsked(after, b) == SellersAsked(requests, b)
    {
      assert after.Keys == requests.Keys;
      assert forall p :: p in requests ==> after[p].request == requests[p].request;
    }
  }

  lemma MovedKeepsEngagements(intents: Intents, requests: Requests, engagements: Engagements,
                              q: Id, status: RequestStatus, e: Option<EngagementId>)
    requires q in requests && EngagementsOk(intents, requests, engagements)
    ensures EngagementsOk(intents, Moved(requests, q, status, e), engagements)
  {
    forall f | f in engagements
      ensures EngagementOk(intents, Moved(requests, q, status, e), f, engagements[f])
    {
      assert EngagementOk(intents, requests, f, engagements[f]);
    }
  }

  lemma MovedKeepsDeals(intents: Intents, requests: Requests, engagements: Engagements, deals: map<DealId, Deal>,
                        q: Id, status: RequestStatus, e: Option<EngagementId>)
    requires q in requests && DealsOk(intents, requests, engagements, deals)
    ensures DealsOk(intents, Moved(requests, q, status, e), engagements, deals)
  {
    hide DealOk;
  }

  lemma MovedKeepsClaims(claims: map<Id, Claim>, requests: Requests, deals: map<DealId, Deal>,
                         q: Id, status: RequestStatus, e: Option<EngagementId>)
    requires q in requests && RequestClaimsOk(claims, requests) && DealClaimsOk(claims, requests, deals)
    ensures RequestClaimsOk(claims, Moved(requests, q, status, e))
    ensures DealClaimsOk(claims, Moved(requests, q, status, e), deals)
  {
  }

  /** Everything a status change keeps, apart from the link between statuses and engagements. */
  lemma MovedKeepsInv(s: Market, engagements: Engagements, claims: map<Id, Claim>,
                      q: Id, status: RequestStatus, e: Option<EngagementId>)
    requires AsksOk(s) && q in s.requests && Open(s.requests[q])
    requires EngagementsOk(s.intents, s.requests, engagements) && DealsOk(s.intents, s.requests, engagements, s.deals)
    requires RequestClaimsOk(claims, s.requests) && DealClaimsOk(claims, s.requests, s.deals)
    ensures AsksOk(s.(requests := Moved(s.requests, q, status, e)))
    ensures EngagementsOk(s.intents, Moved(s.requests, q, status, e), engagements)
    ensures DealsOk(s.intents, Moved(s.requests, q, status, e), engagements, s.deals)
    ensures RequestClaimsOk(claims, Moved(s.requests, q, status, e))
    ensures DealClaimsOk(claims, Moved(s.requests, q, status, e), s.deals)
  {
    hide IntentsOk, RequestsOk, RequestIndexOk, TargetsOk, OneOpenRequest, DistinctSellers, EngagementsOk,
         DealsOk, RequestClaimsOk, DealClaimsOk;
    MovedKeepsAsks(s, q, status, e);
    MovedKeepsIndexes(s.requests, s.requestIdsByResult, s.targetsByBuyer, s.maxOutboundRfq, q, status, e);
    MovedKeepsEngagements(s.intents, s.requests, engagements, q, status, e);
    MovedKeepsDeals(s.intents, s.requests, engagements, s.deals, q, status, e);
    MovedKeepsClaims(claims, s.requests, s.deals, q, status, e);
  }

  lemma PendingHasNoEngagement(requests: Requests, engagements: Engagements, q: Id)
    requires StatusesOk(requests, engagements) && q in requests && requests[q].status == Pending
    ensures EngagementId(q) !in engagements
    ensures StatusesOk(Moved(requests, q, CounterpartyBusy, requests[q].engagementId), engagements)
  {
  }

  lemma BusyKeepsInv(s: Market, q: Id)
    requires Inv(s) && q in s.requests && s.requests[q].status == Pending
    ensures Inv(s.(requests := s.requests[q := s.requests[q].(status := CounterpartyBusy)]))
  {
    hide IntentsOk, RequestsOk, RequestIndexOk, TargetsOk, OneOpenRequest, DistinctSellers, EngagementsOk, StatusesOk,
         SelectionIndexOk, SlotsOk, DealsOk, IntentClaimsOk, RequestClaimsOk, EngagementClaimsOk, DealClaimsOk, Indexed;
    MovedKeepsInv(s, s.engagements, s.claims, q, CounterpartyBusy, s.requests[q].engagementId);
    PendingHasNoEngagement(s.requests, s.engagements, q);
    PartsAreIndexed(s.(requests := Moved(s.requests, q, CounterpartyBusy, s.requests[q].engagementId)));
  }

  // ---------------------------------------------------- adding an engagement

  lemma NewEngagementOk(s: Market, requestId: Id, selectionResultId: Id)
    requires IntentsOk(s.intents, s.intentBySlot, s.intentByResult)
    requires RequestsOk(s.intents, s.requests) && requestId in s.requests
    ensures s.requests[requestId].request.buyerIntentId in s.intents
    ensures s.requests[requestId].request.sellerIntentId in s.intents
    ensures var g := NewEngagement(s, requestId, selectionResultId);
            && EngagementOk(s.intents, s.requests, EngagementId(requestId), g)
            && g.buyerIntentId == s.requests[requestId].request.buyerIntentId
            && g.sellerIntentId == s.requests[requestId].request.sellerIntentId
  {
    assert RequestOk(s.intents, requestId, s.requests[requestId].request);
  }

  lemma NewEngagementKeepsStatuses(requests: Requests, engagements: Engagements, g: Engagement)
    requires StatusesOk(requests, engagements) && g.requestId in requests && requests[g.requestId].status == Pending
    requires g.engagementId == EngagementId(g.requestId) && g.status == Active && g.terminalSourceResultId == None
    ensures StatusesOk(Moved(requests, g.requestId, Engaged, Some(g.engagementId)), engagements[g.engagementId := g])
  {
  }

  lemma NewEngagementKeepsIndex(engagements: Engagements, bySelection: map<Id, EngagementId>, g: Engagement)
    requires SelectionIndexOk(engagements, bySelection)
    requires g.engagementId !in engagements && g.selectionResultId !in bySelection
    ensures SelectionIndexOk(engagements[g.engagementId := g], bySelection[g.selectionResultId := g.engagementId])
  {
  }

  lemma NewEngagementTakesSlots(intents: Intents, engagements: Engagements, reserved: map<Slot, EngagementId>, g: Engagement)
    requires SlotsOk(intents, engagements, reserved)
    requires Live(g) && g.engagementId !in engagements
    requires g.buyerIntentId in intents && g.sellerIntentId in intents
    requires SlotOf(intents[g.buyerIntentId]) !in reserved && SlotOf(intents[g.sellerIntentId]) !in reserved
    ensures SlotsOk(intents, engagements[g.engagementId := g],
                    reserved[SlotOf(intents[g.buyerIntentId]) := g.engagementId]
                            [SlotOf(intents[g.sellerIntentId]) := g.engagementId])
  {
    hide SlotOf;
  }

  lemma NewEngagementKeepsDeals(intents: Intents, requests: Requests, engagements: Engagements,
                                deals: map<DealId, Deal>, claims: map<Id, Claim>, g: Engagement)
    requires g.engagementId !in engagements && g.status == Active
    requires DealsOk(intents, requests, engagements, deals)
    requires EngagementClaimsOk(claims, engagements)
    requires ClaimedAs(claims, g.selectionResultId, EngageClaim(g.engagementId))
    ensures DealsOk(intents, requests, engagements[g.engagementId := g], deals)
    ensures EngagementClaimsOk(claims, engagements[g.engagementId := g])
  {
  }

  lemma JoinedKeepsInv(s: Market, q: Id, selectionResultId: Id)
    requires Inv(s) && q in s.requests && s.requests[q].status == Pending
    requires selectionResultId !in s.engagementBySelection
    requires Compatible(s.claims, selectionResultId, EngageClaim(EngagementId(q)))
    requires SlotOf(s.intents[s.requests[q].request.buyerIntentId]) !in s.reserved
    requires SlotOf(s.intents[s.requests[q].request.sellerIntentId]) !in s.reserved
    ensures Inv(Joined(s, q, selectionResultId))
  {
    hide IntentsOk, RequestsOk, RequestIndexOk, TargetsOk, OneOpenRequest, DistinctSellers, EngagementsOk, StatusesOk,
         SelectionIndexOk, SlotsOk, DealsOk, IntentClaimsOk, RequestClaimsOk, EngagementClaimsOk, DealClaimsOk, Indexed;
    hide EngagementOk, SlotOf;
    NewEngagementOk(s, q, selectionResultId);
    var t := Joined(s, q, selectionResultId);
    var g := NewEngagement(s, q, selectionResultId);
    PendingHasNoEngagement(s.requests, s.engagements, q);
    GrownKeepsClaims(s, t.claims);
    NewEngagementKeepsStatuses(s.requests, s.engagements, g);
    NewEngagementKeepsIndex(s.engagements, s.engagementBySelection, g);
    NewEngagementTakesSlots(s.intents, s.engagements, s.reserved, g);
    NewEngagementKeepsDeals(s.intents, s.requests, s.engagements, s.deals, t.claims, g);
    assert EngagementsOk(s.intents, s.requests, t.engagements) by { EngagementAdded(s, g); }
    MovedKeepsInv(s, t.engagements, t.claims, q, Engaged, Some(g.engagementId));
    assert t.requests == Moved(s.requests, q, Engaged, Some(g.engagementId));
    PartsAreIndexed(t);
  }

  lemma EngagementAdded(s: Market, g: Engagement)
    requires EngagementsOk(s.intents, s.requests, s.engagements)
    requires EngagementOk(s.intents, s.requests, g.engagementId, g)
    ensures EngagementsOk(s.intents, s.requests, s.engagements[g.engagementId := g])
  {
  }

  lemma EngageKeepsInv(s: Market, actor: Id, requestId: Id, selectionResultId: Id)
    requires Inv(s)
    ensures Inv(Engage(s, actor, requestId, selectionResultId).state)
  {
    hide AsksOk, TalksOk, ClaimsOk;
    var o := Engage(s, actor, requestId, selectionResultId);
    if o.state != s {
      if o.result.Err? { BusyKeepsInv(s, requestId); } else { JoinedKeepsInv(s, requestId, selectionResultId); }
    }
  }

  // -------------------------------------------------- closing an engagement

  lemma ShutKeepsEngagements(intents: Intents, requests: Requests, engagements: Engagements, e: EngagementId, g: Engagement)
    requires EngagementsOk(intents, requests, engagements) && StatusesOk(requests, engagements)
    requires e in engagements && engagements[e].status == Active
    requires g == engagements[e].(status := g.status, terminalSourceResultId := g.terminalSourceResultId)
    ensures EngagementsOk(intents, requests, engagements[e := g])
    ensures e == EngagementId(g.requestId) && g.engagementId == e && g.requestId in requests
    ensures g.buyerIntentId in intents && g.sellerIntentId in intents
    ensures requests[g.requestId].status == Engaged
  {
    forall f | f in engagements
      ensures EngagementOk(intents, requests, f, engagements[f])
    {
    }
  }

  lemma ShutKeepsStatuses(requests: Requests, engagements: Engagements, e: EngagementId, g: Engagement, x: Option<EngagementId>)
    requires StatusesOk(requests, engagements) && e in engagements && e == EngagementId(g.requestId)
    requires (g.status == TimedOut && g.terminalSourceResultId == None)
             || (g.status == Rejected && g.terminalSourceResultId.Some?)
    requires g.requestId in requests
    ensures StatusesOk(Moved(requests, g.requestId, Declined, x), engagements[e := g])
  {
  }

  lemma RestatedKeepsIndex(engagements: Engagements, bySelection: map<Id, EngagementId>, e: EngagementId, g: Engagement)
    requires SelectionIndexOk(engagements, bySelection)
    requires e in engagements && g.selectionResultId == engagements[e].selectionResultId
    ensures SelectionIndexOk(engagements[e := g], bySelection)
  {
  }

  lemma ShutFreesSlots(intents: Intents, engagements: Engagements, reserved: map<Slot, EngagementId>,
                       e: EngagementId, g: Engagement)
    requires SlotsOk(intents, engagements, reserved) && e in engagements && !Live(g)
    requires g.buyerIntentId == engagements[e].buyerIntentId && g.sellerIntentId == engagements[e].sellerIntentId
    requires g.buyerIntentId in intents && g.sellerIntentId in intents
    ensures SlotsOk(intents, engagements[e := g],
                    Released(Released(reserved, SlotOf(intents[g.buyerIntentId]), e), SlotOf(intents[g.sellerIntentId]), e))
  {
    hide SlotOf;
  }

  lemma ShutKeepsDeals(intents: Intents, requests: Requests, engagements: Engagements,
                       deals: map<DealId, Deal>, claims: map<Id, Claim>, e: EngagementId, g: Engagement)
    requires e in engagements && engagements[e].status == Active && !Live(g)
    requires g.selectionResultId == engagements[e].selectionResultId
    requires g.status == Rejected && g.terminalSourceResultId.Some? ==>
               ClaimedAs(claims, g.terminalSourceResultId.value, RejectClaim(e))
    requires DealsOk(intents, requests, engagements, deals)
    requires EngagementClaimsOk(claims, engagements)
    ensures DealsOk(intents, requests, engagements[e := g], deals)
    ensures EngagementClaimsOk(claims, engagements[e := g])
  {
  }

  lemma ShutKeepsInv(s: Market, e: EngagementId, closing: Closing, source: Option<Id>)
    requires Inv(s) && e in s.engagements && s.engagements[e].status == Active
    requires closing == AgentRejects <==> source.Some?
    requires source.Some? ==> Compatible(s.claims, source.value, RejectClaim(e))
    ensures Inv(Shut(s, e, closing, source))
  {
    hide IntentsOk, RequestsOk, RequestIndexOk, TargetsOk, OneOpenRequest, DistinctSellers, EngagementsOk, StatusesOk,
         SelectionIndexOk, SlotsOk, DealsOk, IntentClaimsOk, RequestClaimsOk, EngagementClaimsOk, DealClaimsOk, Indexed;
    hide SlotOf;
    var t := Shut(s, e, closing, source);
    var g := t.engagements[e];
    ShutKeepsEngagements(s.intents, s.requests, s.engagements, e, g);
    var x := s.requests[g.requestId].engagementId;
    GrownKeepsClaims(s, t.claims);
    ShutKeepsStatuses(s.requests, s.engagements, e, g, x);
    RestatedKeepsIndex(s.engagements, s.engagementBySelection, e, g);
    ShutFreesSlots(s.intents, s.engagements, s.reserved, e, g);
    ShutKeepsDeals(s.intents, s.requests, s.engagements, s.deals, t.claims, e, g);
    MovedKeepsInv(s, t.engagements, t.claims, g.requestId, Declined, x);
    assert t.requests == Moved(s.requests, g.requestId, Declined, x);
    PartsAreIndexed(t);
  }

  lemma CloseKeepsInv(s: Market, e: EngagementId, closing: Closing, source: Option<Id>)
    requires Inv(s)
    ensures Inv(Close(s, e, closing, source).state)
  {
    hide AsksOk, TalksOk, ClaimsOk;
    if Close(s, e, closing, source).state != s { ShutKeepsInv(s, e, closing, source); }
  }

  // --------------------------------------------------------- freezing a deal

  lemma FrozenKeepsEngagements(intents: Intents, requests: Requests, engagements: Engagements,
                               reserved: map<Slot, EngagementId>, e: EngagementId, g: Engagement)
    requires EngagementsOk(intents, requests, engagements) && StatusesOk(requests, engagements)
    requires SlotsOk(intents, engagements, reserved)
    requires e in engagements && engagements[e].status == Active && g.status == AcceptedPendingSettlement
    requires g == engagements[e].(status := g.status, terminalSourceResultId := g.terminalSourceResultId)
    ensures StatusesOk(requests, engagements[e := g])
    ensures SlotsOk(intents, engagements[e := g], reserved)
  {
    hide SlotOf, EngagementOk;
  }

  lemma DealNamesItself(intents: Intents, g: Engagement, request: Request, d: DealId, deal: Deal)
    requires DealOk(intents, g, request, d, deal)
    ensures d == DealId(deal.engagementId)
  {
  }

  lemma NewDealKeepsDeals(intents: Intents, requests: Requests, engagements: Engagements, deals: map<DealId, Deal>,
                          e: EngagementId, g: Engagement, deal: Deal)
    requires DealsOk(intents, requests, engagements, deals)
    requires e in engagements && g.requestId in requests && deal.engagementId == e
    requires DealOk(intents, g, requests[g.requestId].request, DealId(e), deal)
    ensures DealsOk(intents, requests, engagements[e := g], deals[DealId(e) := deal])
  {
    hide DealOk;
    forall d | d in deals && d != DealId(e) ensures deals[d].engagementId != e {
      DealNamesItself(intents, engagements[deals[d].engagementId],
                      requests[engagements[deals[d].engagementId].requestId].request, d, deals[d]);
    }
  }

  lemma FrozenKeepsDeals(s: Market, a: Acceptance)
    requires Indexed(s) && a.engagementId in s.engagements
    requires EngagementsOk(s.intents, s.requests, s.engagements)
    requires DealsOk(s.intents, s.requests, s.engagements, s.deals)
    requires FreezeError(s, a).None? && a.proposalResultId != a.acceptanceResultId
    ensures DealsOk(s.intents, s.requests, Frozen(s, a).engagements, Frozen(s, a).deals)
  {
    hide DealOk, DealsOk, FreezeError, Claimed, DealClaims;
    var e := a.engagementId;
    assert EngagementOk(s.intents, s.requests, e, s.engagements[e]);
    FrozenDealOk(s, a);
    NewDealKeepsDeals(s.intents, s.requests, s.engagements, s.deals, e, Frozen(s, a).engagements[e], NewDeal(s, a));
  }

  lemma FrozenDealOk(s: Market, a: Acceptance)
    requires Indexed(s) && a.engagementId in s.engagements
    requires EngagementOk(s.intents, s.requests, a.engagementId, s.engagements[a.engagementId])
    requires FreezeError(s, a).None? && a.proposalResultId != a.acceptanceResultId
    ensures DealOk(s.intents, Frozen(s, a).engagements[a.engagementId],
                   s.requests[s.engagements[a.engagementId].requestId].request, DealId(a.engagementId), NewDeal(s, a))
  {
    assert a.accepterId in {a.proposerId, a.accepterId};
    assert a.proposerId in {a.proposerId, a.accepterId};
  }

  /** A granted batch of claims keeps every earlier claim and owns each new one. */
  lemma {:induction false} ClaimedMeansOwned(claims: map<Id, Claim>, wanted: Claims)
    requires Claimable(claims, wanted)
    ensures Grown(claims, Claimed(claims, wanted))
    ensures forall k :: 0 <= k < |wanted| ==> ClaimedAs(Claimed(claims, wanted), wanted[k].0, wanted[k].1)
  {
    if wanted != [] {
      ClaimedMeansOwned(claims, wanted[..|wanted| - 1]);
      assert Compatible(claims, wanted[|wanted| - 1].0, wanted[|wanted| - 1].1);
    }
  }

  lemma DealClaimsGrow(s: Market, a: Acceptance)
    requires Indexed(s) && a.engagementId in s.engagements
    requires Claimable(s.claims, DealClaims(s, a)) && a.proposalResultId != a.acceptanceResultId
    ensures Grown(s.claims, Frozen(s, a).claims)
    ensures ClaimedAs(Frozen(s, a).claims, a.acceptanceResultId, AcceptanceClaim(a.engagementId))
    ensures BindsOpening(s, a) || ClaimedAs(Frozen(s, a).claims, a.proposalResultId, ProposalClaim(a.engagementId))
  {
    hide Claimed, Claimable, Compatible;
    var claims := DealClaims(s, a);
    ClaimedMeansOwned(s.claims, claims);
    assert ClaimedAs(Claimed(s.claims, claims), claims[0].0, claims[0].1);
    assert ClaimedAs(Claimed(s.claims, claims), claims[|claims| - 1].0, claims[|claims| - 1].1);
  }

  lemma NewDealIsClaimed(claims: map<Id, Claim>, requests: Requests, deals: map<DealId, Deal>, deal: Deal)
    requires DealClaimsOk(claims, requests, deals) && deal.requestId in requests
    requires ClaimedAs(claims, deal.acceptanceResultId, AcceptanceClaim(deal.engagementId))
    requires deal.latestProposalResultId == requests[deal.requestId].request.sourceResultId
             || ClaimedAs(claims, deal.latestProposalResultId, ProposalClaim(deal.engagementId))
    ensures DealClaimsOk(claims, requests, deals[deal.dealId := deal])
  {
  }

  lemma AcceptedKeepsClaims(claims: map<Id, Claim>, engagements: Engagements, e: EngagementId, g: Engagement)
    requires EngagementClaimsOk(claims, engagements) && e in engagements
    requires g.selectionResultId == engagements[e].selectionResultId && g.status == AcceptedPendingSettlement
    ensures EngagementClaimsOk(claims, engagements[e := g])
  {
  }

  lemma FrozenKeepsClaims(s: Market, a: Acceptance)
    requires Indexed(s) && a.engagementId in s.engagements && ClaimsOk(s)
    requires Claimable(s.claims, DealClaims(s, a)) && a.proposalResultId != a.acceptanceResultId
    ensures ClaimsOk(Frozen(s, a))
  {
    hide IntentClaimsOk, RequestClaimsOk, EngagementClaimsOk, DealClaimsOk, DealClaims, Claimed, Claimable;
    var t := Frozen(s, a);
    DealClaimsGrow(s, a);
    GrownKeepsClaims(s, t.claims);
    NewDealIsClaimed(t.claims, s.requests, s.deals, NewDeal(s, a));
    AcceptedKeepsClaims(t.claims, s.engagements, a.engagementId, t.engagements[a.engagementId]);
  }

  lemma FrozenKeepsInv(s: Market, a: Acceptance)
    requires Inv(s) && a.engagementId in s.engagements
    requires FreezeError(s, a).None? && a.proposalResultId != a.acceptanceResultId
    requires Claimable(s.claims, DealClaims(s, a))
    ensures Inv(Frozen(s, a))
  {
    hide IntentsOk, RequestsOk, RequestIndexOk, TargetsOk, OneOpenRequest, DistinctSellers, EngagementsOk, StatusesOk,
         SelectionIndexOk, SlotsOk, DealsOk, IntentClaimsOk, RequestClaimsOk, EngagementClaimsOk, DealClaimsOk, Indexed;
    hide SlotOf, DealClaims, Claimed, BindsOpening, Claimable;
    FrozenKeepsClaims(s, a);
    var t := Frozen(s, a);
    var g := t.engagements[a.engagementId];
    FrozenKeepsEngagements(s.intents, s.requests, s.engagements, s.reserved, a.engagementId, g);
    ShutKeepsEngagements(s.intents, s.requests, s.engagements, a.engagementId, g);
    RestatedKeepsIndex(s.engagements, s.engagementBySelection, a.engagementId, g);
    FrozenKeepsDeals(s, a);
    PartsAreIndexed(t);
  }

  lemma FreezeKeepsInv(s: Market, a: Acceptance)
    requires Inv(s)
    ensures Inv(Freeze(s, a).state)
  {
    hide AsksOk, TalksOk, ClaimsOk;
    if Freeze(s, a).state != s { FrozenKeepsInv(s, a); }
  }
}
