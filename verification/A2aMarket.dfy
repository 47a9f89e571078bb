/** Record types and transition functions of the Agent-driven market oracle
    (arena_game/a2a_market.py). Every transition is a total function of the
    whole market state; the class in MarketOracle.dfy performs the same
    transitions by updating its eleven dictionaries in place. */
module A2aMarket {
  import opened Wrappers
  import opened Goods
  import Money

  const MAX_OUTBOUND_RFQ: nat := 3

  datatype RequestStatus = Pending | Engaged | Declined | CounterpartyBusy

  datatype EngagementStatus = Active | AcceptedPendingSettlement | Rejected | TimedOut

  datatype MarketError =
    | ResultPublishedAnotherIntent
    | IntentIdReused
    | ParticipantAlreadyPublished
    | IntentNotFound
    | OnlyBuyersDiscover
    | NotPublishable
    | RequesterExpired
    | OneSellerPerRfq
    | ResultSubmittedAnotherRfq
    | UnresolvedRfq
    | RfqBudgetExhausted
    | RequestIdReused
    | SidesMismatch
    | SelfNegotiation
    | RoundMismatch
    | GoodMismatch
    | LimitsDoNotOverlap
    | ExpiredIntent
    | OpeningAboveCeiling
    | Busy
    | SellerAlreadyAsked
    | InvalidIdentifier
    | SelectionReused
    | RequestNotFound
    | RequestNotPending
    | NotTargetSeller
    | EngagementNotFound
    | EngagementTerminal
    | RejectionNeedsResult
    | TimeoutHasResult
    | SameProposalAndAcceptance
    | DealImmutable
    | EngagementNotActive
    | NotOppositeParties
    | BindingOpeningChanged
    | PriceOutsideLimits
    | ResultAuthoredAnotherAction

  /** Every identifier of the source is a piece of text. */
  datatype Id = Id(text: string)

  predicate ValidIdentifier(id: Id) {
    0 < |id.text| <= 512
  }

  /** What a participant offers or wants in one round: a listed price and a limit nobody else sees.
      Intents always trade one unit, so no quantity is kept. */
  datatype Intent = Intent(
    intentId: Id, sourceResultId: Id, gameId: Id, roundId: Id,
    participantId: Id, agentId: Id, displayName: string, side: Side, good: Good,
    publicPrice: int, limitPrice: int, expiresAt: int, publicMessage: Option<string>, failedNegotiations: int)

  /** A buyer's question to the owner of one sell intent, with the price it opens at. */
  datatype Request = Request(
    requestId: Id, sourceResultId: Id, buyerIntentId: Id, sellerIntentId: Id,
    openingPrice: int, publicMessage: string, createdAt: int)

  /** The source formats these as "engagement:<request>" and "deal:<engagement>". */
  datatype EngagementId = EngagementId(requestId: Id)

  datatype DealId = DealId(engagementId: EngagementId)

  /** A request its seller chose to answer; while it lives it occupies a slot of either side. */
  datatype Engagement = Engagement(
    engagementId: EngagementId, requestId: Id,
    buyerIntentId: Id, sellerIntentId: Id,
    buyerParticipantId: Id, sellerParticipantId: Id, good: Good,
    selectionResultId: Id, status: EngagementStatus, terminalSourceResultId: Option<Id>)

  predicate Live(g: Engagement) {
    g.status == Active || g.status == AcceptedPendingSettlement
  }

  datatype Deal = Deal(
    dealId: DealId, engagementId: EngagementId, requestId: Id,
    buyerParticipantId: Id, sellerParticipantId: Id, good: Good, quantity: int,
    unitPrice: int, latestProposalResultId: Id, acceptanceResultId: Id,
    acceptedByParticipantId: Id)

  datatype Tracked = Tracked(request: Request, status: RequestStatus, engagementId: Option<EngagementId>)

  /** A request that still binds its buyer. */
  predicate Open(t: Tracked) {
    t.status == Pending || t.status == Engaged
  }

  /** What one Agent Result authored: the source's (action kind, action id) pair. */
  datatype Claim =
    | IntentClaim(intentId: Id)
    | RfqClaim(resultId: Id)
    | EngageClaim(engagementId: EngagementId)
    | RejectClaim(engagementId: EngagementId)
    | ProposalClaim(engagementId: EngagementId)
    | AcceptanceClaim(engagementId: EngagementId)

  datatype Slot = Slot(gameId: Id, roundId: Id, participantId: Id)

  function SlotOf(i: Intent): Slot {
    Slot(i.gameId, i.roundId, i.participantId)
  }

  datatype Market = Market(
    maxOutboundRfq: nat,
    claims: map<Id, Claim>,
    intents: map<Id, Intent>,
    intentBySlot: map<Slot, Id>,
    intentByResult: map<Id, Id>,
    requests: map<Id, Tracked>,
    requestIdsByResult: map<Id, seq<Id>>,
    targetsByBuyer: map<Id, set<Id>>,
    engagements: map<EngagementId, Engagement>,
    engagementBySelection: map<Id, EngagementId>,
    reserved: map<Slot, EngagementId>,
    deals: map<DealId, Deal>)

  function Empty(maxOutboundRfq: nat): Market {
    Market(maxOutboundRfq, map[], map[], map[], map[], map[], map[], map[], map[], map[], map[], map[])
  }

  /** Ids stored inside one dictionary are keys of the dictionary they point to. */
  ghost predicate Indexed(s: Market) {
    && (forall r :: r in s.intentByResult ==> s.intentByResult[r] in s.intents)
    && (forall r :: r in s.requestIdsByResult ==>
          |s.requestIdsByResult[r]| == 1 && s.requestIdsByResult[r][0] in s.requests)
    && (forall q :: q in s.requests ==>
          s.requests[q].request.buyerIntentId in s.intents && s.requests[q].request.sellerIntentId in s.intents)
    && (forall r :: r in s.engagementBySelection ==> s.engagementBySelection[r] in s.engagements)
    && (forall e :: e in s.engagements ==>
          s.engagements[e].requestId in s.requests
          && s.engagements[e].buyerIntentId in s.intents && s.engagements[e].sellerIntentId in s.intents)
  }

  datatype Outcome<+T> = Outcome(state: Market, result: Result<T, MarketError>)

  // ---------------------------------------------------------------- claims

  /** Result ids with what each of them would author. */
  type Claims = seq<(Id, Claim)>

  predicate Compatible(claims: map<Id, Claim>, resultId: Id, claim: Claim) {
    resultId in claims ==> claims[resultId] == claim
  }

  predicate Claimable(claims: map<Id, Claim>, wanted: Claims) {
    && (forall k :: 0 <= k < |wanted| ==> Compatible(claims, wanted[k].0, wanted[k].1))
    && (forall j, k :: 0 <= j < k < |wanted| && wanted[j].0 == wanted[k].0 ==> wanted[j].1 == wanted[k].1)
  }

  function Claimed(claims: map<Id, Claim>, wanted: Claims): map<Id, Claim> {
    if wanted == [] then claims
    else Claimed(claims, wanted[..|wanted| - 1])[wanted[|wanted| - 1].0 := wanted[|wanted| - 1].1]
  }

  // --------------------------------------------------------------- intents

  function Publish(s: Market, intent: Intent): (o: Outcome<Intent>)
    requires Indexed(s)
  {
    if intent.sourceResultId in s.intentByResult then
      var existing := s.intents[s.intentByResult[intent.sourceResultId]];
      if existing != intent then Outcome(s, Err(ResultPublishedAnotherIntent)) else Outcome(s, Ok(existing))
    else if intent.intentId in s.intents then
      if s.intents[intent.intentId] != intent then Outcome(s, Err(IntentIdReused))
      else Outcome(s, Ok(s.intents[intent.intentId]))
    else if SlotOf(intent) in s.intentBySlot then
      Outcome(s, Err(ParticipantAlreadyPublished))
    else if !Compatible(s.claims, intent.sourceResultId, IntentClaim(intent.intentId)) then
      Outcome(s, Err(ResultAuthoredAnotherAction))
    else
      Outcome(s.(claims := s.claims[intent.sourceResultId := IntentClaim(intent.intentId)],
                 intents := s.intents[intent.intentId := intent],
                 intentByResult := s.intentByResult[intent.sourceResultId := intent.intentId],
                 intentBySlot := s.intentBySlot[SlotOf(intent) := intent.intentId]),
              Ok(intent))
  }

  // ------------------------------------------------------------- directory

  /** What the directory shows of a seller intent: everything but its private floor. */
  datatype Entry = Entry(
    intentId: Id, agentId: Id, displayName: string, good: Good,
    publicPrice: int, failedNegotiations: int, expiresAt: int)

  function Shown(i: Intent): Entry {
    Entry(i.intentId, i.agentId, i.displayName, i.good, i.publicPrice, i.failedNegotiations, i.expiresAt)
  }

  /** The chain of filters of the directory, for one candidate. */
  predicate Listed(s: Market, requester: Intent, candidate: Intent, observedAt: int) {
    && candidate.side == Sell
    && candidate.gameId == requester.gameId
    && candidate.roundId == requester.roundId
    && candidate.participantId != requester.participantId
    && candidate.good == requester.good
    && candidate.expiresAt > observedAt
    && requester.limitPrice >= candidate.limitPrice
    && SlotOf(candidate) !in s.reserved
  }

  predicate WireChar(c: char) {
    'A' <= c <= 'Z' || 'a' <= c <= 'z' || '0' <= c <= '9'
  }

  /** The identifiers a wire record may carry: fewer than the oracle itself admits. */
  predicate WireIdentifier(s: string) {
    && 0 < |s| <= 256 && WireChar(s[0])
    && forall i | 0 <= i < |s| :: WireChar(s[i]) || s[i] == '.' || s[i] == '_' || s[i] == ':' || s[i] == '-'
  }

  /** A wire entry can be made of the intent: its price prints and its identifiers fit. */
  predicate Showable(i: Intent) {
    0 < i.publicPrice <= Money.MAX_GOLD_ATOMIC && WireIdentifier(i.intentId.text) && WireIdentifier(i.agentId.text)
  }

  /** The directory's own identifiers fit. */
  predicate SessionFits(i: Intent) {
    && WireIdentifier(i.gameId.text) && WireIdentifier(i.roundId.text)
    && WireIdentifier("market:" + i.gameId.text + ":" + i.roundId.text)
  }

  /** Everything the requester would be shown can be shown. */
  predicate Publishable(s: Market, requester: Intent, observedAt: int) {
    SessionFits(requester) && forall i | i in s.intents && Listed(s, requester, s.intents[i], observedAt) :: Showable(s.intents[i])
  }

  /** One listed intent that cannot be shown takes the whole directory down. */
  function DirectoryError(s: Market, requesterId: Id, observedAt: int): Option<MarketError> {
    if requesterId !in s.intents then Some(IntentNotFound)
    else if s.intents[requesterId].side != Buy then Some(OnlyBuyersDiscover)
    else if s.intents[requesterId].expiresAt <= observedAt then Some(RequesterExpired)
    else if !Publishable(s, s.intents[requesterId], observedAt) then Some(NotPublishable)
    else None
  }

  // -------------------------------------------------------------- requests

  function CounterpartyError(buyer: Intent, seller: Intent): Option<MarketError> {
    if buyer.side != Buy || seller.side != Sell then Some(SidesMismatch)
    else if buyer.participantId == seller.participantId then Some(SelfNegotiation)
    else if buyer.gameId != seller.gameId || buyer.roundId != seller.roundId then Some(RoundMismatch)
    else if buyer.good != seller.good then Some(GoodMismatch)
    else if buyer.limitPrice < seller.limitPrice then Some(LimitsDoNotOverlap)
    else None
  }

  predicate HasOpenRequest(requests: map<Id, Tracked>, buyerIntentId: Id) {
    exists q :: q in requests && requests[q].request.buyerIntentId == buyerIntentId && Open(requests[q])
  }

  /** The seller intents a buyer intent has asked. */
  function Targets(targetsByBuyer: map<Id, set<Id>>, buyerIntentId: Id): set<Id> {
    if buyerIntentId in targetsByBuyer then targetsByBuyer[buyerIntentId] else {}
  }

  /** The checks on one request of a batch, in source order. */
  function RequestError(s: Market, request: Request): Option<MarketError>
    requires request.buyerIntentId in s.intents
  {
    var buyer := s.intents[request.buyerIntentId];
    if request.requestId in s.requests then Some(RequestIdReused)
    else if request.sellerIntentId !in s.intents then Some(IntentNotFound)
    else
      var seller := s.intents[request.sellerIntentId];
      if CounterpartyError(buyer, seller).Some? then CounterpartyError(buyer, seller)
      else if request.createdAt >= buyer.expiresAt || request.createdAt >= seller.expiresAt then Some(ExpiredIntent)
      else if request.openingPrice > buyer.limitPrice then Some(OpeningAboveCeiling)
      else if SlotOf(buyer) in s.reserved || SlotOf(seller) in s.reserved then Some(Busy)
      else if seller.intentId in Targets(s.targetsByBuyer, buyer.intentId) then Some(SellerAlreadyAsked)
      else None
  }

  /** Every check of a submission that is not a replay. */
  function SubmitError(s: Market, request: Request): Option<MarketError> {
    if request.buyerIntentId !in s.intents then Some(IntentNotFound)
    else
      var buyer := s.intents[request.buyerIntentId];
      if HasOpenRequest(s.requests, buyer.intentId) then Some(UnresolvedRfq)
      else if |Targets(s.targetsByBuyer, buyer.intentId)| + 1 > s.maxOutboundRfq then Some(RfqBudgetExhausted)
      else RequestError(s, request)
  }

  function Recorded(s: Market, request: Request): Market
    requires request.buyerIntentId in s.intents
  {
    var buyer := s.intents[request.buyerIntentId];
    s.(claims := s.claims[request.sourceResultId := RfqClaim(request.sourceResultId)],
       requests := s.requests[request.requestId := Tracked(request, Pending, None)],
       targetsByBuyer :=
         s.targetsByBuyer[buyer.intentId := Targets(s.targetsByBuyer, buyer.intentId) + {request.sellerIntentId}],
       requestIdsByResult := s.requestIdsByResult[request.sourceResultId := [request.requestId]])
  }

  function Submit(s: Market, batch: seq<Request>): (o: Outcome<seq<Request>>)
    requires Indexed(s)
  {
    if |batch| != 1 then Outcome(s, Err(OneSellerPerRfq))
    else
      var request := batch[0];
      if request.sourceResultId in s.requestIdsByResult then
        var existing := s.requests[s.requestIdsByResult[request.sourceResultId][0]].request;
        if [existing] != batch then Outcome(s, Err(ResultSubmittedAnotherRfq)) else Outcome(s, Ok([existing]))
      else if SubmitError(s, request).Some? then Outcome(s, Err(SubmitError(s, request).value))
      else if !Compatible(s.claims, request.sourceResultId, RfqClaim(request.sourceResultId)) then
        Outcome(s, Err(ResultAuthoredAnotherAction))
      else Outcome(Recorded(s, request), Ok(batch))
  }

  // ----------------------------------------------------------- engagements

  function NewEngagement(s: Market, requestId: Id, selectionResultId: Id): Engagement
    requires requestId in s.requests
    requires s.requests[requestId].request.buyerIntentId in s.intents
    requires s.requests[requestId].request.sellerIntentId in s.intents
  {
    var buyer := s.intents[s.requests[requestId].request.buyerIntentId];
    var seller := s.intents[s.requests[requestId].request.sellerIntentId];
    Engagement(EngagementId(requestId), requestId, buyer.intentId, seller.intentId,
               buyer.participantId, seller.participantId, buyer.good, selectionResultId, Active, None)
  }

  /** May this actor engage this request now? */
  function EngageError(s: Market, actor: Id, requestId: Id): Option<MarketError>
    requires Indexed(s)
  {
    if requestId !in s.requests then Some(RequestNotFound)
    else if s.requests[requestId].status != Pending then Some(RequestNotPending)
    else if s.intents[s.requests[requestId].request.sellerIntentId].participantId != actor then Some(NotTargetSeller)
    else None
  }

  /** The seller engages: both round slots are taken and the request is bound. */
  function Joined(s: Market, requestId: Id, selectionResultId: Id): Market
    requires requestId in s.requests
    requires s.requests[requestId].request.buyerIntentId in s.intents
    requires s.requests[requestId].request.sellerIntentId in s.intents
  {
    var tracked := s.requests[requestId];
    var e := EngagementId(requestId);
    s.(claims := s.claims[selectionResultId := EngageClaim(e)],
       engagements := s.engagements[e := NewEngagement(s, requestId, selectionResultId)],
       engagementBySelection := s.engagementBySelection[selectionResultId := e],
       reserved := s.reserved[SlotOf(s.intents[tracked.request.buyerIntentId]) := e]
                             [SlotOf(s.intents[tracked.request.sellerIntentId]) := e],
       requests := s.requests[requestId := tracked.(status := Engaged, engagementId := Some(e))])
  }

  /** The outcome for a pending request of the right seller: refused as busy, or bound. */
  function EngagePending(s: Market, requestId: Id, selectionResultId: Id): Outcome<Engagement>
    requires requestId in s.requests
    requires s.requests[requestId].request.buyerIntentId in s.intents
    requires s.requests[requestId].request.sellerIntentId in s.intents
  {
    var tracked := s.requests[requestId];
    if SlotOf(s.intents[tracked.request.buyerIntentId]) in s.reserved
       || SlotOf(s.intents[tracked.request.sellerIntentId]) in s.reserved then
      Outcome(s.(requests := s.requests[requestId := tracked.(status := CounterpartyBusy)]), Err(Busy))
    else if !Compatible(s.claims, selectionResultId, EngageClaim(EngagementId(requestId))) then
      Outcome(s, Err(ResultAuthoredAnotherAction))
    else Outcome(Joined(s, requestId, selectionResultId), Ok(NewEngagement(s, requestId, selectionResultId)))
  }

  function Engage(s: Market, actor: Id, requestId: Id, selectionResultId: Id): (o: Outcome<Engagement>)
    requires Indexed(s)
  {
    if !ValidIdentifier(selectionResultId) then Outcome(s, Err(InvalidIdentifier))
    else if selectionResultId in s.engagementBySelection then
      var g := s.engagements[s.engagementBySelection[selectionResultId]];
      if g.requestId != requestId || g.sellerParticipantId != actor then Outcome(s, Err(SelectionReused))
      else Outcome(s, Ok(g))
    else if EngageError(s, actor, requestId).Some? then Outcome(s, Err(EngageError(s, actor, requestId).value))
    else EngagePending(s, requestId, selectionResultId)
  }

  /** The two ways an engagement closes without a Deal. */
  datatype Closing = AgentRejects | ArenaTimesOut

  function ClosedStatus(c: Closing): EngagementStatus {
    match c
    case AgentRejects => Rejected
    case ArenaTimesOut => TimedOut
  }

  /** An Agent rejects with a Result of its own, the Arena times out without one. */
  function CloseError(closing: Closing, source: Option<Id>): Option<MarketError> {
    if closing == AgentRejects && source.None? then Some(RejectionNeedsResult)
    else if closing == ArenaTimesOut && source.Some? then Some(TimeoutHasResult)
    else if source.Some? && !ValidIdentifier(source.value) then Some(InvalidIdentifier)
    else None
  }

  function Released(reserved: map<Slot, EngagementId>, slot: Slot, e: EngagementId): map<Slot, EngagementId> {
    if slot in reserved && reserved[slot] == e then reserved - {slot} else reserved
  }

  /** The engagement ends without a Deal: its request is declined and its slots are free. */
  function Shut(s: Market, e: EngagementId, closing: Closing, source: Option<Id>): Market
    requires Indexed(s) && e in s.engagements
  {
    var g := s.engagements[e];
    s.(claims := if source.Some? then s.claims[source.value := RejectClaim(e)] else s.claims,
       engagements := s.engagements[e := g.(status := ClosedStatus(closing), terminalSourceResultId := source)],
       requests := s.requests[g.requestId := s.requests[g.requestId].(status := Declined)],
       reserved := Released(Released(s.reserved, SlotOf(s.intents[g.buyerIntentId]), g.engagementId),
                            SlotOf(s.intents[g.sellerIntentId]), g.engagementId))
  }

  function Close(s: Market, e: EngagementId, closing: Closing, source: Option<Id>): (o: Outcome<Engagement>)
    requires Indexed(s)
  {
    if e !in s.engagements then Outcome(s, Err(EngagementNotFound))
    else
      var g := s.engagements[e];
      if g.status != Active then
        if g.status == ClosedStatus(closing) && g.terminalSourceResultId == source then Outcome(s, Ok(g))
        else Outcome(s, Err(EngagementTerminal))
      else if CloseError(closing, source).Some? then Outcome(s, Err(CloseError(closing, source).value))
      else if source.Some? && !Compatible(s.claims, source.value, RejectClaim(e)) then
        Outcome(s, Err(ResultAuthoredAnotherAction))
      else
        Outcome(Shut(s, e, closing, source), Ok(Shut(s, e, closing, source).engagements[e]))
  }

  // ----------------------------------------------------------------- deals

  /** The arguments of freeze_deal. */
  datatype Acceptance = Acceptance(
    engagementId: EngagementId, proposalResultId: Id, proposerId: Id,
    acceptanceResultId: Id, accepterId: Id, unitPrice: int)

  predicate BindsOpening(s: Market, a: Acceptance)
    requires a.engagementId in s.engagements && s.engagements[a.engagementId].requestId in s.requests
  {
    a.proposalResultId == s.requests[s.engagements[a.engagementId].requestId].request.sourceResultId
  }

  function DealClaims(s: Market, a: Acceptance): Claims
    requires a.engagementId in s.engagements && s.engagements[a.engagementId].requestId in s.requests
  {
    var accepted := (a.acceptanceResultId, AcceptanceClaim(a.engagementId));
    if BindsOpening(s, a) then [accepted]
    else [(a.proposalResultId, ProposalClaim(a.engagementId)), accepted]
  }

  function IdentifierError(a: Acceptance): Option<MarketError> {
    if !ValidIdentifier(a.proposalResultId) || !ValidIdentifier(a.proposerId)
       || !ValidIdentifier(a.acceptanceResultId) || !ValidIdentifier(a.accepterId) then Some(InvalidIdentifier)
    else if a.proposalResultId == a.acceptanceResultId then Some(SameProposalAndAcceptance)
    else None
  }

  /** The checks on the terms of a Deal, given the engagement they would close. */
  function TermsError(g: Engagement, buyer: Intent, seller: Intent, request: Request, a: Acceptance): Option<MarketError> {
    if g.status != Active then Some(EngagementNotActive)
    else if {a.proposerId, a.accepterId} != {g.buyerParticipantId, g.sellerParticipantId} then
      Some(NotOppositeParties)
    else if a.proposalResultId == request.sourceResultId
            && (a.proposerId != buyer.participantId || a.unitPrice != request.openingPrice) then
      Some(BindingOpeningChanged)
    else if a.unitPrice <= 0 || a.unitPrice > buyer.limitPrice || a.unitPrice < seller.limitPrice then
      Some(PriceOutsideLimits)
    else None
  }

  predicate SameTerms(deal: Deal, a: Acceptance) {
    && deal.latestProposalResultId == a.proposalResultId && deal.acceptanceResultId == a.acceptanceResultId
    && deal.unitPrice == a.unitPrice && deal.acceptedByParticipantId == a.accepterId
  }

  /** Every check of an acceptance on an engagement without a Deal. */
  function FreezeError(s: Market, a: Acceptance): Option<MarketError>
    requires Indexed(s) && a.engagementId in s.engagements
  {
    var g := s.engagements[a.engagementId];
    TermsError(g, s.intents[g.buyerIntentId], s.intents[g.sellerIntentId], s.requests[g.requestId].request, a)
  }

  function NewDeal(s: Market, a: Acceptance): Deal
    requires a.engagementId in s.engagements
  {
    var g := s.engagements[a.engagementId];
    Deal(DealId(a.engagementId), a.engagementId, g.requestId, g.buyerParticipantId, g.sellerParticipantId,
         g.good, 1, a.unitPrice, a.proposalResultId, a.acceptanceResultId, a.accepterId)
  }

  function Frozen(s: Market, a: Acceptance): Market
    requires Indexed(s) && a.engagementId in s.engagements
  {
    s.(claims := Claimed(s.claims, DealClaims(s, a)),
       deals := s.deals[DealId(a.engagementId) := NewDeal(s, a)],
       engagements := s.engagements[a.engagementId := s.engagements[a.engagementId].(
         status := AcceptedPendingSettlement, terminalSourceResultId := Some(a.acceptanceResultId))])
  }

  function Freeze(s: Market, a: Acceptance): (o: Outcome<Deal>)
    requires Indexed(s)
  {
    if IdentifierError(a).Some? then Outcome(s, Err(IdentifierError(a).value))
    else if a.engagementId !in s.engagements then Outcome(s, Err(EngagementNotFound))
    else if DealId(a.engagementId) in s.deals then
      if SameTerms(s.deals[DealId(a.engagementId)], a) then Outcome(s, Ok(s.deals[DealId(a.engagementId)]))
      else Outcome(s, Err(DealImmutable))
    else if FreezeError(s, a).Some? then Outcome(s, Err(FreezeError(s, a).value))
    else if !Claimable(s.claims, DealClaims(s, a)) then Outcome(s, Err(ResultAuthoredAnotherAction))
    else Outcome(Frozen(s, a), Ok(NewDeal(s, a)))
  }
}
