/** The market's laws in the fields of its records: who is busy in which round, and exactly when each call
    succeeds and what it leaves behind. */
module MarketInFields {
  import opened Wrappers
  import opened Goods
  import opened A2aMarket
  import opened MarketInvariant
  import opened MarketRuns
  import opened MarketTheorems

  // ----------------------------------------------------- participants and rounds

  /** The two intents belong to one participant in one round of one game. */
  ghost predicate SameSeat(i: Intent, j: Intent) {
    i.gameId == j.gameId && i.roundId == j.roundId && i.participantId == j.participantId
  }

  lemma SeatIsSlot(i: Intent, j: Intent)
    ensures SlotOf(i) == SlotOf(j) <==> SameSeat(i, j)
  {
  }

  lemma OneIntentPerSeat(s: Market, i: Id, j: Id)
    requires Inv(s) && i in s.intents && j in s.intents && SameSeat(s.intents[i], s.intents[j])
    ensures i == j
  {
    hide Indexed, TalksOk, ClaimsOk, RequestsOk, RequestIndexOk, TargetsOk, OneOpenRequest, DistinctSellers, SlotOf;
    SeatIsSlot(s.intents[i], s.intents[j]);
  }

  /** After any run a participant has at most one intent in a round of a game. */
  lemma OneIntentPerParticipantAndRound(maxOutboundRfq: nat, run: seq<Call>, i: Id, j: Id)
    requires i in Reached(maxOutboundRfq, run).intents && j in Reached(maxOutboundRfq, run).intents
    requires var s := Reached(maxOutboundRfq, run);
             s.intents[i].gameId == s.intents[j].gameId && s.intents[i].roundId == s.intents[j].roundId
             && s.intents[i].participantId == s.intents[j].participantId
    ensures i == j
  {
    hide After, Inv;
    OneIntentPerSeat(Reached(maxOutboundRfq, run), i, j);
  }

  /** The engagement is active or accepted, and one of its two intents has this seat. */
  ghost predicate Occupies(s: Market, e: EngagementId, i: Intent) {
    && e in s.engagements
    && (s.engagements[e].status == Active || s.engagements[e].status == AcceptedPendingSettlement)
    && s.engagements[e].buyerIntentId in s.intents && s.engagements[e].sellerIntentId in s.intents
    && (SameSeat(s.intents[s.engagements[e].buyerIntentId], i) || SameSeat(s.intents[s.engagements[e].sellerIntentId], i))
  }

  ghost predicate Busy(s: Market, i: Intent) {
    exists e :: Occupies(s, e, i)
  }

  lemma OccupantHoldsSlot(s: Market, e: EngagementId, i: Intent)
    requires Inv(s) && Occupies(s, e, i)
    ensures SlotOf(i) in s.reserved && s.reserved[SlotOf(i)] == e
  {
    hide AsksOk, ClaimsOk, Indexed, EngagementsOk, StatusesOk, SelectionIndexOk, DealsOk, SlotOf;
    var g := s.engagements[e];
    SeatIsSlot(s.intents[g.buyerIntentId], i);
    SeatIsSlot(s.intents[g.sellerIntentId], i);
    assert Live(g) && Names(s.intents, g, SlotOf(i));
  }

  lemma HolderOccupies(s: Market, i: Intent)
    requires Inv(s) && SlotOf(i) in s.reserved
    ensures Occupies(s, s.reserved[SlotOf(i)], i)
  {
    hide AsksOk, ClaimsOk, Indexed, EngagementsOk, StatusesOk, SelectionIndexOk, DealsOk, SlotOf;
    var e := s.reserved[SlotOf(i)];
    assert e in s.engagements && Live(s.engagements[e]) && Names(s.intents, s.engagements[e], SlotOf(i));
    SeatIsSlot(s.intents[s.engagements[e].buyerIntentId], i);
    SeatIsSlot(s.intents[s.engagements[e].sellerIntentId], i);
  }

  /** A round slot is taken exactly while some live engagement occupies that seat. */
  lemma ReservedMeansBusy(s: Market, i: Intent)
    requires Inv(s)
    ensures SlotOf(i) in s.reserved <==> Busy(s, i)
  {
    hide Inv, SlotOf, Occupies;
    if SlotOf(i) in s.reserved {
      HolderOccupies(s, i);
    }
    if e :| Occupies(s, e, i) {
      OccupantHoldsSlot(s, e, i);
    }
  }

  /** The two engagements are live and share a seat, so they are one. */
  lemma OneEngagementPerSeat(s: Market, d: EngagementId, e: EngagementId, i: Intent)
    requires Inv(s) && Occupies(s, d, i) && Occupies(s, e, i)
    ensures d == e
  {
    hide Inv, SlotOf, Occupies;
    OccupantHoldsSlot(s, d, i);
    OccupantHoldsSlot(s, e, i);
  }

  /** The deal trades for this participant in this round of this game. */
  ghost predicate TradesFor(s: Market, d: DealId, gameId: Id, roundId: Id, participantId: Id) {
    && d in s.deals && s.deals[d].requestId in s.requests
    && (participantId == s.deals[d].buyerParticipantId || participantId == s.deals[d].sellerParticipantId)
    && var request := s.requests[s.deals[d].requestId].request;
       && request.buyerIntentId in s.intents
       && s.intents[request.buyerIntentId].gameId == gameId && s.intents[request.buyerIntentId].roundId == roundId
  }

  lemma TradingOccupies(s: Market, d: DealId, i: Intent)
    requires Inv(s) && TradesFor(s, d, i.gameId, i.roundId, i.participantId)
    ensures Occupies(s, s.deals[d].engagementId, i) && d == DealId(s.deals[d].engagementId)
  {
    hide ClaimsOk, Indexed, IntentsOk, RequestIndexOk, TargetsOk, OneOpenRequest, DistinctSellers,
         StatusesOk, SelectionIndexOk, SlotsOk;
    var e := s.deals[d].engagementId;
    var g := s.engagements[e];
    assert EngagementOk(s.intents, s.requests, e, g);
    assert DealOk(s.intents, g, s.requests[g.requestId].request, d, s.deals[d]);
    assert RequestOk(s.intents, g.requestId, s.requests[g.requestId].request);
  }

  /** After any run a participant is party to at most one Deal in a round of a game. */
  lemma OneDealPerSeat(maxOutboundRfq: nat, run: seq<Call>, d1: DealId, d2: DealId, gameId: Id, roundId: Id, participantId: Id)
    requires TradesFor(Reached(maxOutboundRfq, run), d1, gameId, roundId, participantId)
    requires TradesFor(Reached(maxOutboundRfq, run), d2, gameId, roundId, participantId)
    ensures d1 == d2
  {
    hide After, Inv, Occupies;
    var s := Reached(maxOutboundRfq, run);
    var seat := BUYER.(gameId := gameId, roundId := roundId, participantId := participantId);
    TradingOccupies(s, d1, seat);
    TradingOccupies(s, d2, seat);
    OneEngagementPerSeat(s, s.deals[d1].engagementId, s.deals[d2].engagementId, seat);
  }

  // -------------------------------------------------------------- publishing

  lemma FreshResultIsUnused(s: Market, r: Id)
    requires Inv(s) && r !in s.claims
    ensures r !in s.intentByResult && r !in s.requestIdsByResult && r !in s.engagementBySelection
  {
    hide Indexed, RequestsOk, TargetsOk, OneOpenRequest, DistinctSellers, EngagementsOk, StatusesOk, SlotsOk, DealsOk, DealClaimsOk;
  }

  /** An intent under fresh ids is published exactly when its participant has none in that round of that game. */
  lemma PublishedExactlyWhenFirst(maxOutboundRfq: nat, run: seq<Call>, i: Intent)
    requires var s := Reached(maxOutboundRfq, run); i.intentId !in s.intents && i.sourceResultId !in s.claims
    ensures var s := Reached(maxOutboundRfq, run);
            Publish(s, i).result.Ok? <==>
              !exists j :: j in s.intents && s.intents[j].gameId == i.gameId && s.intents[j].roundId == i.roundId
                           && s.intents[j].participantId == i.participantId
    ensures var s := Reached(maxOutboundRfq, run);
            Publish(s, i).result.Ok? ==> Publish(s, i).state.intents == s.intents[i.intentId := i] && Publish(s, i).result.value == i
  {
    hide After, Inv, Indexed, SlotOf;
    var s := Reached(maxOutboundRfq, run);
    FreshResultIsUnused(s, i.sourceResultId);
    SlotTakenBySeat(s, i);
  }

  lemma SlotTakenBySeat(s: Market, i: Intent)
    requires Inv(s)
    ensures Indexed(s)
    ensures SlotOf(i) in s.intentBySlot <==>
              exists j :: j in s.intents && s.intents[j].gameId == i.gameId && s.intents[j].roundId == i.roundId
                          && s.intents[j].participantId == i.participantId
  {
    hide Indexed, TalksOk, ClaimsOk, RequestsOk, RequestIndexOk, TargetsOk, OneOpenRequest, DistinctSellers, SlotOf;
    if SlotOf(i) in s.intentBySlot {
      SeatIsSlot(s.intents[s.intentBySlot[SlotOf(i)]], i);
    }
    if j :| j in s.intents && s.intents[j].gameId == i.gameId && s.intents[j].roundId == i.roundId
            && s.intents[j].participantId == i.participantId {
      SeatIsSlot(s.intents[j], i);
    }
  }

  // -------------------------------------------------------------- requesting

  ghost predicate Unanswered(t: Tracked) {
    t.status == Pending || t.status == Engaged
  }

  /** The two intents can trade with each other. */
  ghost predicate Counterparts(b: Intent, s: Intent) {
    && b.side == Buy && s.side == Sell && b.participantId != s.participantId
    && b.gameId == s.gameId && b.roundId == s.roundId && b.good == s.good && s.limitPrice <= b.limitPrice
  }

  /** Everything a new request must satisfy. */
  ghost predicate MayAsk(s: Market, q: Request) {
    && q.buyerIntentId in s.intents && q.sellerIntentId in s.intents
    && var b, c := s.intents[q.buyerIntentId], s.intents[q.sellerIntentId];
       && Counterparts(b, c) && q.createdAt < b.expiresAt && q.createdAt < c.expiresAt && q.openingPrice <= b.limitPrice
       && !Busy(s, b) && !Busy(s, c)
       && (forall r | r in RequestsOf(s, q.buyerIntentId) ::
             !Unanswered(s.requests[r]) && s.requests[r].request.sellerIntentId != q.sellerIntentId)
       && |RequestsOf(s, q.buyerIntentId)| < s.maxOutboundRfq
  }

  /** The sellers asked are counted by the requests made. */
  lemma AskedAreCounted(s: Market, b: Id)
    requires Inv(s)
    ensures Targets(s.targetsByBuyer, b) == SellersAsked(s.requests, b) && |Targets(s.targetsByBuyer, b)| == |RequestsOf(s, b)|
  {
    hide Indexed, TalksOk, ClaimsOk, IntentsOk, RequestsOk, RequestIndexOk, OneOpenRequest;
    AskedWithinRequests(s, b);
    InjectiveImageSize(s, RequestsOf(s, b), SellersAsked(s.requests, b));
  }

  lemma OpenMeansUnanswered(s: Market, b: Id)
    ensures HasOpenRequest(s.requests, b) <==> exists r :: r in RequestsOf(s, b) && Unanswered(s.requests[r])
  {
    if HasOpenRequest(s.requests, b) {
      var r :| r in s.requests && s.requests[r].request.buyerIntentId == b && Open(s.requests[r]);
      assert r in RequestsOf(s, b) && Unanswered(s.requests[r]);
    }
  }

  lemma AskedMeansRequested(s: Market, b: Id, c: Id)
    ensures c in SellersAsked(s.requests, b) <==> exists r :: r in RequestsOf(s, b) && s.requests[r].request.sellerIntentId == c
  {
    if c in SellersAsked(s.requests, b) {
      var r :| r in s.requests && s.requests[r].request.buyerIntentId == b && s.requests[r].request.sellerIntentId == c;
      assert r in RequestsOf(s, b);
    }
  }

  lemma CounterpartsMeans(b: Intent, s: Intent)
    ensures CounterpartyError(b, s).None? <==> Counterparts(b, s)
  {
  }

  /** The checks of a request, in the words of the records. */
  lemma CheckedMeansMayAsk(s: Market, q: Request)
    requires Inv(s) && q.requestId !in s.requests
    ensures SubmitError(s, q).None? <==> MayAsk(s, q)
  {
    hide Inv, SlotOf, Busy, HasOpenRequest, Targets, CounterpartyError, Counterparts, RequestsOf, SellersAsked, Unanswered;
    if q.buyerIntentId in s.intents && q.sellerIntentId in s.intents {
      var b, c := q.buyerIntentId, q.sellerIntentId;
      IntentNamesItself(s, b);
      IntentNamesItself(s, c);
      AskedAreCounted(s, b);
      OpenMeansUnanswered(s, b);
      AskedMeansRequested(s, b, c);
      CounterpartsMeans(s.intents[b], s.intents[c]);
      ReservedMeansBusy(s, s.intents[b]);
      ReservedMeansBusy(s, s.intents[c]);
    }
  }

  /** A request under fresh ids is taken exactly when it may be asked, and is then pending as sent. */
  lemma RequestedExactlyWhenAllowed(maxOutboundRfq: nat, run: seq<Call>, q: Request)
    requires var s := Reached(maxOutboundRfq, run); q.requestId !in s.requests && q.sourceResultId !in s.claims
    ensures var s := Reached(maxOutboundRfq, run);
            && (Submit(s, [q]).result.Ok? <==> MayAsk(s, q))
            && (Submit(s, [q]).result.Ok? ==> Submit(s, [q]).state.requests == s.requests[q.requestId := Tracked(q, Pending, None)])
  {
    hide After, Indexed, AsksOk, TalksOk, ClaimsOk, SubmitError, MayAsk;
    var s := Reached(maxOutboundRfq, run);
    FreshResultIsUnused(s, q.sourceResultId);
    CheckedMeansMayAsk(s, q);
  }

  /** What the directory shows a buyer: the live counterparts that are not busy. */
  lemma ListedMeans(s: Market, b: Intent, c: Intent, t: int)
    requires Inv(s) && b.side == Buy
    ensures Listed(s, b, c, t) <==> Counterparts(b, c) && t < c.expiresAt && !Busy(s, c)
  {
    hide Inv, SlotOf, Busy;
    ReservedMeansBusy(s, c);
  }

  // ---------------------------------------------------------------- engaging

  /** The seller of a pending request may answer it when neither side is busy in the round. */
  ghost predicate MayEngage(s: Market, actor: Id, q: Id) {
    && q in s.requests && s.requests[q].status == Pending
    && s.requests[q].request.buyerIntentId in s.intents && s.requests[q].request.sellerIntentId in s.intents
    && s.intents[s.requests[q].request.sellerIntentId].participantId == actor
    && !Busy(s, s.intents[s.requests[q].request.buyerIntentId]) && !Busy(s, s.intents[s.requests[q].request.sellerIntentId])
  }

  /** The engagement is the active one of this request, between the owners of its intents. */
  ghost predicate EngagesRequest(s: Market, g: Engagement, q: Id, r: Id) {
    && q in s.requests && s.requests[q].request.buyerIntentId in s.intents && s.requests[q].request.sellerIntentId in s.intents
    && var b, c := s.intents[s.requests[q].request.buyerIntentId], s.intents[s.requests[q].request.sellerIntentId];
       g == Engagement(EngagementId(q), q, s.requests[q].request.buyerIntentId, s.requests[q].request.sellerIntentId,
                       b.participantId, c.participantId, b.good, r, Active, None)
  }

  /** With a fresh selection result a request is engaged exactly when it may be; both seats are busy afterwards. */
  lemma EngagedExactlyWhenAllowed(maxOutboundRfq: nat, run: seq<Call>, actor: Id, q: Id, r: Id)
    requires r !in Reached(maxOutboundRfq, run).claims
    ensures var s := Reached(maxOutboundRfq, run); var o := Engage(s, actor, q, r);
            && (o.result.Ok? <==> NameFits(r) && MayEngage(s, actor, q))
            && (o.result.Ok? ==>
                  && EngagesRequest(s, o.result.value, q, r)
                  && o.state.engagements == s.engagements[EngagementId(q) := o.result.value]
                  && o.state.requests == s.requests[q := Tracked(s.requests[q].request, Engaged, Some(EngagementId(q)))]
                  && Busy(o.state, s.intents[s.requests[q].request.buyerIntentId])
                  && Busy(o.state, s.intents[s.requests[q].request.sellerIntentId]))
  {
    hide After, AsksOk, TalksOk, ClaimsOk, SlotOf, Busy;
    var s := Reached(maxOutboundRfq, run);
    FreshResultIsUnused(s, r);
    if q in s.requests {
      var b, c := s.requests[q].request.buyerIntentId, s.requests[q].request.sellerIntentId;
      ReservedMeansBusy(s, s.intents[b]);
      ReservedMeansBusy(s, s.intents[c]);
      IntentNamesItself(s, b);
      IntentNamesItself(s, c);
      if NameFits(r) && MayEngage(s, actor, q) {
        EngagingOccupies(s, actor, q, r);
      }
    }
  }

  lemma EngagingOccupies(s: Market, actor: Id, q: Id, r: Id)
    requires Inv(s) && Engage(s, actor, q, r).result.Ok? && r !in s.engagementBySelection
    ensures q in s.requests && s.requests[q].request.buyerIntentId in s.intents && s.requests[q].request.sellerIntentId in s.intents
    ensures var t := Engage(s, actor, q, r).state;
            Busy(t, s.intents[s.requests[q].request.buyerIntentId]) && Busy(t, s.intents[s.requests[q].request.sellerIntentId])
  {
    hide AsksOk, TalksOk, ClaimsOk, SlotOf;
    var t := Engage(s, actor, q, r).state;
    var b, c := s.requests[q].request.buyerIntentId, s.requests[q].request.sellerIntentId;
    IntentNamesItself(s, b);
    IntentNamesItself(s, c);
    assert Occupies(t, EngagementId(q), s.intents[b]) && Occupies(t, EngagementId(q), s.intents[c]);
  }

  // ----------------------------------------------------------------- closing

  /** The length every result and participant id must have. */
  ghost predicate NameFits(id: Id) {
    1 <= |id.text| <= 512
  }

  /** An Agent's rejection carries a result of its own that authored nothing else; a timeout carries none. */
  ghost predicate MayClose(s: Market, e: EngagementId, k: Closing, source: Option<Id>) {
    match k
    case AgentRejects =>
      source.Some? && NameFits(source.value) && (source.value in s.claims ==> s.claims[source.value] == RejectClaim(e))
    case ArenaTimesOut => source.None?
  }

  /** An active engagement closes exactly when it may, as rejected or timed out; its request is declined. */
  lemma ClosedExactlyWhenAllowed(maxOutboundRfq: nat, run: seq<Call>, e: EngagementId, k: Closing, source: Option<Id>)
    requires var s := Reached(maxOutboundRfq, run); e in s.engagements && s.engagements[e].status == Active
    ensures var s := Reached(maxOutboundRfq, run); var o := Close(s, e, k, source);
            && (o.result.Ok? <==> MayClose(s, e, k, source))
            && (o.result.Ok? ==>
                  && o.state.engagements == s.engagements[e := s.engagements[e].(
                       status := if k == AgentRejects then Rejected else TimedOut, terminalSourceResultId := source)]
                  && s.engagements[e].requestId in s.requests
                  && o.state.requests == s.requests[s.engagements[e].requestId :=
                       s.requests[s.engagements[e].requestId].(status := Declined)])
  {
    hide After, AsksOk, TalksOk, ClaimsOk, Indexed, Shut;
    var s := Reached(maxOutboundRfq, run);
    ShutMeans(s, e, k, source);
  }

  lemma ShutMeans(s: Market, e: EngagementId, k: Closing, source: Option<Id>)
    requires Inv(s) && e in s.engagements
    ensures Indexed(s) && s.engagements[e].requestId in s.requests
    ensures var t := Shut(s, e, k, source);
            && t.engagements == s.engagements[e := s.engagements[e].(
                 status := if k == AgentRejects then Rejected else TimedOut, terminalSourceResultId := source)]
            && t.requests == s.requests[s.engagements[e].requestId := s.requests[s.engagements[e].requestId].(status := Declined)]
  {
    hide AsksOk, TalksOk, ClaimsOk, SlotOf, Released;
  }

  /** Closing frees both seats. */
  lemma ClosingFreesBothSeats(maxOutboundRfq: nat, run: seq<Call>, e: EngagementId, k: Closing, source: Option<Id>)
    requires var s := Reached(maxOutboundRfq, run); e in s.engagements && s.engagements[e].status == Active
    requires Close(Reached(maxOutboundRfq, run), e, k, source).result.Ok?
    ensures var s := Reached(maxOutboundRfq, run); var t := Close(s, e, k, source).state;
            && s.engagements[e].buyerIntentId in s.intents && s.engagements[e].sellerIntentId in s.intents
            && !Busy(t, s.intents[s.engagements[e].buyerIntentId]) && !Busy(t, s.intents[s.engagements[e].sellerIntentId])
  {
    hide After, AsksOk, TalksOk, ClaimsOk, SlotOf, Close, Occupies, Indexed, Busy;
    var s := Reached(maxOutboundRfq, run);
    EngagementsAreIndexed(s, e);
    ClosedLeavesNoOccupant(s, e, k, source, s.intents[s.engagements[e].buyerIntentId]);
    ClosedLeavesNoOccupant(s, e, k, source, s.intents[s.engagements[e].sellerIntentId]);
  }

  lemma EngagementsAreIndexed(s: Market, e: EngagementId)
    requires Inv(s) && e in s.engagements
    ensures s.engagements[e].buyerIntentId in s.intents && s.engagements[e].sellerIntentId in s.intents
  {
    hide AsksOk, TalksOk, ClaimsOk;
  }

  lemma ClosedLeavesNoOccupant(s: Market, e: EngagementId, k: Closing, source: Option<Id>, i: Intent)
    requires Inv(s) && e in s.engagements && s.engagements[e].status == Active && Close(s, e, k, source).result.Ok?
    requires Occupies(s, e, i) || (s.engagements[e].buyerIntentId in s.intents && s.engagements[e].sellerIntentId in s.intents
             && (i == s.intents[s.engagements[e].buyerIntentId] || i == s.intents[s.engagements[e].sellerIntentId]))
    ensures !Busy(Close(s, e, k, source).state, i)
  {
    hide Inv, SlotOf, Released;
    InvIsIndexed(s);
    var t := Close(s, e, k, source).state;
    assert t.intents == s.intents && t.engagements.Keys == s.engagements.Keys;
    forall d | Occupies(t, d, i) ensures false {
      assert d != e;
      assert Occupies(s, d, i) && Occupies(s, e, i);
      OneEngagementPerSeat(s, d, e, i);
    }
  }

  lemma InvIsIndexed(s: Market)
    requires Inv(s)
    ensures Indexed(s)
  {
    hide AsksOk, TalksOk, ClaimsOk;
  }

  // ---------------------------------------------------------------- freezing

  /** The terms of an acceptance, in the words of the engagement and its two intents. */
  ghost predicate MayFreeze(s: Market, a: Acceptance) {
    && a.engagementId in s.engagements && s.engagements[a.engagementId].status == Active
    && var g := s.engagements[a.engagementId];
       && g.buyerIntentId in s.intents && g.sellerIntentId in s.intents && g.requestId in s.requests
       && var b, c, q := s.intents[g.buyerIntentId], s.intents[g.sellerIntentId], s.requests[g.requestId].request;
          && {a.proposerId, a.accepterId} == {b.participantId, c.participantId}
          && 0 < a.unitPrice && c.limitPrice <= a.unitPrice <= b.limitPrice
          && (a.proposalResultId == q.sourceResultId ==> a.proposerId == b.participantId && a.unitPrice == q.openingPrice)
  }

  ghost predicate FreshOr(s: Market, r: Id, claim: Claim) {
    r in s.claims ==> s.claims[r] == claim
  }

  /** The results that carry the deal may do so. */
  ghost predicate ResultsFree(s: Market, a: Acceptance) {
    && FreshOr(s, a.acceptanceResultId, AcceptanceClaim(a.engagementId))
    && a.engagementId in s.engagements && s.engagements[a.engagementId].requestId in s.requests
    && (a.proposalResultId == s.requests[s.engagements[a.engagementId].requestId].request.sourceResultId
        || FreshOr(s, a.proposalResultId, ProposalClaim(a.engagementId)))
  }

  ghost predicate ValidNames(a: Acceptance) {
    && NameFits(a.proposalResultId) && NameFits(a.proposerId) && NameFits(a.acceptanceResultId)
    && NameFits(a.accepterId) && a.proposalResultId != a.acceptanceResultId
  }

  lemma TermsMean(s: Market, a: Acceptance)
    requires Inv(s) && a.engagementId in s.engagements
    ensures Indexed(s) && (FreezeError(s, a).None? <==> MayFreeze(s, a))
  {
    hide AsksOk, ClaimsOk, StatusesOk, SelectionIndexOk, SlotsOk, DealsOk, Indexed;
    var g := s.engagements[a.engagementId];
    assert EngagementOk(s.intents, s.requests, a.engagementId, g);
  }

  lemma ClaimsMean(s: Market, a: Acceptance)
    requires a.engagementId in s.engagements && s.engagements[a.engagementId].requestId in s.requests
    requires a.proposalResultId != a.acceptanceResultId
    ensures Claimable(s.claims, DealClaims(s, a)) <==> ResultsFree(s, a)
  {
    hide Claimable;
    var accepted := (a.acceptanceResultId, AcceptanceClaim(a.engagementId));
    var proposed := (a.proposalResultId, ProposalClaim(a.engagementId));
    OneClaim(s.claims, accepted);
    TwoClaims(s.claims, proposed, accepted);
  }

  lemma OneClaim(claims: map<Id, Claim>, x: (Id, Claim))
    ensures Claimable(claims, [x]) <==> Compatible(claims, x.0, x.1)
  {
    assert [x][0] == x;
  }

  lemma TwoClaims(claims: map<Id, Claim>, x: (Id, Claim), y: (Id, Claim))
    requires x.0 != y.0
    ensures Claimable(claims, [x, y]) <==> Compatible(claims, x.0, x.1) && Compatible(claims, y.0, y.1)
  {
    assert [x, y][0] == x && [x, y][1] == y;
  }

  lemma ActiveHasNoDeal(s: Market, e: EngagementId)
    requires Inv(s) && e in s.engagements && s.engagements[e].status == Active
    ensures DealId(e) !in s.deals
  {
    hide AsksOk, ClaimsOk, Indexed, EngagementsOk, StatusesOk, SelectionIndexOk, SlotsOk;
  }

  /** An active engagement is frozen exactly on terms both sides allow, from results that may carry them; the Deal
      names buyer, seller, good, price, results and accepter as given. */
  lemma FrozenExactlyWhenAllowed(maxOutboundRfq: nat, run: seq<Call>, a: Acceptance)
    requires var s := Reached(maxOutboundRfq, run); a.engagementId in s.engagements && s.engagements[a.engagementId].status == Active
    ensures var s := Reached(maxOutboundRfq, run); var o := Freeze(s, a);
            && (o.result.Ok? <==> ValidNames(a) && MayFreeze(s, a) && ResultsFree(s, a))
            && (o.result.Ok? ==>
                  var g := s.engagements[a.engagementId]; var b, c := s.intents[g.buyerIntentId], s.intents[g.sellerIntentId];
                  && o.state.deals == s.deals[DealId(a.engagementId) := o.result.value]
                  && o.result.value == Deal(DealId(a.engagementId), a.engagementId, g.requestId, b.participantId, c.participantId,
                                            b.good, 1, a.unitPrice, a.proposalResultId, a.acceptanceResultId, a.accepterId)
                  && o.state.engagements == s.engagements[a.engagementId := g.(
                       status := AcceptedPendingSettlement, terminalSourceResultId := Some(a.acceptanceResultId))])
  {
    hide After, AsksOk, ClaimsOk, Indexed, StatusesOk, SelectionIndexOk, SlotsOk, DealsOk, FreezeError, DealClaims, Claimable,
         Claimed, ResultsFree, SameTerms;
    var s := Reached(maxOutboundRfq, run);
    var g := s.engagements[a.engagementId];
    assert EngagementOk(s.intents, s.requests, a.engagementId, g);
    TermsMean(s, a);
    ActiveHasNoDeal(s, a.engagementId);
    if a.proposalResultId != a.acceptanceResultId {
      ClaimsMean(s, a);
    }
  }
}
