/** The mutable protocol oracle (arena_game/a2a_market.py): eleven dictionaries updated in
    place. Each method is proved to perform the transition of the same name in A2aMarket and
    to keep the invariant that every theorem about runs rests on. */
module MarketOracle {
  import opened Wrappers
  import opened Goods
  import opened Ordering
  import opened A2aMarket
  import opened MarketInvariant

  lemma {:induction false} ClaimedIsUpdate(claims: map<Id, Claim>, wanted: Claims)
    ensures Claimed(claims, wanted) == claims + Claimed(map[], wanted)
  {
    if wanted != [] { ClaimedIsUpdate(claims, wanted[..|wanted| - 1]); }
  }

  lemma {:induction false} ClaimedHolds(wanted: Claims, r: Id)
    ensures r in Claimed(map[], wanted) <==> exists k :: 0 <= k < |wanted| && wanted[k].0 == r
    ensures r in Claimed(map[], wanted) ==>
              exists k :: 0 <= k < |wanted| && wanted[k] == (r, Claimed(map[], wanted)[r])
  {
    if wanted != [] {
      var last := |wanted| - 1;
      ClaimedHolds(wanted[..last], r);
      assert wanted[last] == (wanted[last].0, wanted[last].1);
      if wanted[last].0 != r && r in Claimed(map[], wanted) {
        var k :| 0 <= k < last && wanted[..last][k] == (r, Claimed(map[], wanted)[r]);
        assert wanted[k] == (r, Claimed(map[], wanted)[r]);
      }
    }
  }

  lemma InvIndexed(s: Market)
    requires Inv(s)
    ensures Indexed(s)
    ensures forall r :: r in s.intentByResult ==> s.intentByResult[r] in s.intents
    ensures forall r :: r in s.requestIdsByResult ==>
              |s.requestIdsByResult[r]| == 1 && s.requestIdsByResult[r][0] in s.requests
    ensures forall r :: r in s.engagementBySelection ==> s.engagementBySelection[r] in s.engagements
  {
    hide AsksOk, TalksOk, ClaimsOk;
  }

  lemma RequestIndexed(s: Market, q: Id)
    requires Indexed(s) && q in s.requests
    ensures s.requests[q].request.buyerIntentId in s.intents && s.requests[q].request.sellerIntentId in s.intents
  {
  }

  lemma EngagementIndexed(s: Market, e: EngagementId)
    requires Indexed(s) && e in s.engagements
    ensures s.engagements[e].requestId in s.requests
    ensures s.engagements[e].buyerIntentId in s.intents && s.engagements[e].sellerIntentId in s.intents
  {
  }

  lemma EngagementKnowsItself(s: Market, e: EngagementId)
    requires Inv(s) && e in s.engagements
    ensures s.engagements[e].engagementId == e
  {
    hide AsksOk, ClaimsOk, StatusesOk, SelectionIndexOk, SlotsOk, DealsOk, Indexed;
    assert EngagementOk(s.intents, s.requests, e, s.engagements[e]);
  }

  lemma SingleClaim(claims: map<Id, Claim>, r: Id, claim: Claim)
    ensures Claimable(claims, [(r, claim)]) <==> Compatible(claims, r, claim)
    ensures Claimed(claims, [(r, claim)]) == claims[r := claim]
  {
    var one := [(r, claim)];
    assert one[..0] == [] && one[0] == (r, claim);
    assert Claimed(claims, []) == claims;
  }

  /** The entry shows everything of the intent but its limit and its message. */
  ghost predicate Displays(e: Entry, i: Intent) {
    && e.intentId == i.intentId && e.agentId == i.agentId && e.displayName == i.displayName && e.good == i.good
    && e.publicPrice == i.publicPrice && e.failedNegotiations == i.failedNegotiations && e.expiresAt == i.expiresAt
  }

  lemma ShownDisplays(e: Entry, i: Intent)
    ensures Displays(e, i) <==> e == Shown(i)
  {
  }

  /** The entries are exactly what is listed of these intents. */
  ghost predicate ShowsAll(entries: seq<Entry>, s: Market, ids: set<Id>, requester: Intent, observedAt: int)
    requires ids <= s.intents.Keys
  {
    forall e :: e in entries <==> exists i :: i in ids && Listed(s, requester, s.intents[i], observedAt) && Displays(e, s.intents[i])
  }

  lemma ShowsOneMore(entries: seq<Entry>, s: Market, ids: set<Id>, requester: Intent, observedAt: int, i: Id)
    requires ids <= s.intents.Keys && i in s.intents && ShowsAll(entries, s, ids, requester, observedAt)
    ensures ShowsAll(if Listed(s, requester, s.intents[i], observedAt) then entries + [Shown(s.intents[i])] else entries,
                     s, ids + {i}, requester, observedAt)
  {
    hide Listed, Shown, Displays;
    var more := if Listed(s, requester, s.intents[i], observedAt) then entries + [Shown(s.intents[i])] else entries;
    forall e
      ensures e in more <==>
                exists j :: j in ids + {i} && Listed(s, requester, s.intents[j], observedAt) && Displays(e, s.intents[j])
    {
      ShownDisplays(e, s.intents[i]);
      assert e in more <==> e in entries || (Listed(s, requester, s.intents[i], observedAt) && e == Shown(s.intents[i]));
      if e in entries {
        var j :| j in ids && Listed(s, requester, s.intents[j], observedAt) && Displays(e, s.intents[j]);
        assert j in ids + {i};
      } else if e in more {
        assert i in ids + {i};
      }
    }
  }

  lemma SortedIsDirectory(entries: seq<Entry>, expiry: int, s: Market, requester: Intent, observedAt: int)
    requires DistinctIds(entries) && ShowsAll(entries, s, s.intents.Keys, requester, observedAt)
    requires Shortest(expiry, requester, entries)
    ensures IsDirectory(SortBy(entries, EntryKey), expiry, s, requester, observedAt)
  {
    hide Less, SortBy, ShowsAll;
    var sorted := SortBy(entries, EntryKey);
    SortBySorts(entries, EntryKey);
    ReorderedHasTheSame(entries, sorted);
    ReorderedIdsDiffer(entries, sorted);
    ShowsTheSame(entries, sorted, s, s.intents.Keys, requester, observedAt);
  }

  lemma ShowsTheSame(a: seq<Entry>, b: seq<Entry>, s: Market, ids: set<Id>, requester: Intent, observedAt: int)
    requires ids <= s.intents.Keys && ShowsAll(a, s, ids, requester, observedAt) && forall e :: e in a <==> e in b
    ensures ShowsAll(b, s, ids, requester, observedAt)
  {
    hide Listed;
  }

  /** No intent is shown twice. */
  ghost predicate DistinctIds(entries: seq<Entry>) {
    forall j, k | 0 <= j < k < |entries| :: entries[j].intentId != entries[k].intentId
  }

  /** The earliest expiry of the requester and of everything shown. */
  ghost predicate Shortest(expiry: int, requester: Intent, entries: seq<Entry>) {
    && expiry <= requester.expiresAt && (forall e | e in entries :: expiry <= e.expiresAt)
    && (expiry == requester.expiresAt || exists e :: e in entries && e.expiresAt == expiry)
  }

  lemma ShortestWithOneMore(expiry: int, requester: Intent, entries: seq<Entry>, e: Entry)
    requires Shortest(expiry, requester, entries)
    ensures Shortest(if e.expiresAt < expiry then e.expiresAt else expiry, requester, entries + [e])
  {
    var next := if e.expiresAt < expiry then e.expiresAt else expiry;
    assert e in entries + [e];
    if next != requester.expiresAt && next == expiry && !(e.expiresAt < expiry) {
      var x :| x in entries && x.expiresAt == expiry;
      assert x in entries + [e];
    }
  }

  /** What the loop has gathered from the intents it is done with. */
  ghost predicate Collected(entries: seq<Entry>, expiry: int, s: Market, done: set<Id>, requester: Intent, observedAt: int)
    requires done <= s.intents.Keys
  {
    && ShowsAll(entries, s, done, requester, observedAt) && Shortest(expiry, requester, entries)
    && DistinctIds(entries) && (forall k | 0 <= k < |entries| :: entries[k].intentId in done)
    && (forall i | i in done && Listed(s, requester, s.intents[i], observedAt) :: Showable(s.intents[i]))
  }

  lemma NothingCollected(s: Market, requester: Intent, observedAt: int)
    ensures Collected([], requester.expiresAt, s, {}, requester, observedAt)
  {
  }

  lemma CollectListed(entries: seq<Entry>, expiry: int, s: Market, done: set<Id>, requester: Intent, observedAt: int, i: Id)
    requires done <= s.intents.Keys && i in s.intents && i !in done && s.intents[i].intentId == i
    requires Collected(entries, expiry, s, done, requester, observedAt)
    requires Listed(s, requester, s.intents[i], observedAt) && Showable(s.intents[i])
    ensures var e := Shown(s.intents[i]);
            Collected(entries + [e], if e.expiresAt < expiry then e.expiresAt else expiry, s, done + {i}, requester, observedAt)
  {
    hide Listed, Showable, ShowsAll, Shortest;
    ShowsOneMore(entries, s, done, requester, observedAt, i);
    ShortestWithOneMore(expiry, requester, entries, Shown(s.intents[i]));
  }

  lemma CollectUnlisted(entries: seq<Entry>, expiry: int, s: Market, done: set<Id>, requester: Intent, observedAt: int, i: Id)
    requires done <= s.intents.Keys && i in s.intents && !Listed(s, requester, s.intents[i], observedAt)
    requires Collected(entries, expiry, s, done, requester, observedAt)
    ensures Collected(entries, expiry, s, done + {i}, requester, observedAt)
  {
    hide Listed, Showable, ShowsAll, Shortest;
    ShowsOneMore(entries, s, done, requester, observedAt, i);
  }

  lemma CollectedMeans(entries: seq<Entry>, expiry: int, s: Market, requester: Intent, observedAt: int)
    requires Collected(entries, expiry, s, s.intents.Keys, requester, observedAt)
    ensures ShowsAll(entries, s, s.intents.Keys, requester, observedAt) && Shortest(expiry, requester, entries)
    ensures DistinctIds(entries)
    ensures forall i | i in s.intents && Listed(s, requester, s.intents[i], observedAt) :: Showable(s.intents[i])
  {
    hide Listed, Showable, ShowsAll, Shortest;
  }

  /** Entries that come from different intents have different ids, in whatever order. */
  lemma ReorderedIdsDiffer(a: seq<Entry>, b: seq<Entry>)
    requires DistinctIds(a) && multiset(a) == multiset(b)
    ensures DistinctIds(b)
  {
    ReorderedStaysDistinct(a, b);
    ReorderedHasTheSame(a, b);
    forall j, k | 0 <= j < k < |b| ensures b[j].intentId != b[k].intentId {
      assert b[j] in a && b[k] in a;
    }
  }

  /** What the directory answers with: everything listed, once, by id, until the first of them expires. */
  ghost predicate IsDirectory(entries: seq<Entry>, expiry: int, s: Market, requester: Intent, observedAt: int) {
    && SortedBy(entries, EntryKey) && DistinctIds(entries)
    && ShowsAll(entries, s, s.intents.Keys, requester, observedAt)
    && Shortest(expiry, requester, entries)
  }

  function EntryKey(e: Entry): Key {
    Key(0, e.intentId.text)
  }

  class AgentDrivenMarket {
    const maxOutboundRfq: nat
    var resultClaims: map<Id, Claim>
    var intents: map<Id, Intent>
    var intentByParticipantRound: map<Slot, Id>
    var intentByResult: map<Id, Id>
    var requests: map<Id, Tracked>
    var requestIdsByResult: map<Id, seq<Id>>
    var requestTargetsByBuyer: map<Id, set<Id>>
    var engagements: map<EngagementId, Engagement>
    var engagementBySelectionResult: map<Id, EngagementId>
    var reservedSlots: map<Slot, EngagementId>
    var deals: map<DealId, Deal>

    /** The eleven dictionaries as one value. */
    function View(): Market
      reads this
    {
      Market(maxOutboundRfq, resultClaims, intents, intentByParticipantRound, intentByResult, requests,
             requestIdsByResult, requestTargetsByBuyer, engagements, engagementBySelectionResult,
             reservedSlots, deals)
    }

    ghost predicate Valid()
      reads this
    {
      Inv(View())
    }

    constructor (maxOutbound: nat)
      requires 1 <= maxOutbound <= MAX_OUTBOUND_RFQ
      ensures Valid() && View() == Empty(maxOutbound)
    {
      maxOutboundRfq := maxOutbound;
      resultClaims, intents, intentByParticipantRound, intentByResult := map[], map[], map[], map[];
      requests, requestIdsByResult, requestTargetsByBuyer := map[], map[], map[];
      engagements, engagementBySelectionResult, reservedSlots, deals := map[], map[], map[], map[];
      new;
      EmptyInv(maxOutbound);
    }

    /** Grant a batch of claims atomically: all of them, or none. */
    method ClaimResults(wanted: Claims) returns (ok: bool)
      modifies `resultClaims
      ensures ok <==> Claimable(old(resultClaims), wanted)
      ensures resultClaims == if ok then Claimed(old(resultClaims), wanted) else old(resultClaims)
    {
      var pending: map<Id, Claim> := map[];
      for k := 0 to |wanted|
        invariant resultClaims == old(resultClaims)
        invariant pending == Claimed(map[], wanted[..k]) && Claimable(resultClaims, wanted[..k])
      {
        var (r, claim) := wanted[k];
        ClaimedHolds(wanted[..k], r);
        if (r in pending && pending[r] != claim) || (r in resultClaims && resultClaims[r] != claim) {
          if r in pending && pending[r] != claim {
            ghost var j :| 0 <= j < k && wanted[..k][j] == (r, pending[r]);
            assert wanted[j].0 == wanted[k].0 && wanted[j].1 != wanted[k].1;
          } else {
            assert !Compatible(resultClaims, wanted[k].0, wanted[k].1);
          }
          return false;
        }
        forall j | 0 <= j < k && wanted[j].0 == r
          ensures wanted[j].1 == claim
        {
          assert wanted[..k][j] == wanted[j];
          assert r in pending;
          var i :| 0 <= i < k && wanted[..k][i] == (r, pending[r]);
        }
        assert wanted[..k + 1][..k] == wanted[..k];
        pending := pending[r := claim];
      }
      assert wanted[..|wanted|] == wanted;
      ClaimedIsUpdate(resultClaims, wanted);
      resultClaims := resultClaims + pending;
      ok := true;
    }

    method PublishIntent(intent: Intent) returns (r: Result<Intent, MarketError>)
      requires Valid()
      modifies this
      ensures Valid()
      ensures View() == Publish(old(View()), intent).state && r == Publish(old(View()), intent).result
    {
      hide Inv, Indexed, SlotOf;
      PublishKeepsInv(View(), intent);
      InvIndexed(View());
      if intent.sourceResultId in intentByResult {
        var existing := intents[intentByResult[intent.sourceResultId]];
        return if existing != intent then Err(ResultPublishedAnotherIntent) else Ok(existing);
      }
      if intent.intentId in intents {
        return if intents[intent.intentId] != intent then Err(IntentIdReused) else Ok(intents[intent.intentId]);
      }
      var participantKey := SlotOf(intent);
      if participantKey in intentByParticipantRound {
        return Err(ParticipantAlreadyPublished);
      }
      SingleClaim(resultClaims, intent.sourceResultId, IntentClaim(intent.intentId));
      var ok := ClaimResults([(intent.sourceResultId, IntentClaim(intent.intentId))]);
      if !ok {
        return Err(ResultAuthoredAnotherAction);
      }
      RecordIntent(intent, participantKey);
      r := Ok(intent);
    }

    /** The effects of a granted intent, once its claim is taken. */
    method RecordIntent(intent: Intent, participantKey: Slot)
      modifies this
      ensures View() == old(View()).(
                intents := old(intents)[intent.intentId := intent],
                intentByResult := old(intentByResult)[intent.sourceResultId := intent.intentId],
                intentBySlot := old(intentByParticipantRound)[participantKey := intent.intentId])
    {
      intents := intents[intent.intentId := intent];
      intentByResult := intentByResult[intent.sourceResultId := intent.intentId];
      intentByParticipantRound := intentByParticipantRound[participantKey := intent.intentId];
    }

    /** An unranked snapshot of the seller intents this buyer could ask now; it never shows a
        private floor, and it fails as a whole if one of them cannot be shown. */
    method PublicDirectory(requesterId: Id, observedAt: int)
      returns (r: Result<(seq<Entry>, int), MarketError>)
      requires Valid()
      ensures r.Err? <==> DirectoryError(View(), requesterId, observedAt).Some?
      ensures r.Err? ==> r.error == DirectoryError(View(), requesterId, observedAt).value
      ensures r.Ok? ==> requesterId in intents && IsDirectory(r.value.0, r.value.1, View(), intents[requesterId], observedAt)
    {
      hide Inv, Listed, Less, IsDirectory, Showable, SessionFits;
      if requesterId !in intents { return Err(IntentNotFound); }
      var requester := intents[requesterId];
      if requester.side != Buy { return Err(OnlyBuyersDiscover); }
      if requester.expiresAt <= observedAt { return Err(RequesterExpired); }
      var found, expiry := CollectEntries(requester, observedAt);
      if found.None? || !SessionFits(requester) { return Err(NotPublishable); }
      var entries := found.value;
      var sorted := SortBy(entries, EntryKey);
      SortedIsDirectory(entries, expiry, View(), requester, observedAt);
      r := Ok((sorted, expiry));
    }

    /** The loop of the directory; the first listed intent that cannot be shown ends it. */
    method CollectEntries(requester: Intent, observedAt: int) returns (found: Option<seq<Entry>>, expiry: int)
      requires Valid()
      ensures found.Some? <==>
                forall i | i in intents && Listed(View(), requester, intents[i], observedAt) :: Showable(intents[i])
      ensures found.Some? ==>
                && DistinctIds(found.value) && ShowsAll(found.value, View(), intents.Keys, requester, observedAt)
                && Shortest(expiry, requester, found.value)
    {
      hide Inv, Listed, Shown, Collected, Showable;
      var entries: seq<Entry> := [];
      expiry := requester.expiresAt;
      var rest := intents.Keys;
      NothingCollected(View(), requester, observedAt);
      assert intents.Keys - rest == {};
      while rest != {}
        invariant rest <= intents.Keys
        invariant Collected(entries, expiry, View(), intents.Keys - rest, requester, observedAt)
        decreases |rest|
      {
        var i :| i in rest;
        var candidate := intents[i];
        assert intents.Keys - rest + {i} == intents.Keys - (rest - {i});
        if Listed(View(), requester, candidate, observedAt) {
          if !Showable(candidate) { return None, expiry; }
          IntentNamesItself(View(), i);
          CollectListed(entries, expiry, View(), intents.Keys - rest, requester, observedAt, i);
          entries := entries + [Shown(candidate)];
          if Shown(candidate).expiresAt < expiry { expiry := Shown(candidate).expiresAt; }
        } else {
          CollectUnlisted(entries, expiry, View(), intents.Keys - rest, requester, observedAt, i);
        }
        rest := rest - {i};
      }
      assert intents.Keys - rest == intents.Keys;
      CollectedMeans(entries, expiry, View(), requester, observedAt);
      found := Some(entries);
    }

    method SubmitRequests(batch: seq<Request>) returns (r: Result<seq<Request>, MarketError>)
      requires Valid()
      modifies this
      ensures Valid()
      ensures View() == Submit(old(View()), batch).state && r == Submit(old(View()), batch).result
    {
      hide Inv, Indexed, SubmitError, SlotOf;
      SubmitKeepsInv(View(), batch);
      InvIndexed(View());
      if |batch| != 1 { return Err(OneSellerPerRfq); }
      var request := batch[0];
      var sourceResultId := request.sourceResultId;
      if sourceResultId in requestIdsByResult {
        var existing := [requests[requestIdsByResult[sourceResultId][0]].request];
        return if existing != batch then Err(ResultSubmittedAnotherRfq) else Ok(existing);
      }
      var error := CheckRequest(request);
      if error.Some? { return Err(error.value); }
      var buyer := intents[request.buyerIntentId];
      var targets := Targets(requestTargetsByBuyer, buyer.intentId);
      SingleClaim(resultClaims, sourceResultId, RfqClaim(sourceResultId));
      var ok := ClaimResults([(sourceResultId, RfqClaim(sourceResultId))]);
      if !ok { return Err(ResultAuthoredAnotherAction); }
      RecordRequest(request, buyer.intentId, targets);
      r := Ok(batch);
    }

    /** Scan the requests for one of this buyer that is still pending or engaged. */
    method HasUnresolved(buyerIntentId: Id) returns (found: bool)
      ensures found <==> HasOpenRequest(requests, buyerIntentId)
    {
      var rest := requests.Keys;
      while rest != {}
        invariant rest <= requests.Keys
        invariant forall q | q in requests.Keys - rest ::
                    !(requests[q].request.buyerIntentId == buyerIntentId && Open(requests[q]))
        decreases |rest|
      {
        var q :| q in rest;
        var record := requests[q];
        if record.request.buyerIntentId == buyerIntentId && (record.status == Pending || record.status == Engaged) {
          return true;
        }
        rest := rest - {q};
      }
      found := false;
    }

    /** The checks of a new request, in order. */
    method CheckRequest(request: Request) returns (error: Option<MarketError>)
      ensures error == SubmitError(View(), request)
      ensures error.None? ==> request.buyerIntentId in intents
    {
      hide HasOpenRequest, SlotOf;
      if request.buyerIntentId !in intents { return Some(IntentNotFound); }
      var buyer := intents[request.buyerIntentId];
      var unresolved := HasUnresolved(buyer.intentId);
      if unresolved { return Some(UnresolvedRfq); }
      var previous := if buyer.intentId in requestTargetsByBuyer then requestTargetsByBuyer[buyer.intentId] else {};
      if |previous| + 1 > maxOutboundRfq { return Some(RfqBudgetExhausted); }
      if request.requestId in requests { return Some(RequestIdReused); }
      if request.sellerIntentId !in intents { return Some(IntentNotFound); }
      var seller := intents[request.sellerIntentId];
      var mismatch := CheckCounterparties(buyer, seller);
      if mismatch.Some? { return mismatch; }
      if request.createdAt >= buyer.expiresAt || request.createdAt >= seller.expiresAt { return Some(ExpiredIntent); }
      if request.openingPrice > buyer.limitPrice { return Some(OpeningAboveCeiling); }
      if SlotOf(buyer) in reservedSlots || SlotOf(seller) in reservedSlots { return Some(Busy); }
      if seller.intentId in previous { return Some(SellerAlreadyAsked); }
      error := None;
    }

    method CheckCounterparties(buyer: Intent, seller: Intent) returns (error: Option<MarketError>)
      ensures error == CounterpartyError(buyer, seller)
    {
      if buyer.side != Buy || seller.side != Sell { return Some(SidesMismatch); }
      if buyer.participantId == seller.participantId { return Some(SelfNegotiation); }
      if buyer.gameId != seller.gameId || buyer.roundId != seller.roundId { return Some(RoundMismatch); }
      if buyer.good != seller.good { return Some(GoodMismatch); }
      if buyer.limitPrice < seller.limitPrice { return Some(LimitsDoNotOverlap); }
      error := None;
    }

    /** The effects of a granted request, once its claim is taken. */
    method RecordRequest(request: Request, buyerIntentId: Id, targets: set<Id>)
      modifies this
      ensures View() == old(View()).(
                requests := old(requests)[request.requestId := Tracked(request, Pending, None)],
                targetsByBuyer := old(requestTargetsByBuyer)[buyerIntentId := targets + {request.sellerIntentId}],
                requestIdsByResult := old(requestIdsByResult)[request.sourceResultId := [request.requestId]])
    {
      requests := requests[request.requestId := Tracked(request, Pending, None)];
      requestTargetsByBuyer := requestTargetsByBuyer[buyerIntentId := targets + {request.sellerIntentId}];
      requestIdsByResult := requestIdsByResult[request.sourceResultId := [request.requestId]];
    }

    method EngageRequest(actor: Id, requestId: Id, selectionResultId: Id)
      returns (r: Result<Engagement, MarketError>)
      requires Valid()
      modifies this
      ensures Valid()
      ensures View() == Engage(old(View()), actor, requestId, selectionResultId).state
      ensures r == Engage(old(View()), actor, requestId, selectionResultId).result
    {
      hide Inv, Indexed, EngagePending;
      EngageKeepsInv(View(), actor, requestId, selectionResultId);
      InvIndexed(View());
      if !ValidIdentifier(selectionResultId) { return Err(InvalidIdentifier); }
      if selectionResultId in engagementBySelectionResult {
        var engaged := engagements[engagementBySelectionResult[selectionResultId]];
        return if engaged.requestId != requestId || engaged.sellerParticipantId != actor then Err(SelectionReused)
               else Ok(engaged);
      }
      var error := EngageError(View(), actor, requestId);
      if error.Some? { return Err(error.value); }
      RequestIndexed(View(), requestId);
      r := EngageOrRefuse(requestId, selectionResultId);
    }

    /** Refuse a pending request whose parties are busy, marking it; otherwise bind it. */
    method EngageOrRefuse(requestId: Id, selectionResultId: Id) returns (r: Result<Engagement, MarketError>)
      requires requestId in requests
      requires requests[requestId].request.buyerIntentId in intents
      requires requests[requestId].request.sellerIntentId in intents
      modifies this
      ensures View() == EngagePending(old(View()), requestId, selectionResultId).state
      ensures r == EngagePending(old(View()), requestId, selectionResultId).result
    {
      hide SlotOf;
      var tracked := requests[requestId];
      var buyer := intents[tracked.request.buyerIntentId];
      var seller := intents[tracked.request.sellerIntentId];
      if SlotOf(buyer) in reservedSlots || SlotOf(seller) in reservedSlots {
        requests := requests[requestId := tracked.(status := CounterpartyBusy)];
        return Err(Busy);
      }
      SingleClaim(resultClaims, selectionResultId, EngageClaim(EngagementId(requestId)));
      var ok := ClaimResults([(selectionResultId, EngageClaim(EngagementId(requestId)))]);
      if !ok { return Err(ResultAuthoredAnotherAction); }
      var engagement := RecordEngagement(requestId, selectionResultId, buyer, seller);
      r := Ok(engagement);
    }

    /** The effects of a granted engagement, once its claim is taken. */
    method RecordEngagement(requestId: Id, selectionResultId: Id, buyer: Intent, seller: Intent)
      returns (engagement: Engagement)
      requires requestId in requests
      modifies this
      ensures engagement == Engagement(EngagementId(requestId), requestId, buyer.intentId, seller.intentId,
                                       buyer.participantId, seller.participantId, buyer.good, selectionResultId,
                                       Active, None)
      ensures View() == old(View()).(
                engagements := old(engagements)[EngagementId(requestId) := engagement],
                engagementBySelection := old(engagementBySelectionResult)[selectionResultId := EngagementId(requestId)],
                reserved := old(reservedSlots)[SlotOf(buyer) := EngagementId(requestId)]
                                              [SlotOf(seller) := EngagementId(requestId)],
                requests := old(requests)[requestId := old(requests)[requestId].(
                  status := Engaged, engagementId := Some(EngagementId(requestId)))])
    {
      hide SlotOf;
      var engagementId := EngagementId(requestId);
      engagement := Engagement(engagementId, requestId, buyer.intentId, seller.intentId, buyer.participantId,
                               seller.participantId, buyer.good, selectionResultId, Active, None);
      engagements := engagements[engagementId := engagement];
      engagementBySelectionResult := engagementBySelectionResult[selectionResultId := engagementId];
      reservedSlots := reservedSlots[SlotOf(buyer) := engagementId];
      reservedSlots := reservedSlots[SlotOf(seller) := engagementId];
      requests := requests[requestId :=
        requests[requestId].(status := Engaged, engagementId := Some(engagementId))];
    }

    /** Free each of the engagement's two slots, if it still holds it. */
    method ReleaseSlots(engagement: Engagement)
      requires engagement.buyerIntentId in intents && engagement.sellerIntentId in intents
      modifies `reservedSlots
      ensures reservedSlots ==
              Released(Released(old(reservedSlots), SlotOf(intents[engagement.buyerIntentId]), engagement.engagementId),
                       SlotOf(intents[engagement.sellerIntentId]), engagement.engagementId)
    {
      var slots := [SlotOf(intents[engagement.buyerIntentId]), SlotOf(intents[engagement.sellerIntentId])];
      for k := 0 to 2
        invariant k == 0 ==> reservedSlots == old(reservedSlots)
        invariant k == 1 ==> reservedSlots == Released(old(reservedSlots), slots[0], engagement.engagementId)
        invariant k == 2 ==>
                    reservedSlots == Released(Released(old(reservedSlots), slots[0], engagement.engagementId), slots[1],
                                              engagement.engagementId)
      {
        if slots[k] in reservedSlots && reservedSlots[slots[k]] == engagement.engagementId {
          reservedSlots := reservedSlots - {slots[k]};
        }
      }
    }

    method CloseEngagement(engagementId: EngagementId, closing: Closing, source: Option<Id>)
      returns (r: Result<Engagement, MarketError>)
      requires Valid()
      modifies this
      ensures Valid()
      ensures View() == Close(old(View()), engagementId, closing, source).state
      ensures r == Close(old(View()), engagementId, closing, source).result
    {
      hide Inv, Indexed, SlotOf, Released;
      CloseKeepsInv(View(), engagementId, closing, source);
      InvIndexed(View());
      if engagementId !in engagements { return Err(EngagementNotFound); }
      EngagementIndexed(View(), engagementId);
      EngagementKnowsItself(View(), engagementId);
      var engagement := engagements[engagementId];
      if engagement.status != Active {
        return if engagement.status == ClosedStatus(closing) && engagement.terminalSourceResultId == source
               then Ok(engagement) else Err(EngagementTerminal);
      }
      var error := CloseError(closing, source);
      if error.Some? { return Err(error.value); }
      if source.Some? {
        SingleClaim(resultClaims, source.value, RejectClaim(engagementId));
        var ok := ClaimResults([(source.value, RejectClaim(engagementId))]);
        if !ok { return Err(ResultAuthoredAnotherAction); }
      }
      r := RecordClosing(engagement, closing, source);
    }

    /** The effects of closing, once the claim on a rejecting Result is taken. */
    method RecordClosing(engagement: Engagement, closing: Closing, source: Option<Id>)
      returns (r: Result<Engagement, MarketError>)
      requires engagement.buyerIntentId in intents && engagement.sellerIntentId in intents
      requires engagement.requestId in requests && engagement.engagementId in engagements
      modifies this
      ensures r == Ok(engagement.(status := ClosedStatus(closing), terminalSourceResultId := source))
      ensures View() == old(View()).(
                engagements := old(engagements)[engagement.engagementId := r.value],
                requests := old(requests)[engagement.requestId :=
                  old(requests)[engagement.requestId].(status := Declined)],
                reserved :=
                  Released(Released(old(reservedSlots), SlotOf(old(intents)[engagement.buyerIntentId]),
                                    engagement.engagementId),
                           SlotOf(old(intents)[engagement.sellerIntentId]), engagement.engagementId))
    {
      hide SlotOf, Released;
      var closed := engagement.(status := ClosedStatus(closing), terminalSourceResultId := source);
      engagements := engagements[engagement.engagementId := closed];
      requests := requests[engagement.requestId := requests[engagement.requestId].(status := Declined)];
      ReleaseSlots(engagement);
      r := Ok(closed);
    }

    method FreezeDeal(a: Acceptance) returns (r: Result<Deal, MarketError>)
      requires Valid()
      modifies this
      ensures Valid()
      ensures View() == Freeze(old(View()), a).state && r == Freeze(old(View()), a).result
    {
      hide Inv, Indexed, Frozen, FreezeError, Claimable, IdentifierError, SameTerms, DealClaims, NewDeal;
      FreezeKeepsInv(View(), a);
      InvIndexed(View());
      var error := IdentifierError(a);
      if error.Some? { return Err(error.value); }
      if a.engagementId !in engagements { return Err(EngagementNotFound); }
      EngagementIndexed(View(), a.engagementId);
      var dealId := DealId(a.engagementId);
      if dealId in deals {
        return if SameTerms(deals[dealId], a) then Ok(deals[dealId]) else Err(DealImmutable);
      }
      r := FreezeNew(a);
    }

    /** Freeze an engagement that has no Deal yet. */
    method FreezeNew(a: Acceptance) returns (r: Result<Deal, MarketError>)
      requires Indexed(View()) && a.engagementId in engagements && engagements[a.engagementId].requestId in requests
      requires engagements[a.engagementId].buyerIntentId in intents && engagements[a.engagementId].sellerIntentId in intents
      modifies this
      ensures var s := old(View());
              if FreezeError(s, a).Some? then r == Err(FreezeError(s, a).value) && View() == s
              else if !Claimable(s.claims, DealClaims(s, a)) then r == Err(ResultAuthoredAnotherAction) && View() == s
              else r == Ok(NewDeal(s, a)) && View() == Frozen(s, a)
    {
      hide Indexed, Claimed, Claimable, TermsError, DealClaims;
      var engagement := engagements[a.engagementId];
      var request := requests[engagement.requestId].request;
      var error := CheckTerms(engagement, intents[engagement.buyerIntentId], intents[engagement.sellerIntentId], request, a);
      if error.Some? { return Err(error.value); }
      var ok := ClaimDeal(a, a.proposalResultId == request.sourceResultId);
      if !ok { return Err(ResultAuthoredAnotherAction); }
      r := RecordDeal(engagement, a);
    }

    /** The checks on the terms, in order. */
    method CheckTerms(engagement: Engagement, buyer: Intent, seller: Intent, request: Request, a: Acceptance)
      returns (error: Option<MarketError>)
      ensures error == TermsError(engagement, buyer, seller, request, a)
    {
      if engagement.status != Active { return Some(EngagementNotActive); }
      var participants := {engagement.buyerParticipantId, engagement.sellerParticipantId};
      if {a.proposerId, a.accepterId} != participants { return Some(NotOppositeParties); }
      var bindingOpening := a.proposalResultId == request.sourceResultId;
      if bindingOpening && (a.proposerId != buyer.participantId || a.unitPrice != request.openingPrice) {
        return Some(BindingOpeningChanged);
      }
      if a.unitPrice <= 0 || a.unitPrice > buyer.limitPrice || a.unitPrice < seller.limitPrice {
        return Some(PriceOutsideLimits);
      }
      error := None;
    }

    /** Claim the acceptance, and the proposal unless it is the opening of the request. */
    method ClaimDeal(a: Acceptance, bindingOpening: bool) returns (ok: bool)
      requires a.engagementId in engagements && engagements[a.engagementId].requestId in requests
      requires bindingOpening == BindsOpening(View(), a)
      modifies `resultClaims
      ensures ok <==> Claimable(old(resultClaims), old(DealClaims(View(), a)))
      ensures resultClaims ==
              if ok then Claimed(old(resultClaims), old(DealClaims(View(), a))) else old(resultClaims)
    {
      hide Claimed, Claimable;
      var claims := [(a.acceptanceResultId, AcceptanceClaim(a.engagementId))];
      if !bindingOpening {
        claims := [(a.proposalResultId, ProposalClaim(a.engagementId))] + claims;
      }
      assert claims == DealClaims(View(), a);
      ok := ClaimResults(claims);
    }

    /** The effects of an acceptance, once its claims are taken. */
    method RecordDeal(engagement: Engagement, a: Acceptance) returns (r: Result<Deal, MarketError>)
      requires a.engagementId in engagements && engagements[a.engagementId] == engagement
      modifies this
      ensures r == Ok(old(NewDeal(View(), a)))
      ensures View() == old(View()).(
                deals := old(deals)[DealId(a.engagementId) := r.value],
                engagements := old(engagements)[a.engagementId := engagement.(
                  status := AcceptedPendingSettlement, terminalSourceResultId := Some(a.acceptanceResultId))])
    {
      var deal := Deal(DealId(a.engagementId), a.engagementId, engagement.requestId, engagement.buyerParticipantId,
                       engagement.sellerParticipantId, engagement.good, 1, a.unitPrice, a.proposalResultId,
                       a.acceptanceResultId, a.accepterId);
      deals := deals[deal.dealId := deal];
      engagements := engagements[a.engagementId :=
        engagement.(status := AcceptedPendingSettlement, terminalSourceResultId := Some(a.acceptanceResultId))];
      r := Ok(deal);
    }
  }
}
