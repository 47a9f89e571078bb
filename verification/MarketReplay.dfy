/** Records are permanent, successful calls can be repeated at any later time, and failing
    calls leave no trace but the counterparty_busy mark. */
module MarketReplay {
  import opened Wrappers
  import opened A2aMarket
  import opened MarketInvariant
  import opened MarketRuns

  ghost predicate Kept<K, V>(before: map<K, V>, after: map<K, V>) {
    forall k :: k in before ==> k in after && after[k] == before[k]
  }

  ghost predicate RequestsKept(before: Requests, after: Requests) {
    forall q :: q in before ==> q in after && after[q].request == before[q].request
  }

  /** A later version of an engagement: only an active one may still change its status. */
  predicate LaterVersion(g: Engagement, h: Engagement) {
    && h == g.(status := h.status, terminalSourceResultId := h.terminalSourceResultId)
    && (g.status != Active ==> h == g)
  }

  ghost predicate EngagementsKept(before: Engagements, after: Engagements) {
    forall e :: e in before ==> e in after && LaterVersion(before[e], after[e])
  }

  /** Nothing recorded in s is lost or rewritten in t. */
  ghost predicate Extends(s: Market, t: Market) {
    && s.maxOutboundRfq == t.maxOutboundRfq
    && Kept(s.intents, t.intents) && Kept(s.intentByResult, t.intentByResult)
    && RequestsKept(s.requests, t.requests) && Kept(s.requestIdsByResult, t.requestIdsByResult)
    && EngagementsKept(s.engagements, t.engagements) && Kept(s.engagementBySelection, t.engagementBySelection)
    && Kept(s.deals, t.deals) && Kept(s.claims, t.claims)
  }

  lemma AddingKeeps<K, V>(before: map<K, V>, k: K, v: V)
    requires k in before ==> before[k] == v
    ensures Kept(before, before[k := v])
  {
  }

  lemma NothingIsLostByItself(s: Market)
    ensures Extends(s, s)
  {
  }

  lemma RequestMoves(before: Requests, q: Id, t: Tracked)
    requires q in before ==> before[q].request == t.request
    ensures RequestsKept(before, before[q := t])
  {
  }

  lemma EngagementMoves(before: Engagements, e: EngagementId, g: Engagement)
    requires e in before ==> LaterVersion(before[e], g)
    ensures EngagementsKept(before, before[e := g])
  {
  }

  lemma PublishExtends(s: Market, i: Intent)
    requires Indexed(s)
    ensures Extends(s, Publish(s, i).state)
  {
    NothingIsLostByItself(s);
    hide Indexed, SlotOf, Kept, RequestsKept, EngagementsKept;
    if Publish(s, i).state != s {
      AddingKeeps(s.claims, i.sourceResultId, IntentClaim(i.intentId));
      AddingKeeps(s.intents, i.intentId, i);
      AddingKeeps(s.intentByResult, i.sourceResultId, i.intentId);
    }
  }

  lemma SubmitExtends(s: Market, b: seq<Request>)
    requires Indexed(s)
    ensures Extends(s, Submit(s, b).state)
  {
    NothingIsLostByItself(s);
    hide Indexed, HasOpenRequest, CounterpartyError, SlotOf, Targets, Kept, RequestsKept, EngagementsKept;
    if Submit(s, b).state != s {
      AddingKeeps(s.claims, b[0].sourceResultId, RfqClaim(b[0].sourceResultId));
      AddingKeeps(s.requestIdsByResult, b[0].sourceResultId, [b[0].requestId]);
      RequestMoves(s.requests, b[0].requestId, Tracked(b[0], Pending, None));
    }
  }

  lemma JoinedExtends(s: Market, q: Id, r: Id)
    requires q in s.requests && s.requests[q].request.buyerIntentId in s.intents
    requires s.requests[q].request.sellerIntentId in s.intents
    requires EngagementId(q) !in s.engagements && r !in s.engagementBySelection
    requires Compatible(s.claims, r, EngageClaim(EngagementId(q)))
    ensures Extends(s, Joined(s, q, r))
  {
    NothingIsLostByItself(s);
    hide SlotOf, Kept, RequestsKept, EngagementsKept, NewEngagement, LaterVersion;
    AddingKeeps(s.claims, r, EngageClaim(EngagementId(q)));
    AddingKeeps(s.engagementBySelection, r, EngagementId(q));
    RequestMoves(s.requests, q, Joined(s, q, r).requests[q]);
    EngagementMoves(s.engagements, EngagementId(q), NewEngagement(s, q, r));
  }

  lemma EngageExtends(s: Market, a: Id, q: Id, r: Id)
    requires Indexed(s) && StatusesOk(s.requests, s.engagements)
    ensures Extends(s, Engage(s, a, q, r).state)
  {
    NothingIsLostByItself(s);
    hide SlotOf, Kept, RequestsKept, EngagementsKept, StatusesOk, Joined, NewEngagement;
    var o := Engage(s, a, q, r);
    if o.state != s {
      PendingHasNoEngagement(s.requests, s.engagements, q);
      if o.result.Ok? {
        JoinedExtends(s, q, r);
      } else {
        RequestMoves(s.requests, q, s.requests[q].(status := CounterpartyBusy));
      }
    }
  }

  lemma CloseExtends(s: Market, e: EngagementId, k: Closing, r: Option<Id>)
    requires Indexed(s)
    ensures Extends(s, Close(s, e, k, r).state)
  {
    NothingIsLostByItself(s);
    hide SlotOf, Released, Kept, RequestsKept, EngagementsKept;
    var t := Close(s, e, k, r).state;
    if t != s {
      if r.Some? { AddingKeeps(s.claims, r.value, RejectClaim(e)); }
      EngagementMoves(s.engagements, e, t.engagements[e]);
      RequestMoves(s.requests, s.engagements[e].requestId, t.requests[s.engagements[e].requestId]);
    }
  }

  lemma FreezeExtends(s: Market, a: Acceptance)
    requires Indexed(s)
    ensures Extends(s, Freeze(s, a).state)
  {
    NothingIsLostByItself(s);
    hide Claimed, DealClaims, BindsOpening, RequestsKept, EngagementsKept, Claimable;
    if Freeze(s, a).state != s {
      ClaimedMeansOwned(s.claims, DealClaims(s, a));
      assert Kept(s.claims, Frozen(s, a).claims);
      AddingKeeps(s.deals, DealId(a.engagementId), NewDeal(s, a));
      EngagementMoves(s.engagements, a.engagementId, Frozen(s, a).engagements[a.engagementId]);
      hide Kept;
    }
  }

  lemma StepExtends(s: Market, c: Call)
    requires Inv(s)
    ensures Extends(s, Step(s, c))
  {
    hide Publish, Submit, Engage, Close, Freeze, Extends, AsksOk, ClaimsOk, Indexed,
         EngagementsOk, StatusesOk, SelectionIndexOk, SlotsOk, DealsOk;
    match c
    case PublishIntent(i) => PublishExtends(s, i);
    case SubmitRequests(b) => SubmitExtends(s, b);
    case EngageRequest(a, q, r) => EngageExtends(s, a, q, r);
    case CloseEngagement(e, k, r) => CloseExtends(s, e, k, r);
    case FreezeDeal(t) => FreezeExtends(s, t);
  }

  lemma ExtendsComposes(s: Market, t: Market, u: Market)
    requires Extends(s, t) && Extends(t, u)
    ensures Extends(s, u)
  {
  }

  /** Over a whole run nothing recorded is ever lost: intents, requests, claims and deals are
      permanent, closed engagements are final. */
  lemma {:induction false} RunsLoseNothing(s: Market, run: seq<Call>)
    requires Inv(s)
    ensures Extends(s, After(s, run))
  {
    hide Inv, Step;
    if run == [] {
    } else {
      var before := After(s, run[..|run| - 1]);
      RunsLoseNothing(s, run[..|run| - 1]);
      StepExtends(before, run[|run| - 1]);
      hide Extends;
      ExtendsComposes(s, before, After(s, run));
    }
  }

  // ---------------------------------------------------------------- replay

  ghost predicate IntentHeld(s: Market, i: Intent, ref: Ref) {
    && i.sourceResultId in s.intentByResult && s.intentByResult[i.sourceResultId] in s.intents
    && s.intents[s.intentByResult[i.sourceResultId]] == i && ref == IntentRef(i.intentId)
  }

  ghost predicate RequestHeld(s: Market, b: seq<Request>, ref: Ref) {
    && |b| == 1 && b[0].sourceResultId in s.requestIdsByResult
    && |s.requestIdsByResult[b[0].sourceResultId]| == 1
    && s.requestIdsByResult[b[0].sourceResultId][0] in s.requests
    && s.requests[s.requestIdsByResult[b[0].sourceResultId][0]].request == b[0] && ref == RequestRef(b[0].requestId)
  }

  ghost predicate EngagementHeld(s: Market, a: Id, q: Id, r: Id, ref: Ref) {
    && ValidIdentifier(r) && r in s.engagementBySelection && s.engagementBySelection[r] in s.engagements
    && var g := s.engagements[s.engagementBySelection[r]];
       g.requestId == q && g.sellerParticipantId == a && ref == EngagementRef(g.engagementId)
  }

  ghost predicate ClosingHeld(s: Market, e: EngagementId, k: Closing, r: Option<Id>, ref: Ref) {
    && e in s.engagements && s.engagements[e].status == ClosedStatus(k)
    && s.engagements[e].terminalSourceResultId == r && ref == EngagementRef(s.engagements[e].engagementId)
  }

  ghost predicate DealHeld(s: Market, t: Acceptance, ref: Ref) {
    && IdentifierError(t).None? && t.engagementId in s.engagements && DealId(t.engagementId) in s.deals
    && SameTerms(s.deals[DealId(t.engagementId)], t) && ref == DealRef(s.deals[DealId(t.engagementId)].dealId)
  }

  /** The market already holds what this call would record. */
  ghost predicate Holds(s: Market, c: Call, ref: Ref) {
    match c
    case PublishIntent(i) => IntentHeld(s, i, ref)
    case SubmitRequests(b) => RequestHeld(s, b, ref)
    case EngageRequest(a, q, r) => EngagementHeld(s, a, q, r, ref)
    case CloseEngagement(e, k, r) => ClosingHeld(s, e, k, r, ref)
    case FreezeDeal(t) => DealHeld(s, t, ref)
  }

  /** Whatever a call succeeded with is held from then on. */
  lemma SuccessIsHeld(s: Market, c: Call)
    requires Inv(s) && Answer(s, c).Ok?
    ensures Holds(Step(s, c), c, Answer(s, c).value)
  {
    hide Publish, Submit, Engage, Close, Freeze, Indexed, AsksOk, TalksOk, ClaimsOk,
         IntentHeld, RequestHeld, EngagementHeld, ClosingHeld, DealHeld;
    match c
    case PublishIntent(i) => PublishIsHeld(s, i);
    case SubmitRequests(b) => SubmitIsHeld(s, b);
    case EngageRequest(a, q, r) => EngageIsHeld(s, a, q, r);
    case CloseEngagement(e, k, r) => CloseIsHeld(s, e, k, r);
    case FreezeDeal(t) => FreezeIsHeld(s, t);
  }

  lemma PublishIsHeld(s: Market, i: Intent)
    requires Inv(s) && Publish(s, i).result.Ok?
    ensures IntentHeld(Publish(s, i).state, i, IntentRef(Publish(s, i).result.value.intentId))
  {
    hide Inv, Indexed, SlotOf, Compatible;
    PublishedIsIndexed(s, i);
  }

  lemma PublishedIsIndexed(s: Market, i: Intent)
    requires Inv(s)
    ensures i.sourceResultId in s.intentByResult ==> s.intentByResult[i.sourceResultId] in s.intents
    ensures i.intentId in s.intents && s.intents[i.intentId] == i ==> i.sourceResultId in s.intentByResult
  {
    hide Indexed, TalksOk, ClaimsOk, RequestsOk, RequestIndexOk, TargetsOk, OneOpenRequest, DistinctSellers;
  }

  lemma SubmitIsHeld(s: Market, b: seq<Request>)
    requires Inv(s) && Submit(s, b).result.Ok?
    ensures Submit(s, b).result.value != []
    ensures RequestHeld(Submit(s, b).state, b, RequestRef(Submit(s, b).result.value[0].requestId))
  {
    hide SubmitError, Indexed, TalksOk, ClaimsOk, IntentsOk, RequestsOk, TargetsOk, OneOpenRequest, DistinctSellers;
  }

  lemma EngageIsHeld(s: Market, a: Id, q: Id, r: Id)
    requires Inv(s) && Engage(s, a, q, r).result.Ok?
    ensures EngagementHeld(Engage(s, a, q, r).state, a, q, r, EngagementRef(Engage(s, a, q, r).result.value.engagementId))
  {
    hide Indexed, SlotOf, AsksOk, ClaimsOk, EngagementsOk, StatusesOk, SlotsOk, DealsOk;
  }

  lemma CloseIsHeld(s: Market, e: EngagementId, k: Closing, r: Option<Id>)
    requires Indexed(s) && Close(s, e, k, r).result.Ok?
    ensures ClosingHeld(Close(s, e, k, r).state, e, k, r, EngagementRef(Close(s, e, k, r).result.value.engagementId))
  {
    hide Indexed, Shut, CloseError, Compatible;
    if e in s.engagements && s.engagements[e].status == Active {
      ShutEngagement(s, e, k, r);
    }
  }

  lemma ShutEngagement(s: Market, e: EngagementId, k: Closing, r: Option<Id>)
    requires Indexed(s) && e in s.engagements
    ensures e in Shut(s, e, k, r).engagements
    ensures Shut(s, e, k, r).engagements[e] == s.engagements[e].(status := ClosedStatus(k), terminalSourceResultId := r)
  {
    hide Indexed, Released, SlotOf;
  }

  lemma FreezeIsHeld(s: Market, a: Acceptance)
    requires Indexed(s) && Freeze(s, a).result.Ok?
    ensures DealHeld(Freeze(s, a).state, a, DealRef(Freeze(s, a).result.value.dealId))
  {
    hide Indexed, FreezeError, Claimed, DealClaims, Claimable;
  }

  lemma HeldStaysHeld(s: Market, t: Market, c: Call, ref: Ref)
    requires Extends(s, t) && Holds(s, c, ref)
    ensures Holds(t, c, ref)
  {
  }

  lemma HeldIsReplayed(s: Market, c: Call, ref: Ref)
    requires Inv(s) && Holds(s, c, ref)
    ensures Answer(s, c) == Ok(ref) && Step(s, c) == s
  {
    hide AsksOk, TalksOk, ClaimsOk;
  }

  /** Repeating a successful call at any later point answers with the same record and changes
      nothing. */
  lemma SuccessfulCallsReplay(s: Market, c: Call, later: seq<Call>)
    requires Inv(s) && Answer(s, c).Ok?
    ensures Inv(Step(s, c))
    ensures var t := After(Step(s, c), later);
            Answer(t, c) == Answer(s, c) && Step(t, c) == t
  {
    hide AsksOk, TalksOk, ClaimsOk, Step, Answer, Holds, Extends, Indexed;
    StepKeepsInv(s, c);
    SuccessIsHeld(s, c);
    RunsLoseNothing(Step(s, c), later);
    HeldStaysHeld(Step(s, c), After(Step(s, c), later), c, Answer(s, c).value);
    HeldIsReplayed(After(Step(s, c), later), c, Answer(s, c).value);
  }

  /** A failing call leaves the whole state unchanged, except that a refused engagement marks its
      pending request counterparty_busy. */
  lemma FailuresLeaveNoTrace(s: Market, c: Call)
    requires Inv(s) && Answer(s, c).Err?
    ensures Step(s, c) == s
            || (&& c.EngageRequest? && Answer(s, c) == Err(Busy)
                && c.requestId in s.requests && s.requests[c.requestId].status == Pending
                && Step(s, c) == s.(requests :=
                     s.requests[c.requestId := s.requests[c.requestId].(status := CounterpartyBusy)]))
  {
    hide AsksOk, TalksOk, ClaimsOk, Indexed, SlotOf, Claimed, DealClaims, Claimable, Compatible, SubmitError, CloseError,
         FreezeError, IdentifierError, SameTerms, Recorded, Joined, Shut, Frozen, NewEngagement, NewDeal;
  }
}
