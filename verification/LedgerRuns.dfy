/** Every run of the ledger keeps its totals, its caps and its final statuses. */
module LedgerRuns {
  import opened Wrappers
  import opened MandateLedger
  import opened LedgerInvariant
  import opened LedgerSteps

  datatype Call =
    | CreateMandate(mandate: Mandate, observedAt: int)
    | RevokeMandate(mandateId: MandateId, userId: string, now: int)
    | ReserveMandate(mandateId: MandateId, terms: Terms, now: int)
    | SubmitReservation(id: ReservationId, tx: string)
    | ConsumeReservation(id: ReservationId, tx: string, now: int)
    | ReleaseReservation(id: ReservationId, reason: string, now: int)
    | ReconcileRow(id: ReservationId, evidence: Evidence, now: int)

  /** Mandates are created with nothing reserved or consumed. */
  ghost predicate Legal(c: Call) {
    c.CreateMandate? ==> Fresh(c.mandate)
  }

  function Step(s: Ledger, c: Call): Ledger
    requires Indexed(s)
  {
    match c
    case CreateMandate(mandate, observedAt) => Create(s, mandate, observedAt).state
    case RevokeMandate(id, userId, now) => Revoke(s, id, userId, now).state
    case ReserveMandate(id, terms, now) => Reserve(s, id, terms, now).state
    case SubmitReservation(id, tx) => Submit(s, id, tx).state
    case ConsumeReservation(id, tx, now) => Consume(s, id, tx, now).state
    case ReleaseReservation(id, reason, now) => Release(s, id, reason, now).state
    case ReconcileRow(id, evidence, now) => if id in s.reservations then Reconciled(s, id, evidence, now) else s
  }

  lemma StepKeepsInv(s: Ledger, c: Call)
    requires Inv(s) && Legal(c)
    ensures Indexed(s) && Inv(Step(s, c))
  {
    hide Inv, Indexed, Create, Revoke, Reserve, Submit, Consume, Release, Reconciled, Fresh;
    InvIndexed(s);
    match c
    case CreateMandate(mandate, observedAt) => CreateKeepsInv(s, mandate, observedAt);
    case RevokeMandate(id, userId, now) => RevokeKeepsInv(s, id, userId, now);
    case ReserveMandate(id, terms, now) => ReserveKeepsInv(s, id, terms, now);
    case SubmitReservation(id, tx) => SubmitKeepsInv(s, id, tx);
    case ConsumeReservation(id, tx, now) => ConsumeKeepsInv(s, id, tx, now);
    case ReleaseReservation(id, reason, now) => ReleaseKeepsInv(s, id, reason, now);
    case ReconcileRow(id, evidence, now) => if id in s.reservations { ReconciledKeepsInv(s, id, evidence, now); }
  }

  ghost predicate LegalRun(calls: seq<Call>) {
    forall i | 0 <= i < |calls| :: Legal(calls[i])
  }

  /** The ledger after a run of calls from `s`. */
  function After(s: Ledger, calls: seq<Call>): (t: Ledger)
    requires Inv(s) && LegalRun(calls)
    ensures Inv(t)
    decreases |calls|
  {
    if calls == [] then s
    else
      StepKeepsInv(s, calls[0]);
      After(Step(s, calls[0]), calls[1..])
  }

  lemma EmptyIsOk()
    ensures Inv(EMPTY)
  {
  }

  ghost function Reached(calls: seq<Call>): (t: Ledger)
    requires LegalRun(calls)
    ensures Inv(t)
  {
    EmptyIsOk();
    After(EMPTY, calls)
  }

  // ------------------------------------------------------------ the totals

  /** Totals are sums over reservations, within the cap, after every run. */
  lemma TotalsAreSums(calls: seq<Call>, m: MandateId)
    requires LegalRun(calls) && m in Reached(calls).mandates
    ensures var s := Reached(calls); var held := Sum(s.reservations, m, Held); var spent := Sum(s.reservations, m, Spent);
            && s.mandates[m].reserved == held && s.mandates[m].consumed == spent
            && 0 <= held && 0 <= spent && held + spent <= s.mandates[m].limits.maxCumulative
  {
    var s := Reached(calls);
    assert MandateOk(s.mandates[m], m, s.reservations);
  }

  /** Each intent has one reservation at most, and each reservation obeys its mandate's terms. */
  lemma OneReservationPerIntent(calls: seq<Call>, j: ReservationId, k: ReservationId)
    requires LegalRun(calls)
    requires var s := Reached(calls); j in s.reservations && k in s.reservations
    ensures var s := Reached(calls);
            && (s.reservations[j].intentId == s.reservations[k].intentId ==> j == k)
            && s.reservations[k].mandateId in s.mandates
            && Allowed(s.reservations[k], s.mandates[s.reservations[k].mandateId])
  {
    hide ValidReservation, MandateOk, OneActive, Allowed, After;
    var s := Reached(calls);
    assert Inv(s);
  }

  /** What a mandate permits, with the budget left counted from the reservations themselves. */
  ghost predicate Permits(m: Mandate, rs: Reservations, terms: Terms, now: int) {
    && m.revokedAt.None? && m.validFrom <= now < m.expiresAt
    && terms.gameId == m.gameId && terms.chainId == m.chainId && terms.tokenAddress == m.tokenAddress
    && terms.payee in m.allowedPayees && terms.amount <= m.limits.maxPerPayment
    && Sum(rs, m.id, Held) + Sum(rs, m.id, Spent) + terms.amount <= m.limits.maxCumulative
  }

  /** After every run a new intent is reserved exactly when its mandate exists and permits it. */
  lemma ReservedExactlyWhenPermitted(calls: seq<Call>, id: MandateId, terms: Terms, now: int)
    requires LegalRun(calls) && terms.intentId !in Reached(calls).byIntent
    ensures Indexed(Reached(calls))
    ensures var s := Reached(calls);
            Reserve(s, id, terms, now).result.Ok? <==> id in s.mandates && Permits(s.mandates[id], s.reservations, terms, now)
  {
    hide Reserve, Inv, Sum, After;
    var s := Reached(calls);
    ReserveKeepsInv(s, id, terms, now);
    if id in s.mandates {
      TotalsAreSums(calls, id);
      MandateIsValid(s, id);
    }
  }

  lemma OneActiveMandate(calls: seq<Call>, j: MandateId, k: MandateId)
    requires LegalRun(calls)
    requires var s := Reached(calls); j in s.mandates && k in s.mandates
    requires var s := Reached(calls); s.mandates[j].revokedAt.None? && s.mandates[k].revokedAt.None?
    requires var s := Reached(calls);
             s.mandates[j].userId == s.mandates[k].userId && s.mandates[j].gameId == s.mandates[k].gameId
    ensures j == k
  {
    hide ReservationsOk, MandatesOk, AllAllowed, After;
    assert Inv(Reached(calls));
  }

  // ------------------------------------------------------- what never moves

  ghost predicate MandateGrew(m: Mandate, was: Mandate) {
    && m == was.(reserved := m.reserved, consumed := m.consumed, revokedAt := m.revokedAt)
    && was.consumed <= m.consumed
    && (was.revokedAt.Some? ==> m.revokedAt == was.revokedAt)
  }

  ghost predicate ReservationGrew(r: Reservation, was: Reservation) {
    && SameDeal(r, was)
    && (was.status == Consumed || was.status == Released ==> r == was)
    && (was.status == Submitted ==> r.status != Reserved)
  }

  ghost predicate MandatesGrew(t: map<MandateId, Mandate>, s: map<MandateId, Mandate>) {
    forall k | k in s :: k in t && MandateGrew(t[k], s[k])
  }

  ghost predicate ReservationsGrew(t: Reservations, s: Reservations) {
    forall k | k in s :: k in t && ReservationGrew(t[k], s[k])
  }

  ghost predicate IndexGrew(t: map<IntentId, ReservationId>, s: map<IntentId, ReservationId>) {
    forall i | i in s :: i in t && t[i] == s[i]
  }

  ghost predicate Grew(t: Ledger, s: Ledger) {
    MandatesGrew(t.mandates, s.mandates) && ReservationsGrew(t.reservations, s.reservations) && IndexGrew(t.byIntent, s.byIntent)
  }

  lemma CreateGrows(s: Ledger, m: Mandate, observedAt: int)
    requires Inv(s)
    ensures Grew(Create(s, m, observedAt).state, s)
  {
    hide ReservationsOk, OneActive, AllAllowed, MandateOk, HasRival;
    var t := Create(s, m, observedAt).state;
    forall k | k in s.mandates ensures k in t.mandates && MandateGrew(t.mandates[k], s.mandates[k]) {
      if k == m.id && s.mandates[k] == m {
      } else {
        assert t.mandates[k] == s.mandates[k] || t.mandates[k] == Lapsed(s.mandates[k], m, observedAt);
      }
    }
  }

  lemma RevokeGrows(s: Ledger, id: MandateId, userId: string, now: int)
    ensures Grew(Revoke(s, id, userId, now).state, s)
  {
  }

  lemma MovedGrows(s: Ledger, r: Reservation, reserved: int, consumed: int)
    requires r.mandateId in s.mandates && 0 <= consumed
    requires r.id in s.reservations ==> ReservationGrew(r, s.reservations[r.id])
    ensures Grew(Moved(s, r, reserved, consumed), s)
  {
  }

  lemma ReserveGrows(s: Ledger, id: MandateId, terms: Terms, now: int)
    requires Inv(s)
    ensures Indexed(s) && Grew(Reserve(s, id, terms, now).state, s)
  {
    hide Indexed, Inv, MandateError, Grew, ValidMandate;
    InvIndexed(s);
    GrewIsReflexive(s);
    if terms.intentId !in s.byIntent && id in s.mandates {
      var r := NewReservation(id, terms, now);
      NewIdIsNew(s, r.id, terms.intentId);
      MovedGrows(s, r, terms.amount, 0);
      IndexedGrows(Moved(s, r, terms.amount, 0), s, terms.intentId, r.id);
    }
  }

  lemma IndexedGrows(t: Ledger, s: Ledger, intent: IntentId, id: ReservationId)
    requires Grew(t, s) && intent !in s.byIntent && t.byIntent == s.byIntent
    ensures Grew(t.(byIntent := t.byIntent[intent := id]), s)
  {
  }

  lemma NewIdIsNew(s: Ledger, id: ReservationId, intent: IntentId)
    requires Inv(s) && intent !in s.byIntent && id.intent == intent
    ensures id !in s.reservations
  {
    hide MandatesOk, OneActive, AllAllowed, ValidReservation;
  }

  /** A settled move is a move, or nothing at all. */
  lemma SettleGrows(s: Ledger, r: Reservation, reserved: int, consumed: int)
    requires r.mandateId in s.mandates && 0 <= consumed
    requires r.id in s.reservations ==> ReservationGrew(r, s.reservations[r.id])
    ensures Grew(Settle(s, r, reserved, consumed).state, s)
  {
    hide Grew, ValidMandate, ValidReservation, ReservationGrew;
    GrewIsReflexive(s);
    MovedGrows(s, r, reserved, consumed);
  }

  lemma ConsumeGrows(s: Ledger, id: ReservationId, tx: string, now: int)
    requires Inv(s)
    ensures Indexed(s) && Grew(Consume(s, id, tx, now).state, s)
  {
    hide Inv, Indexed, Grew, Settle, Lower;
    InvIndexed(s);
    GrewIsReflexive(s);
    if id in s.reservations {
      Found(s, id);
      var r := s.reservations[id];
      if r.status == Reserved || r.status == Submitted {
        SettleGrows(s, r.(id := id, status := Consumed, finalizedAt := Some(now), txHash := Some(Lower(tx))), -r.amount, r.amount);
      }
    }
  }

  lemma ReleaseGrows(s: Ledger, id: ReservationId, reason: string, now: int)
    requires Inv(s)
    ensures Indexed(s) && Grew(Release(s, id, reason, now).state, s)
  {
    hide Inv, Indexed, Grew, Settle;
    InvIndexed(s);
    GrewIsReflexive(s);
    if id in s.reservations {
      Found(s, id);
      var r := s.reservations[id];
      if r.status == Reserved {
        SettleGrows(s, r.(id := id, status := Released, finalizedAt := Some(now), releaseReason := Some(reason)), -r.amount, 0);
      }
    }
  }

  lemma SubmitGrows(s: Ledger, id: ReservationId, tx: string)
    requires Inv(s)
    ensures Grew(Submit(s, id, tx).state, s)
  {
    hide Inv, Indexed, Grew, Lower, ValidReservation;
    GrewIsReflexive(s);
    if id in s.reservations {
      Found(s, id);
      var r := s.reservations[id].(status := Submitted, txHash := Some(Lower(tx)));
      if s.reservations[id].status == Reserved {
        MovedGrows(s, r, 0, 0);
        assert Moved(s, r, 0, 0) == s.(reservations := s.reservations[id := r]);
      }
    }
  }

  lemma ReconciledGrows(s: Ledger, id: ReservationId, evidence: Evidence, now: int)
    requires Inv(s) && id in s.reservations
    ensures Indexed(s) && Grew(Reconciled(s, id, evidence, now), s)
  {
    hide Inv, Indexed, Grew, ValidReservation;
    Found(s, id);
    GrewIsReflexive(s);
    var r := s.reservations[id];
    if r.status == Submitted {
      match evidence
      case Reverted =>
        MovedGrows(s, r.(status := Released, txHash := None, releaseReason := Some("chain_transaction_reverted"),
                         finalizedAt := Some(now)), -r.amount, 0);
      case Confirmed =>
        MovedGrows(s, r.(status := Consumed, finalizedAt := Some(now)), -r.amount, r.amount);
    }
  }

  lemma StepGrows(s: Ledger, c: Call)
    requires Inv(s)
    ensures Indexed(s) && Grew(Step(s, c), s)
  {
    hide Inv, Indexed, Create, Revoke, Reserve, Submit, Consume, Release, Reconciled, Grew;
    InvIndexed(s);
    GrewIsReflexive(s);
    match c
    case CreateMandate(mandate, observedAt) => CreateGrows(s, mandate, observedAt);
    case RevokeMandate(id, userId, now) => RevokeGrows(s, id, userId, now);
    case ReserveMandate(id, terms, now) => ReserveGrows(s, id, terms, now);
    case SubmitReservation(id, tx) => SubmitGrows(s, id, tx);
    case ConsumeReservation(id, tx, now) => ConsumeGrows(s, id, tx, now);
    case ReleaseReservation(id, reason, now) => ReleaseGrows(s, id, reason, now);
    case ReconcileRow(id, evidence, now) => if id in s.reservations { ReconciledGrows(s, id, evidence, now); }
  }

  lemma GrewIsTransitive(a: Ledger, b: Ledger, c: Ledger)
    requires Grew(b, a) && Grew(c, b)
    ensures Grew(c, a)
  {
  }

  /** Terms never change, spent money stays spent, final reservations and revocations are final. */
  lemma {:induction false} RunsOnlyGrow(s: Ledger, calls: seq<Call>)
    requires Inv(s) && LegalRun(calls)
    ensures Grew(After(s, calls), s)
    decreases |calls|
  {
    hide Inv, Grew, Step;
    if calls == [] {
      GrewIsReflexive(s);
    } else {
      StepKeepsInv(s, calls[0]);
      StepGrows(s, calls[0]);
      RunsOnlyGrow(Step(s, calls[0]), calls[1..]);
      GrewIsTransitive(s, Step(s, calls[0]), After(s, calls));
    }
  }

  lemma GrewIsReflexive(s: Ledger)
    ensures Grew(s, s)
  {
  }

  /** A reservation once made is found again by the same terms, whatever happened since. */
  lemma ReserveReplays(s: Ledger, id: MandateId, terms: Terms, now: int, calls: seq<Call>, later: int)
    requires Inv(s) && LegalRun(calls) && Indexed(s) && Reserve(s, id, terms, now).result.Ok?
    ensures Inv(Reserve(s, id, terms, now).state)
    ensures var t := After(Reserve(s, id, terms, now).state, calls);
            Indexed(t) && Reserve(t, id, terms, later).state == t
            && Reserve(t, id, terms, later).result.Ok?
            && SameDeal(Reserve(t, id, terms, later).result.value, Reserve(s, id, terms, now).result.value)
  {
    hide Inv, Indexed, MandateError, After;
    ReserveKeepsInv(s, id, terms, now);
    var made := Reserve(s, id, terms, now);
    var t := After(made.state, calls);
    RunsOnlyGrow(made.state, calls);
    InvIndexed(t);
    InvIndexed(made.state);
    MadeIsIndexed(s, id, terms, now);
    var k := made.state.byIntent[terms.intentId];
    assert t.byIntent[terms.intentId] == k;
    Kept(t, k, made.state);
  }

  lemma Kept(t: Ledger, k: ReservationId, s: Ledger)
    requires Grew(t, s) && k in s.reservations
    ensures k in t.reservations && ReservationGrew(t.reservations[k], s.reservations[k])
  {
  }

  lemma MadeIsIndexed(s: Ledger, id: MandateId, terms: Terms, now: int)
    requires Inv(s) && Indexed(s) && Reserve(s, id, terms, now).result.Ok?
    ensures var t := Reserve(s, id, terms, now);
            && terms.intentId in t.state.byIntent && t.state.byIntent[terms.intentId] in t.state.reservations
            && t.state.reservations[t.state.byIntent[terms.intentId]] == t.result.value
            && Matches(t.result.value, id, terms)
  {
    hide Inv, MandateError, ValidMandate;
  }

  // --------------------------------------------------------- conservation

  /** All that was ever reserved under a mandate. */
  ghost function Pledged(rs: Reservations, m: MandateId): int
    decreases |rs|
  {
    if rs == map[] then 0
    else
      var k :| k in rs;
      (if rs[k].mandateId == m then rs[k].amount else 0) + Pledged(rs - {k}, m)
  }

  lemma {:induction false} PledgedSplits(rs: Reservations, m: MandateId)
    ensures Pledged(rs, m) == Sum(rs, m, Held) + Sum(rs, m, Spent) + Sum(rs, m, Returned)
    decreases |rs|
  {
    if rs != map[] {
      var k :| k in rs && Pledged(rs, m) == (if rs[k].mandateId == m then rs[k].amount else 0) + Pledged(rs - {k}, m);
      SumTakesAny(rs, k, m, Held);
      SumTakesAny(rs, k, m, Spent);
      SumTakesAny(rs, k, m, Returned);
      PledgedSplits(rs - {k}, m);
    }
  }

  /** Every amount ever reserved is still reserved, was consumed, or was given back. */
  lemma NothingIsLost(calls: seq<Call>, m: MandateId)
    requires LegalRun(calls) && m in Reached(calls).mandates
    ensures var s := Reached(calls);
            Pledged(s.reservations, m) == s.mandates[m].reserved + s.mandates[m].consumed + Sum(s.reservations, m, Returned)
  {
    TotalsAreSums(calls, m);
    PledgedSplits(Reached(calls).reservations, m);
  }
}
