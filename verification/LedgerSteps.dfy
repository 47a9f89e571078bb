/** Each ledger operation keeps the invariant, and its record checks never get in the way. */
module LedgerSteps {
  import opened Wrappers
  import opened MandateLedger
  import opened LedgerInvariant

  // ------------------------------------------------- moving one reservation

  /** Change one reservation and its mandate's totals by the same money. */
  ghost function Moved(s: Ledger, r: Reservation, reserved: int, consumed: int): Ledger
    requires r.mandateId in s.mandates
  {
    var m := s.mandates[r.mandateId];
    s.(mandates := s.mandates[r.mandateId := m.(reserved := m.reserved + reserved, consumed := m.consumed + consumed)],
       reservations := s.reservations[r.id := r])
  }

  /** What a reservation can turn into without changing what it is for. */
  ghost predicate SameDeal(r: Reservation, was: Reservation) {
    && r.id == was.id && r.mandateId == was.mandateId && r.intentId == was.intentId && r.intentHash == was.intentHash
    && r.amount == was.amount && r.payee == was.payee && r.reservedAt == was.reservedAt
  }

  function Gain(r: Reservation, fate: Fate): int {
    if FateOf(r.status) == fate then r.amount else 0
  }

  lemma MovedReservations(rs: Reservations, byIntent: map<IntentId, ReservationId>, r: Reservation)
    requires ReservationsOk(rs, byIntent) && r.id in rs && SameDeal(r, rs[r.id]) && ValidReservation(r)
    ensures ReservationsOk(rs[r.id := r], byIntent)
  {
    hide ValidReservation;
  }

  lemma MovedMandate(mandates: map<MandateId, Mandate>, rs: Reservations, r: Reservation, k: MandateId, reserved: int, consumed: int)
    requires MandatesOk(mandates, rs) && r.id in rs && SameDeal(r, rs[r.id]) && k in mandates
    requires forall j :: j in rs ==> rs[j].amount > 0
    requires reserved == Gain(r, Held) - Gain(rs[r.id], Held) && consumed == Gain(r, Spent) - Gain(rs[r.id], Spent)
    requires reserved + consumed <= 0
    ensures var m := mandates[k];
            MandateOk(if k == r.mandateId then m.(reserved := m.reserved + reserved, consumed := m.consumed + consumed) else m, k, rs[r.id := r])
  {
    SumAfterChange(rs, r.id, r, k, Held);
    SumAfterChange(rs, r.id, r, k, Spent);
    SumIsNonNegative(rs[r.id := r], k, Held);
    SumIsNonNegative(rs[r.id := r], k, Spent);
  }

  lemma MovedKeepsInv(s: Ledger, r: Reservation, reserved: int, consumed: int)
    requires Inv(s) && r.id in s.reservations && SameDeal(r, s.reservations[r.id]) && ValidReservation(r)
    requires reserved == Gain(r, Held) - Gain(s.reservations[r.id], Held)
    requires consumed == Gain(r, Spent) - Gain(s.reservations[r.id], Spent)
    requires reserved + consumed <= 0
    ensures r.mandateId in s.mandates
    ensures Inv(Moved(s, r, reserved, consumed))
  {
    hide ValidReservation, MandateOk, FateOf, Gain, Sum;
    MovedReservations(s.reservations, s.byIntent, r);
    var t := Moved(s, r, reserved, consumed);
    forall k | k in t.mandates ensures MandateOk(t.mandates[k], k, t.reservations) {
      MovedMandate(s.mandates, s.reservations, r, k, reserved, consumed);
    }
  }

  /** The record checks of a settled move always pass. */
  lemma SettleIsMoved(s: Ledger, r: Reservation, reserved: int, consumed: int)
    requires r.mandateId in s.mandates && Inv(Moved(s, r, reserved, consumed)) && ValidReservation(r)
    ensures Settle(s, r, reserved, consumed) == Outcome(Moved(s, r, reserved, consumed), Ok(r))
  {
    hide ValidReservation, Sum, ReservationsOk, OneActive;
    var t := Moved(s, r, reserved, consumed);
    assert MandateOk(t.mandates[r.mandateId], r.mandateId, t.reservations);
  }

  lemma MoveNeverFails(s: Ledger, r: Reservation, reserved: int, consumed: int)
    requires Inv(s) && r.id in s.reservations && SameDeal(r, s.reservations[r.id]) && ValidReservation(r)
    requires reserved == Gain(r, Held) - Gain(s.reservations[r.id], Held)
    requires consumed == Gain(r, Spent) - Gain(s.reservations[r.id], Spent)
    requires reserved + consumed <= 0
    ensures r.mandateId in s.mandates
    ensures Settle(s, r, reserved, consumed) == Outcome(Moved(s, r, reserved, consumed), Ok(r))
    ensures Inv(Moved(s, r, reserved, consumed))
  {
    hide ValidReservation, Inv, Moved, Gain, Settle;
    MovedKeepsInv(s, r, reserved, consumed);
    SettleIsMoved(s, r, reserved, consumed);
  }

  lemma Found(s: Ledger, id: ReservationId)
    requires Inv(s) && id in s.reservations
    ensures s.reservations[id].id == id && s.reservations[id].amount > 0 && ValidReservation(s.reservations[id])
    ensures s.reservations[id].mandateId in s.mandates
    ensures Indexed(s)
  {
    hide ValidReservation, MandateOk, OneActive, AllAllowed;
  }

  // ------------------------------------------------------ each operation

  /** Consuming fails on a live reservation only for a malformed hash: the totals always fit. */
  lemma ConsumeKeepsInv(s: Ledger, id: ReservationId, tx: string, now: int)
    requires Inv(s)
    ensures Indexed(s) && Inv(Consume(s, id, tx, now).state)
    ensures Consume(s, id, tx, now).result == Err(InvalidRecord) <==>
              && id in s.reservations && FateOf(s.reservations[id].status) == Held && !ValidTxHash(Lower(tx))
  {
    hide Inv, Indexed, ValidTxHash, Lower;
    InvIndexed(s);
    if id in s.reservations {
      var r := s.reservations[id];
      Found(s, id);
      if FateOf(r.status) == Held && ValidTxHash(Lower(tx)) {
        MoveNeverFails(s, r.(id := id, status := Consumed, finalizedAt := Some(now), txHash := Some(Lower(tx))), -r.amount, r.amount);
      }
    }
  }

  /** Releasing a reserved amount never fails once the reason is well formed. */
  lemma ReleaseKeepsInv(s: Ledger, id: ReservationId, reason: string, now: int)
    requires Inv(s)
    ensures Indexed(s) && Inv(Release(s, id, reason, now).state)
    ensures Release(s, id, reason, now).result != Err(InvalidRecord)
  {
    hide Inv, Indexed, ValidTxHash;
    InvIndexed(s);
    if id in s.reservations && reason != "" {
      var r := s.reservations[id];
      Found(s, id);
      if r.status == Reserved {
        MoveNeverFails(s, r.(id := id, status := Released, finalizedAt := Some(now), releaseReason := Some(reason)), -r.amount, 0);
      }
    }
  }

  lemma SubmitKeepsInv(s: Ledger, id: ReservationId, tx: string)
    requires Inv(s)
    ensures Inv(Submit(s, id, tx).state)
    ensures Submit(s, id, tx).result == Err(InvalidRecord) <==>
              && id in s.reservations && s.reservations[id].status == Reserved && !ValidTxHash(Lower(tx))
  {
    hide Inv, Indexed, ValidTxHash, Lower;
    if id in s.reservations {
      var r := s.reservations[id];
      Found(s, id);
      if r.status == Reserved && ValidTxHash(Lower(tx)) {
        var n := r.(status := Submitted, txHash := Some(Lower(tx)));
        MovedKeepsInv(s, n, 0, 0);
        assert Moved(s, n, 0, 0) == s.(reservations := s.reservations[id := n]);
      }
    }
  }

  /** The plain row updates keep what the checked copies would have enforced. */
  lemma ReconciledKeepsInv(s: Ledger, id: ReservationId, evidence: Evidence, now: int)
    requires Inv(s) && id in s.reservations
    ensures Indexed(s) && Inv(Reconciled(s, id, evidence, now))
  {
    hide Inv, Indexed, ValidTxHash;
    Found(s, id);
    var r := s.reservations[id];
    if r.status == Submitted {
      match evidence
      case Reverted =>
        MovedKeepsInv(s, r.(status := Released, txHash := None, releaseReason := Some("chain_transaction_reverted"),
                            finalizedAt := Some(now)), -r.amount, 0);
      case Confirmed =>
        MovedKeepsInv(s, r.(status := Consumed, finalizedAt := Some(now)), -r.amount, r.amount);
    }
  }

  lemma ReservedMandate(mandates: map<MandateId, Mandate>, rs: Reservations, r: Reservation, k: MandateId)
    requires MandatesOk(mandates, rs) && r.id !in rs && k in mandates && r.mandateId in mandates
    requires r.status == Reserved && r.amount > 0 && forall j :: j in rs ==> rs[j].amount > 0
    requires var m := mandates[r.mandateId]; m.reserved + m.consumed + r.amount <= m.limits.maxCumulative
    ensures var m := mandates[k];
            MandateOk(if k == r.mandateId then m.(reserved := m.reserved + r.amount) else m, k, rs[r.id := r])
  {
    SumAfterChange(rs, r.id, r, k, Held);
    SumAfterChange(rs, r.id, r, k, Spent);
  }

  lemma ReservedIsNew(rs: Reservations, byIntent: map<IntentId, ReservationId>, r: Reservation)
    requires ReservationsOk(rs, byIntent) && r.intentId !in byIntent && r.amount > 0 && ValidReservation(r)
    requires r.id == ReservationId(r.mandateId, r.intentId, r.intentHash)
    ensures r.id !in rs && ReservationsOk(rs[r.id := r], byIntent[r.intentId := r.id])
  {
    hide ValidReservation;
  }

  ghost function WithReserved(s: Ledger, r: Reservation): Ledger
    requires r.mandateId in s.mandates
  {
    var m := s.mandates[r.mandateId];
    s.(mandates := s.mandates[r.mandateId := m.(reserved := m.reserved + r.amount)],
       reservations := s.reservations[r.id := r], byIntent := s.byIntent[r.intentId := r.id])
  }

  lemma WithReservedKeepsInv(s: Ledger, r: Reservation)
    requires Inv(s) && r.mandateId in s.mandates && r.intentId !in s.byIntent && r.status == Reserved && ValidReservation(r)
    requires r.id == ReservationId(r.mandateId, r.intentId, r.intentHash) && r.amount > 0
    requires Allowed(r, s.mandates[r.mandateId])
    requires var m := s.mandates[r.mandateId]; m.reserved + m.consumed + r.amount <= m.limits.maxCumulative
    ensures Inv(WithReserved(s, r)) && r.id !in s.reservations
  {
    hide ValidReservation, MandateOk, Sum;
    ReservedIsNew(s.reservations, s.byIntent, r);
    var t := WithReserved(s, r);
    forall k | k in t.mandates ensures MandateOk(t.mandates[k], k, t.reservations) {
      ReservedMandate(s.mandates, s.reservations, r, k);
    }
  }

  /** Reserving is accepted exactly when the mandate allows it; the new totals always fit. */
  lemma ReserveKeepsInv(s: Ledger, id: MandateId, terms: Terms, now: int)
    requires Inv(s)
    ensures Indexed(s) && Inv(Reserve(s, id, terms, now).state)
    ensures Reserve(s, id, terms, now).result != Err(InvalidRecord)
    ensures terms.intentId !in s.byIntent ==>
              (Reserve(s, id, terms, now).result.Ok? <==> id in s.mandates && MandateError(s.mandates[id], terms, now).None?)
  {
    hide Inv, Indexed, ValidTxHash;
    InvIndexed(s);
    if terms.intentId !in s.byIntent && id in s.mandates && MandateError(s.mandates[id], terms, now).None? {
      var r := NewReservation(id, terms, now);
      WithReservedKeepsInv(s, r);
      assert ValidMandate(s.mandates[id]) by { MandateIsValid(s, id); }
      assert Reserve(s, id, terms, now) == Outcome(WithReserved(s, r), Ok(r));
    }
  }

  lemma MandateIsValid(s: Ledger, id: MandateId)
    requires Inv(s) && id in s.mandates
    ensures ValidMandate(s.mandates[id]) && s.mandates[id].id == id
  {
    assert MandateOk(s.mandates[id], id, s.reservations);
  }

  // ------------------------------------------------------------- mandates

  /** The same money and terms; only the revocation may differ. */
  ghost predicate SameBut(m: Mandate, was: Mandate) {
    m == was.(revokedAt := m.revokedAt)
  }

  ghost predicate Retouched(after: map<MandateId, Mandate>, before: map<MandateId, Mandate>) {
    after.Keys == before.Keys && forall k | k in before :: SameBut(after[k], before[k])
  }

  lemma RetouchedKeepsMandates(after: map<MandateId, Mandate>, before: map<MandateId, Mandate>, rs: Reservations)
    requires Retouched(after, before) && MandatesOk(before, rs) && AllAllowed(before, rs)
    ensures MandatesOk(after, rs) && AllAllowed(after, rs)
  {
    hide Sum;
    forall k | k in after ensures MandateOk(after[k], k, rs) {
      assert SameBut(after[k], before[k]) && MandateOk(before[k], k, rs);
    }
  }

  ghost predicate Fresh(m: Mandate) {
    ValidMandate(m) && m.reserved == 0 && m.consumed == 0
  }

  lemma AddedKeepsMandates(mandates: map<MandateId, Mandate>, rs: Reservations, m: Mandate)
    requires MandatesOk(mandates, rs) && AllAllowed(mandates, rs)
    requires m.id in mandates ==> mandates[m.id] == m
    requires Fresh(m)
    ensures MandatesOk(mandates[m.id := m], rs) && AllAllowed(mandates[m.id := m], rs)
  {
    hide Sum, ValidMandate;
    if m.id in mandates {
      assert mandates[m.id := m] == mandates;
    } else {
      SumOfStranger(rs, m.id, Held);
      SumOfStranger(rs, m.id, Spent);
    }
  }

  lemma LapseRetouches(mandates: map<MandateId, Mandate>, m: Mandate, observedAt: int)
    ensures Retouched(LapseAll(mandates, m, observedAt), mandates)
    ensures m.id in mandates && mandates[m.id].id == m.id ==> LapseAll(mandates, m, observedAt)[m.id] == mandates[m.id]
  {
  }

  lemma LapseKeepsOneActive(mandates: map<MandateId, Mandate>, m: Mandate, observedAt: int)
    requires OneActive(mandates)
    ensures OneActive(LapseAll(mandates, m, observedAt))
  {
  }

  lemma AddedKeepsOneActive(mandates: map<MandateId, Mandate>, m: Mandate)
    requires OneActive(mandates) && !HasRival(mandates, m) && forall k :: k in mandates ==> mandates[k].id == k
    ensures OneActive(mandates[m.id := m])
  {
    forall k | k in mandates && k != m.id
      ensures !(mandates[k].userId == m.userId && mandates[k].gameId == m.gameId && mandates[k].revokedAt.None?) {
      assert !Rivals(mandates[k], m);
    }
  }

  lemma CreateKeepsInv(s: Ledger, m: Mandate, observedAt: int)
    requires Inv(s) && Fresh(m)
    ensures Inv(Create(s, m, observedAt).state)
  {
    hide ReservationsOk, OneActive, LapseAll, HasRival, MandateOk, Sum, ValidMandate, Allowed;
    if m.id !in s.mandates || s.mandates[m.id] == m {
      var lapsed := LapseAll(s.mandates, m, observedAt);
      LapseRetouches(s.mandates, m, observedAt);
      RetouchedKeepsMandates(lapsed, s.mandates, s.reservations);
      LapseKeepsOneActive(s.mandates, m, observedAt);
      if !HasRival(lapsed, m) {
        KeysAreIds(lapsed, s.reservations);
        AddedKeepsMandates(lapsed, s.reservations, m);
        AddedKeepsOneActive(lapsed, m);
      }
    }
  }

  lemma KeysAreIds(mandates: map<MandateId, Mandate>, rs: Reservations)
    requires MandatesOk(mandates, rs)
    ensures forall k :: k in mandates ==> mandates[k].id == k
  {
    hide Sum;
    forall k | k in mandates ensures mandates[k].id == k {
      assert MandateOk(mandates[k], k, rs);
    }
  }

  lemma RevokeKeepsInv(s: Ledger, id: MandateId, userId: string, now: int)
    requires Inv(s)
    ensures Inv(Revoke(s, id, userId, now).state)
  {
    hide ReservationsOk, MandatesOk, AllAllowed;
    RetouchedKeepsMandates(Revoke(s, id, userId, now).state.mandates, s.mandates, s.reservations);
  }
}
