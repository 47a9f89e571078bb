/** What each ledger operation does, in statuses, hashes and totals, and when it answers what. */
module LedgerEffects {
  import opened Wrappers
  import opened MandateLedger
  import opened LedgerInvariant
  import opened LedgerSteps
  import opened LedgerRuns

  /** The mandate with its totals moved and nothing else changed. */
  function Shifted(m: Mandate, reserved: int, consumed: int): Mandate {
    Mandate(m.id, m.userId, m.gameId, m.chainId, m.tokenAddress, m.limits, m.allowedPayees, m.validFrom, m.expiresAt,
            m.reserved + reserved, m.consumed + consumed, m.revokedAt)
  }

  /** The reservation in its new state and nothing else changed. */
  function Turned(r: Reservation, status: ReservationStatus, finalizedAt: Option<int>, tx: Option<string>, reason: Option<string>): Reservation {
    Reservation(r.id, r.mandateId, r.intentId, r.intentHash, r.amount, r.payee, status, r.reservedAt, finalizedAt, tx, reason)
  }

  // ---------------------------------------------------------------- consuming

  /** A held amount is consumed under the lower-cased hash: it moves from reserved to consumed. */
  lemma ConsumingMovesTheAmount(s: Ledger, id: ReservationId, tx: string, now: int)
    requires Inv(s) && id in s.reservations && (s.reservations[id].status == Reserved || s.reservations[id].status == Submitted)
    requires ValidTxHash(Lower(tx))
    ensures Indexed(s) && s.reservations[id].mandateId in s.mandates
    ensures var r := s.reservations[id]; var m := r.mandateId; var o := Consume(s, id, tx, now);
            && o.result == Ok(Turned(r, Consumed, Some(now), Some(Lower(tx)), None))
            && o.state.reservations == s.reservations[id := o.result.value]
            && o.state.mandates == s.mandates[m := Shifted(s.mandates[m], -r.amount, r.amount)]
            && o.state.byIntent == s.byIntent
  {
    hide Inv, Indexed, ValidTxHash, Lower, ValidMandate;
    InvIndexed(s);
    Found(s, id);
    var r := s.reservations[id];
    MoveNeverFails(s, Turned(r, Consumed, Some(now), Some(Lower(tx)), None), -r.amount, r.amount);
  }

  /** Otherwise consuming changes nothing, and says why. */
  lemma ConsumingAnswers(s: Ledger, id: ReservationId, tx: string, now: int)
    requires Inv(s)
    ensures Indexed(s)
    ensures id !in s.reservations ==> Consume(s, id, tx, now) == Outcome(s, Err(ReservationNotFound))
    ensures id in s.reservations && s.reservations[id].status == Released ==> Consume(s, id, tx, now) == Outcome(s, Err(NotConsumable))
    ensures id in s.reservations && s.reservations[id].status == Consumed ==>
              Consume(s, id, tx, now) ==
                Outcome(s, if s.reservations[id].txHash == Some(Lower(tx)) then Ok(s.reservations[id]) else Err(TxConflict))
  {
    hide Inv, Indexed, Lower;
    InvIndexed(s);
  }

  // --------------------------------------------------------------- submitting

  /** A reserved amount stays held when its transaction is submitted. */
  lemma SubmittingKeepsTheAmount(s: Ledger, id: ReservationId, tx: string)
    requires Inv(s) && id in s.reservations && s.reservations[id].status == Reserved && ValidTxHash(Lower(tx))
    ensures var o := Submit(s, id, tx);
            && o.result == Ok(Turned(s.reservations[id], Submitted, None, Some(Lower(tx)), None))
            && o.state == s.(reservations := s.reservations[id := o.result.value])
  {
    hide Inv, ValidTxHash, Lower;
    Found(s, id);
  }

  lemma SubmittingAnswers(s: Ledger, id: ReservationId, tx: string)
    ensures id !in s.reservations ==> Submit(s, id, tx) == Outcome(s, Err(ReservationNotFound))
    ensures id in s.reservations && s.reservations[id].status == Released ==> Submit(s, id, tx) == Outcome(s, Err(NotSubmittable))
    ensures id in s.reservations && (s.reservations[id].status == Submitted || s.reservations[id].status == Consumed) ==>
              Submit(s, id, tx) ==
                Outcome(s, if s.reservations[id].txHash == Some(Lower(tx)) then Ok(s.reservations[id]) else Err(TxConflict))
  {
    hide Lower;
  }

  // ---------------------------------------------------------------- releasing

  /** A reserved amount is given back to the mandate's budget, with the reason. */
  lemma ReleasingReturnsTheAmount(s: Ledger, id: ReservationId, reason: string, now: int)
    requires Inv(s) && id in s.reservations && s.reservations[id].status == Reserved && 1 <= |reason| <= 100
    ensures Indexed(s) && s.reservations[id].mandateId in s.mandates
    ensures var r := s.reservations[id]; var m := r.mandateId; var o := Release(s, id, reason, now);
            && o.result == Ok(Turned(r, Released, Some(now), None, Some(reason)))
            && o.state.reservations == s.reservations[id := o.result.value]
            && o.state.mandates == s.mandates[m := Shifted(s.mandates[m], -r.amount, 0)]
            && o.state.byIntent == s.byIntent
  {
    hide Inv, Indexed, ValidTxHash, ValidMandate;
    InvIndexed(s);
    Found(s, id);
    var r := s.reservations[id];
    MoveNeverFails(s, Turned(r, Released, Some(now), None, Some(reason)), -r.amount, 0);
  }

  lemma ReleasingAnswers(s: Ledger, id: ReservationId, reason: string, now: int)
    requires Inv(s)
    ensures Indexed(s)
    ensures !(1 <= |reason| <= 100) ==> Release(s, id, reason, now) == Outcome(s, Err(InvalidReason))
    ensures 1 <= |reason| <= 100 && id !in s.reservations ==> Release(s, id, reason, now) == Outcome(s, Err(ReservationNotFound))
    ensures 1 <= |reason| <= 100 && id in s.reservations && s.reservations[id].status in {Submitted, Consumed} ==>
              Release(s, id, reason, now) == Outcome(s, Err(NotReleasable))
    ensures 1 <= |reason| <= 100 && id in s.reservations && s.reservations[id].status == Released ==>
              Release(s, id, reason, now) ==
                Outcome(s, if s.reservations[id].releaseReason == Some(reason) then Ok(s.reservations[id]) else Err(ReleaseConflict))
  {
    hide Inv, Indexed;
    InvIndexed(s);
  }

  // ---------------------------------------------------------------- reserving

  /** A new reservation carries the terms it was asked for, and its amount is added to the reserved total. */
  lemma ReservingHoldsTheAmount(s: Ledger, id: MandateId, terms: Terms, now: int)
    requires Inv(s) && Indexed(s) && terms.intentId !in s.byIntent && Reserve(s, id, terms, now).result.Ok?
    ensures id in s.mandates
    ensures var o := Reserve(s, id, terms, now); var r := o.result.value;
            && r == Reservation(ReservationId(id, terms.intentId, terms.intentHash), id, terms.intentId, terms.intentHash, terms.amount,
                                terms.payee, Reserved, now, None, None, None)
            && r.id !in s.reservations
            && o.state.reservations == s.reservations[r.id := r] && o.state.byIntent == s.byIntent[terms.intentId := r.id]
            && o.state.mandates == s.mandates[id := Shifted(s.mandates[id], terms.amount, 0)]
  {
    hide Inv, Indexed, MandateError, ValidMandate;
    NewIdIsNew(s, ReservationId(id, terms.intentId, terms.intentHash), terms.intentId);
  }

  /** Every refusal of a mandate names a rule it breaks. */
  lemma RefusalsAreTrue(m: Mandate, terms: Terms, now: int)
    requires MandateError(m, terms, now).Some?
    ensures match MandateError(m, terms, now).value
            case MandateRevoked => m.revokedAt.Some?
            case NotYetValid => now < m.validFrom
            case Expired => m.expiresAt <= now
            case GameMismatch => terms.gameId != m.gameId
            case ChainMismatch => terms.chainId != m.chainId
            case TokenMismatch => terms.tokenAddress != m.tokenAddress
            case PayeeNotAllowed => terms.payee !in m.allowedPayees
            case PerPaymentLimit => m.limits.maxPerPayment < terms.amount
            case CumulativeLimit => m.limits.maxCumulative < m.reserved + m.consumed + terms.amount
            case _ => false
  {
  }

  // ---------------------------------------------------------------- mandates

  /** The owner of a mandate revokes it, once. */
  lemma RevokingRevokes(s: Ledger, id: MandateId, userId: string, now: int)
    ensures Revoke(s, id, userId, now).result.Ok? <==> id in s.mandates && s.mandates[id].userId == userId
    ensures Revoke(s, id, userId, now).result.Ok? ==>
              var t := Revoke(s, id, userId, now).state;
              && id in t.mandates && Revoke(s, id, userId, now).result.value == t.mandates[id]
              && t.mandates[id].revokedAt == (if s.mandates[id].revokedAt.Some? then s.mandates[id].revokedAt else Some(now))
              && t.mandates[id] == s.mandates[id].(revokedAt := t.mandates[id].revokedAt)
              && t == s.(mandates := s.mandates[id := t.mandates[id]])
  {
    if id in s.mandates && s.mandates[id].revokedAt.Some? {
      assert s.mandates[id := s.mandates[id]] == s.mandates;
    }
  }

  /** After a revocation no run leads to a state in which the mandate takes a new reservation. */
  lemma RevokedMandatesTakeNothing(s: Ledger, id: MandateId, userId: string, now: int, calls: seq<Call>, terms: Terms, later: int)
    requires Inv(s) && LegalRun(calls) && Revoke(s, id, userId, now).result.Ok?
    ensures Inv(Revoke(s, id, userId, now).state)
    ensures var t := After(Revoke(s, id, userId, now).state, calls);
            Indexed(t) && (terms.intentId !in t.byIntent ==> Reserve(t, id, terms, later) == Outcome(t, Err(MandateRevoked)))
  {
    hide Inv, Indexed, After, Revoke;
    RevokeKeepsInv(s, id, userId, now);
    RevokingRevokes(s, id, userId, now);
    var u := Revoke(s, id, userId, now).state;
    RunsOnlyGrow(u, calls);
    InvIndexed(After(u, calls));
  }

  /** A mandate of the same user and game stands in the way while it is unrevoked and its window is open. */
  ghost predicate InTheWay(m: Mandate, other: Mandate, observedAt: int) {
    m.id != other.id && m.userId == other.userId && m.gameId == other.gameId && m.revokedAt.None? && observedAt < m.expiresAt
  }

  /** A mandate under a new id is created exactly when none of its user and game is in the way. */
  lemma CreatedExactlyWhenNoneInTheWay(s: Ledger, m: Mandate, observedAt: int)
    requires Inv(s) && m.id !in s.mandates
    ensures Create(s, m, observedAt).result.Ok? <==> !exists k :: k in s.mandates && InTheWay(s.mandates[k], m, observedAt)
    ensures Create(s, m, observedAt).result.Ok? ==>
              Create(s, m, observedAt).result == Ok(m) && m.id in Create(s, m, observedAt).state.mandates
              && Create(s, m, observedAt).state.mandates[m.id] == m
  {
    hide Inv;
    var lapsed := LapseAll(s.mandates, m, observedAt);
    if HasRival(lapsed, m) {
      var k :| k in lapsed && Rivals(lapsed[k], m);
      assert InTheWay(s.mandates[k], m, observedAt);
    }
    if k :| k in s.mandates && InTheWay(s.mandates[k], m, observedAt) {
      assert k in lapsed && Rivals(lapsed[k], m);
    }
  }

  /** Creating revokes exactly the unrevoked mandates of the same user and game whose window has closed. */
  lemma CreatingRevokesOnlyTheExpired(s: Ledger, m: Mandate, observedAt: int, k: MandateId)
    requires Inv(s) && k in s.mandates && k != m.id && (m.id in s.mandates ==> s.mandates[m.id] == m)
    ensures k in Create(s, m, observedAt).state.mandates
    ensures var was := s.mandates[k];
            Create(s, m, observedAt).state.mandates[k] ==
              if was.userId == m.userId && was.gameId == m.gameId && was.revokedAt.None? && was.expiresAt <= observedAt
              then was.(revokedAt := Some(observedAt)) else was
  {
    hide ReservationsOk, OneActive, AllAllowed, HasRival;
    assert MandateOk(s.mandates[k], k, s.reservations);
  }

  // ------------------------------------------------------------------ records

  /** A transaction hash is "0x" and 64 hexadecimal digits, kept in lower case. */
  lemma HashesInLowerCase(tx: string)
    ensures |Lower(tx)| == |tx|
    ensures forall i | 0 <= i < |tx| :: Lower(tx)[i] == if 'A' <= tx[i] <= 'Z' then ((tx[i] as int + 32) as char) else tx[i]
    ensures ValidTxHash(tx) <==>
              && |tx| == 66 && tx[..2] == "0x"
              && forall i | 2 <= i < 66 :: '0' <= tx[i] <= '9' || 'a' <= tx[i] <= 'f' || 'A' <= tx[i] <= 'F'
  {
    if |tx| >= 2 {
      assert tx[..2] == [tx[0], tx[1]];
    }
  }

  /** After every run a reservation carries exactly the fields of its status. */
  lemma FieldsFitTheStatus(calls: seq<Call>, id: ReservationId)
    requires LegalRun(calls) && id in Reached(calls).reservations
    ensures var r := Reached(calls).reservations[id];
            && (r.finalizedAt.Some? <==> r.status == Consumed || r.status == Released)
            && (r.txHash.Some? <==> r.status == Submitted || r.status == Consumed)
            && (r.releaseReason.Some? <==> r.status == Released)
            && (r.txHash.Some? ==> ValidTxHash(r.txHash.value))
            && id == ReservationId(r.mandateId, r.intentId, r.intentHash) && r.id == id
  {
    hide After, ValidTxHash, MandatesOk, OneActive, AllAllowed;
    assert Inv(Reached(calls));
  }
}
