/** The in-memory payment repository, and the row loop of the reconcile transaction. */
module PaymentRepository {
  import opened Wrappers
  import opened MandateLedger
  import opened LedgerInvariant
  import opened LedgerSteps
  import opened LedgerRuns

  type Answer<T> = Result<T, LedgerError>

  /** What the reconcile query returns for one submitted reservation. */
  datatype Row = Row(id: ReservationId, mandateId: MandateId, amount: int, evidence: Evidence)

  /** The rows name distinct submitted reservations and copy their columns. */
  ghost predicate Selected(s: Ledger, rows: seq<Row>) {
    && (forall i | 0 <= i < |rows| :: RowMatches(s.reservations, rows[i]))
    && (forall i, j | 0 <= i < j < |rows| :: rows[i].id != rows[j].id)
  }

  ghost predicate RowMatches(rs: Reservations, row: Row) {
    row.id in rs && rs[row.id].status == Submitted && rs[row.id].mandateId == row.mandateId && rs[row.id].amount == row.amount
  }

  function RowCall(row: Row, now: int): Call {
    ReconcileRow(row.id, row.evidence, now)
  }

  function RowCalls(rows: seq<Row>, now: int): seq<Call> {
    if rows == [] then [] else RowCalls(rows[..|rows| - 1], now) + [RowCall(rows[|rows| - 1], now)]
  }

  lemma {:induction false} RowCallsAreLegal(rows: seq<Row>, now: int)
    ensures LegalRun(RowCalls(rows, now))
  {
    if rows != [] {
      RowCallsAreLegal(rows[..|rows| - 1], now);
    }
  }

  lemma {:induction false} AfterOneMore(s: Ledger, calls: seq<Call>, c: Call)
    requires Inv(s) && LegalRun(calls) && Legal(c)
    ensures LegalRun(calls + [c]) && Indexed(After(s, calls))
    ensures After(s, calls + [c]) == Step(After(s, calls), c)
    decreases |calls|
  {
    hide Inv, Step, Legal;
    InvIndexed(After(s, calls));
    assert LegalRun(calls + [c]) by {
      forall i | 0 <= i < |calls + [c]| ensures Legal((calls + [c])[i]) {}
    }
    if calls == [] {
      assert [c][1..] == [];
    } else {
      StepKeepsInv(s, calls[0]);
      assert (calls + [c])[1..] == calls[1..] + [c];
      AfterOneMore(Step(s, calls[0]), calls[1..], c);
    }
  }

  /** What chain evidence makes of a submitted reservation. */
  ghost predicate Reconciles(r: Reservation, was: Reservation, evidence: Evidence, now: int) {
    && SameDeal(r, was) && r.finalizedAt == Some(now)
    && match evidence
       case Reverted => r.status == Released && r.txHash == None && r.releaseReason == Some("chain_transaction_reverted")
       case Confirmed => r.status == Consumed && r.txHash == was.txHash && r.releaseReason == was.releaseReason
  }

  /** The amounts of a mandate's rows with one kind of evidence. */
  function Due(rows: seq<Row>, m: MandateId, evidence: Evidence): int {
    if rows == [] then 0
    else
      var row := rows[|rows| - 1];
      Due(rows[..|rows| - 1], m, evidence) + if row.mandateId == m && row.evidence == evidence then row.amount else 0
  }

  /** The totals after some rows: reverted and confirmed amounts leave the reserved total, confirmed ones are consumed. */
  ghost predicate Booked(after: map<MandateId, Mandate>, before: map<MandateId, Mandate>, rows: seq<Row>) {
    && after.Keys == before.Keys
    && forall m | m in before ::
         after[m] == before[m].(reserved := before[m].reserved - Due(rows, m, Reverted) - Due(rows, m, Confirmed),
                                consumed := before[m].consumed + Due(rows, m, Confirmed))
  }

  lemma BookOneMore(after: map<MandateId, Mandate>, before: map<MandateId, Mandate>, rows: seq<Row>, row: Row, next: map<MandateId, Mandate>)
    requires Booked(after, before, rows) && row.mandateId in before
    requires next == after[row.mandateId := after[row.mandateId].(
               reserved := after[row.mandateId].reserved - row.amount,
               consumed := after[row.mandateId].consumed + if row.evidence == Confirmed then row.amount else 0)]
    ensures Booked(next, before, rows + [row])
  {
    assert (rows + [row])[..|rows|] == rows;
  }

  class InMemoryPaymentRepository {
    var mandates: map<MandateId, Mandate>
    var reservations: map<ReservationId, Reservation>
    var byIntent: map<IntentId, ReservationId>

    ghost function View(): Ledger
      reads this
    {
      Ledger(mandates, reservations, byIntent)
    }

    ghost predicate Valid()
      reads this
    {
      Inv(View())
    }

    constructor ()
      ensures Valid() && View() == EMPTY
    {
      mandates, reservations, byIntent := map[], map[], map[];
      new;
      EmptyIsOk();
    }

    /** The first loop: rivals whose window has closed are revoked one by one. */
    method LapseRivals(mandate: Mandate, observedAt: int)
      modifies this`mandates
      ensures mandates == LapseAll(old(mandates), mandate, observedAt)
    {
      hide Inv;
      ghost var before := mandates;
      var todo := mandates.Keys;
      while todo != {}
        invariant todo <= before.Keys == mandates.Keys
        invariant forall k :: k in todo ==> mandates[k] == before[k]
        invariant forall k :: k in before.Keys - todo ==> mandates[k] == Lapsed(before[k], mandate, observedAt)
        decreases |todo|
      {
        var k :| k in todo;
        var value := mandates[k];
        if && value.userId == mandate.userId && value.gameId == mandate.gameId && value.revokedAt.None?
           && value.expiresAt <= observedAt && value.id != mandate.id {
          mandates := mandates[k := value.(revokedAt := Some(observedAt))];
        }
        todo := todo - {k};
      }
    }

    /** The second loop: is another mandate of the same user and game still active? */
    method FindRival(mandate: Mandate) returns (found: bool)
      ensures found <==> HasRival(mandates, mandate)
    {
      var todo := mandates.Keys;
      found := false;
      while todo != {}
        invariant todo <= mandates.Keys
        invariant forall k :: k in mandates.Keys - todo ==> !Rivals(mandates[k], mandate)
        decreases |todo|
      {
        var k :| k in todo;
        var value := mandates[k];
        if value.userId == mandate.userId && value.gameId == mandate.gameId && value.revokedAt.None? && value.id != mandate.id {
          assert Rivals(mandates[k], mandate);
          return true;
        }
        todo := todo - {k};
      }
    }

    method CreateMandate(mandate: Mandate, observedAt: int) returns (r: Answer<Mandate>)
      requires Valid() && Fresh(mandate)
      modifies this
      ensures Valid() && Outcome(View(), r) == Create(old(View()), mandate, observedAt)
    {
      hide Inv, HasRival, LapseAll, Fresh;
      CreateKeepsInv(View(), mandate, observedAt);
      if mandate.id in mandates && mandates[mandate.id] != mandate {
        return Err(MandateConflict);
      }
      LapseRivals(mandate, observedAt);
      var rival := FindRival(mandate);
      if rival {
        return Err(ActiveMandateExists);
      }
      mandates := mandates[mandate.id := mandate];
      return Ok(mandate);
    }

    method RevokeMandate(id: MandateId, userId: string, now: int) returns (r: Answer<Mandate>)
      requires Valid()
      modifies this`mandates
      ensures Valid() && Outcome(View(), r) == Revoke(old(View()), id, userId, now)
    {
      hide Inv;
      RevokeKeepsInv(View(), id, userId, now);
      if id !in mandates || mandates[id].userId != userId {
        return Err(MandateNotFound);
      }
      var mandate := mandates[id];
      if mandate.revokedAt.None? {
        mandate := mandate.(revokedAt := Some(now));
        mandates := mandates[id := mandate];
      }
      return Ok(mandate);
    }

    method ReserveMandate(id: MandateId, terms: Terms, now: int) returns (r: Answer<Reservation>)
      requires Valid()
      modifies this
      ensures Valid() && Indexed(old(View())) && Outcome(View(), r) == Reserve(old(View()), id, terms, now)
    {
      hide Inv, MandateError, ValidMandate;
      InvIndexed(View());
      ReserveKeepsInv(View(), id, terms, now);
      if terms.intentId in byIntent {
        var existing := reservations[byIntent[terms.intentId]];
        if existing.mandateId != id || existing.intentHash != terms.intentHash
           || existing.amount != terms.amount || existing.payee != terms.payee {
          return Err(IntentConflict);
        }
        return Ok(existing);
      }
      if id !in mandates {
        return Err(MandateNotFound);
      }
      var mandate := mandates[id];
      var error := MandateError(mandate, terms, now);
      if error.Some? {
        return Err(error.value);
      }
      var reservation := NewReservation(id, terms, now);
      var accounted := WithAccounting(mandate, mandate.reserved + terms.amount, mandate.consumed);
      if accounted.None? {
        return Err(InvalidRecord);
      }
      mandates := mandates[id := accounted.value];
      reservations := reservations[reservation.id := reservation];
      byIntent := byIntent[terms.intentId := reservation.id];
      return Ok(reservation);
    }

    method ConsumeReservation(id: ReservationId, tx: string, now: int) returns (r: Answer<Reservation>)
      requires Valid()
      modifies this`mandates, this`reservations
      ensures Valid() && Indexed(old(View())) && Outcome(View(), r) == Consume(old(View()), id, tx, now)
    {
      hide Inv, ValidMandate, ValidReservation, Lower;
      InvIndexed(View());
      ConsumeKeepsInv(View(), id, tx, now);
      if id !in reservations {
        return Err(ReservationNotFound);
      }
      var reservation := reservations[id];
      Found(View(), id);
      if reservation.status == Consumed {
        if reservation.txHash != Some(Lower(tx)) {
          return Err(TxConflict);
        }
        return Ok(reservation);
      }
      if reservation.status != Reserved && reservation.status != Submitted {
        return Err(NotConsumable);
      }
      var consumed := reservation.(status := Consumed, finalizedAt := Some(now), txHash := Some(Lower(tx)));
      r := Replace(consumed, -reservation.amount, reservation.amount);
    }

    /** Both record copies are checked before either map changes. */
    method Replace(reservation: Reservation, reserved: int, consumed: int) returns (r: Answer<Reservation>)
      requires reservation.mandateId in mandates
      modifies this`mandates, this`reservations
      ensures Outcome(View(), r) == Settle(old(View()), reservation, reserved, consumed)
    {
      hide Inv, ValidMandate, ValidReservation;
      var mandate := mandates[reservation.mandateId];
      var accounted := WithAccounting(mandate, mandate.reserved + reserved, mandate.consumed + consumed);
      if !ValidReservation(reservation) || accounted.None? {
        return Err(InvalidRecord);
      }
      mandates := mandates[reservation.mandateId := accounted.value];
      reservations := reservations[reservation.id := reservation];
      return Ok(reservation);
    }

    method SubmitReservation(id: ReservationId, tx: string) returns (r: Answer<Reservation>)
      requires Valid()
      modifies this`reservations
      ensures Valid() && Outcome(View(), r) == Submit(old(View()), id, tx)
    {
      hide Inv, ValidReservation, Lower;
      SubmitKeepsInv(View(), id, tx);
      if id !in reservations {
        return Err(ReservationNotFound);
      }
      var reservation := reservations[id];
      var normalized := Lower(tx);
      if reservation.status == Submitted || reservation.status == Consumed {
        if reservation.txHash != Some(normalized) {
          return Err(TxConflict);
        }
        return Ok(reservation);
      }
      if reservation.status != Reserved {
        return Err(NotSubmittable);
      }
      var submitted := reservation.(status := Submitted, txHash := Some(normalized));
      if !ValidReservation(submitted) {
        return Err(InvalidRecord);
      }
      reservations := reservations[id := submitted];
      return Ok(submitted);
    }

    method ReleaseReservation(id: ReservationId, reason: string, now: int) returns (r: Answer<Reservation>)
      requires Valid()
      modifies this`mandates, this`reservations
      ensures Valid() && Indexed(old(View())) && Outcome(View(), r) == Release(old(View()), id, reason, now)
    {
      hide Inv, ValidMandate, ValidReservation;
      InvIndexed(View());
      ReleaseKeepsInv(View(), id, reason, now);
      if reason == "" || |reason| > 100 {
        return Err(InvalidReason);
      }
      if id !in reservations {
        return Err(ReservationNotFound);
      }
      var reservation := reservations[id];
      Found(View(), id);
      if reservation.status == Released {
        if reservation.releaseReason != Some(reason) {
          return Err(ReleaseConflict);
        }
        return Ok(reservation);
      }
      if reservation.status != Reserved {
        return Err(NotReleasable);
      }
      r := Replace(reservation.(status := Released, finalizedAt := Some(now), releaseReason := Some(reason)),
                   -reservation.amount, 0);
    }

    /** One row's pair of updates, from the columns fetched before the loop. */
    method UpdateRow(row: Row, now: int)
      requires Valid() && RowMatches(reservations, row)
      modifies this`mandates, this`reservations
      ensures Valid() && RowUpdated(View(), old(View()), row, now)
    {
      hide Inv, ValidMandate, ValidReservation;
      InvIndexed(View());
      ReconciledKeepsInv(View(), row.id, row.evidence, now);
      Found(View(), row.id);
      var r := reservations[row.id];
      var m := mandates[row.mandateId];
      match row.evidence
      case Reverted =>
        reservations := reservations[row.id := r.(status := Released, txHash := None,
          releaseReason := Some("chain_transaction_reverted"), finalizedAt := Some(now))];
        mandates := mandates[row.mandateId := m.(reserved := m.reserved - row.amount)];
      case Confirmed =>
        reservations := reservations[row.id := r.(status := Consumed, finalizedAt := Some(now))];
        mandates := mandates[row.mandateId := m.(reserved := m.reserved - row.amount, consumed := m.consumed + row.amount)];
    }

    /** The unguarded updates of the loop do what the guarded steps would, one per row: a reverted row is released
        and its amount returned, a confirmed one consumed under its hash. */
    method ReconcileFinalized(rows: seq<Row>, now: int) returns (count: nat)
      requires Valid() && Selected(View(), rows)
      modifies this`mandates, this`reservations
      ensures Valid() && count == |rows|
      ensures LegalRun(RowCalls(rows, now)) && View() == After(old(View()), RowCalls(rows, now))
      ensures forall i | 0 <= i < |rows| ::
                && rows[i].id in old(reservations) && rows[i].id in reservations
                && Reconciles(reservations[rows[i].id], old(reservations)[rows[i].id], rows[i].evidence, now)
      ensures forall k | k in old(reservations) && (forall i | 0 <= i < |rows| :: rows[i].id != k) ::
                k in reservations && reservations[k] == old(reservations)[k]
      ensures Booked(mandates, old(mandates), rows)
    {
      hide Inv, Progress, RowUpdated, Reconciles, Booked, After, Selected;
      ghost var s := View();
      var i := 0;
      NoProgress(s, rows, now);
      while i < |rows|
        invariant 0 <= i <= |rows| && Valid() && Progress(View(), s, rows, i, now)
      {
        ghost var before := View();
        NextMatches(before, s, rows, i, now);
        UpdateRow(rows[i], now);
        OneMoreRow(View(), before, s, rows, i, now);
        i := i + 1;
      }
      ProgressMeans(View(), s, rows, now);
      count := |rows|;
    }
  }

  /** The effect of one row on the whole ledger. */
  ghost predicate RowUpdated(t: Ledger, s: Ledger, row: Row, now: int) {
    && Indexed(s) && t == Step(s, RowCall(row, now))
    && row.id in s.reservations && row.id in t.reservations && Reconciles(t.reservations[row.id], s.reservations[row.id], row.evidence, now)
    && (forall k | k in s.reservations && k != row.id :: k in t.reservations && t.reservations[k] == s.reservations[k])
    && row.mandateId in s.mandates
    && t.mandates == s.mandates[row.mandateId := s.mandates[row.mandateId].(
         reserved := s.mandates[row.mandateId].reserved - row.amount,
         consumed := s.mandates[row.mandateId].consumed + if row.evidence == Confirmed then row.amount else 0)]
  }

  /** Where the loop stands after n rows. */
  ghost predicate Progress(t: Ledger, s: Ledger, rows: seq<Row>, n: nat, now: int)
    requires n <= |rows|
  {
    && Inv(s) && Selected(s, rows) && LegalRun(RowCalls(rows[..n], now)) && t == After(s, RowCalls(rows[..n], now))
    && DoneUpTo(t.reservations, s.reservations, rows, n, now) && Booked(t.mandates, s.mandates, rows[..n])
    && (forall j | n <= j < |rows| :: RowMatches(t.reservations, rows[j]))
  }

  lemma NoProgress(s: Ledger, rows: seq<Row>, now: int)
    requires Inv(s) && Selected(s, rows)
    ensures Progress(s, s, rows, 0, now)
  {
    hide Inv, RowMatches;
    AfterNothing(s);
    NothingBooked(s.mandates);
    assert rows[..0] == [];
  }

  lemma NextMatches(t: Ledger, s: Ledger, rows: seq<Row>, n: nat, now: int)
    requires n < |rows| && Progress(t, s, rows, n, now)
    ensures RowMatches(t.reservations, rows[n])
  {
    hide Inv, After, DoneUpTo, Booked, Selected;
  }

  lemma OneMoreRow(u: Ledger, t: Ledger, s: Ledger, rows: seq<Row>, n: nat, now: int)
    requires n < |rows| && Progress(t, s, rows, n, now) && RowUpdated(u, t, rows[n], now)
    ensures Progress(u, s, rows, n + 1, now)
  {
    hide Inv, Step, Reconciles, Booked, DoneUpTo, RowMatches, After;
    RowCallsAreLegal(rows[..n + 1], now);
    assert rows[..n + 1][..n] == rows[..n] && rows[..n] + [rows[n]] == rows[..n + 1];
    AfterOneMore(s, RowCalls(rows[..n], now), RowCall(rows[n], now));
    SelectedIsIn(s, rows, n);
    BookedKeys(t.mandates, s.mandates, rows[..n]);
    StillSelected(u.reservations, t.reservations, rows, n);
    DoneOneMore(u.reservations, t.reservations, s.reservations, rows, n, now);
    BookOneMore(t.mandates, s.mandates, rows[..n], rows[n], u.mandates);
  }

  lemma SelectedIsIn(s: Ledger, rows: seq<Row>, n: nat)
    requires Selected(s, rows) && n < |rows|
    ensures rows[n].id in s.reservations
  {
  }

  lemma BookedKeys(after: map<MandateId, Mandate>, before: map<MandateId, Mandate>, rows: seq<Row>)
    requires Booked(after, before, rows)
    ensures forall m :: m in after <==> m in before
  {
  }

  lemma ProgressMeans(t: Ledger, s: Ledger, rows: seq<Row>, now: int)
    requires Progress(t, s, rows, |rows|, now)
    ensures Inv(s) && LegalRun(RowCalls(rows, now)) && t == After(s, RowCalls(rows, now)) && Booked(t.mandates, s.mandates, rows)
    ensures forall i | 0 <= i < |rows| ::
              rows[i].id in s.reservations && rows[i].id in t.reservations
              && Reconciles(t.reservations[rows[i].id], s.reservations[rows[i].id], rows[i].evidence, now)
    ensures forall k | k in s.reservations && (forall i | 0 <= i < |rows| :: rows[i].id != k) ::
              k in t.reservations && t.reservations[k] == s.reservations[k]
  {
    hide Inv, Reconciles, Booked, RowMatches, Selected, After;
    assert rows[..|rows|] == rows;
  }

  lemma NothingBooked(mandates: map<MandateId, Mandate>)
    ensures Booked(mandates, mandates, [])
  {
  }

  /** The first n rows are done, every other reservation is as it was. */
  ghost predicate DoneUpTo(now: Reservations, was: Reservations, rows: seq<Row>, n: nat, at: int)
    requires n <= |rows|
  {
    && (forall i | 0 <= i < n :: rows[i].id in was && rows[i].id in now && Reconciles(now[rows[i].id], was[rows[i].id], rows[i].evidence, at))
    && (forall k | k in was && (forall i | 0 <= i < n :: rows[i].id != k) :: k in now && now[k] == was[k])
  }

  lemma DoneOneMore(now: Reservations, before: Reservations, was: Reservations, rows: seq<Row>, n: nat, at: int)
    requires n < |rows| && forall j, k | 0 <= j < k < |rows| :: rows[j].id != rows[k].id
    requires DoneUpTo(before, was, rows, n, at) && rows[n].id in was
    requires forall k | k in before && k != rows[n].id :: k in now && now[k] == before[k]
    requires rows[n].id in before && rows[n].id in now && Reconciles(now[rows[n].id], before[rows[n].id], rows[n].evidence, at)
    ensures DoneUpTo(now, was, rows, n + 1, at)
  {
    hide Reconciles;
    assert before[rows[n].id] == was[rows[n].id];
    forall k | k in was && (forall i | 0 <= i < n + 1 :: rows[i].id != k) ensures k in now && now[k] == was[k] {
      assert rows[n].id != k;
    }
  }

  lemma AfterNothing(s: Ledger)
    requires Inv(s)
    ensures LegalRun([]) && After(s, []) == s
  {
  }

  lemma StillSelected(now: Reservations, before: Reservations, rows: seq<Row>, i: nat)
    requires i < |rows| && forall j, k | 0 <= j < k < |rows| :: rows[j].id != rows[k].id
    requires forall j | i <= j < |rows| :: RowMatches(before, rows[j])
    requires forall k | k in before && k != rows[i].id :: k in now && now[k] == before[k]
    ensures forall j | i + 1 <= j < |rows| :: RowMatches(now, rows[j])
  {
  }
}
