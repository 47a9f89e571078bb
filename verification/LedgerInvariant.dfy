/** The totals kept on each mandate agree with a sum over its reservations. */
module LedgerInvariant {
  import opened MandateLedger

  type Reservations = map<ReservationId, Reservation>

  // ----------------------------------------------------------------- sums

  /** Money of a reservation is held, spent or given back. */
  datatype Fate = Held | Spent | Returned

  function FateOf(status: ReservationStatus): Fate {
    match status
    case Reserved => Held
    case Submitted => Held
    case Consumed => Spent
    case Released => Returned
  }

  function Share(r: Reservation, m: MandateId, fate: Fate): int {
    if r.mandateId == m && FateOf(r.status) == fate then r.amount else 0
  }

  /** The amounts of a mandate's reservations with one fate. */
  ghost function Sum(rs: Reservations, m: MandateId, fate: Fate): int
    decreases |rs|
  {
    if rs == map[] then 0
    else
      var k :| k in rs;
      Share(rs[k], m, fate) + Sum(rs - {k}, m, fate)
  }

  lemma {:induction false} SumTakesAny(rs: Reservations, k: ReservationId, m: MandateId, fate: Fate)
    requires k in rs
    ensures Sum(rs, m, fate) == Share(rs[k], m, fate) + Sum(rs - {k}, m, fate)
    decreases |rs|
  {
    var j :| j in rs && Sum(rs, m, fate) == Share(rs[j], m, fate) + Sum(rs - {j}, m, fate);
    if j != k {
      SumTakesAny(rs - {j}, k, m, fate);
      SumTakesAny(rs - {k}, j, m, fate);
      assert rs - {j} - {k} == rs - {k} - {j};
    }
  }

  lemma SumAfterChange(rs: Reservations, k: ReservationId, r: Reservation, m: MandateId, fate: Fate)
    ensures Sum(rs[k := r], m, fate) ==
              Sum(rs, m, fate) + Share(r, m, fate) - if k in rs then Share(rs[k], m, fate) else 0
  {
    SumTakesAny(rs[k := r], k, m, fate);
    if k in rs {
      SumTakesAny(rs, k, m, fate);
      assert rs[k := r] - {k} == rs - {k};
    } else {
      assert rs[k := r] - {k} == rs;
    }
  }

  lemma {:induction false} SumIsNonNegative(rs: Reservations, m: MandateId, fate: Fate)
    requires forall k :: k in rs ==> rs[k].amount > 0
    ensures Sum(rs, m, fate) >= 0
    decreases |rs|
  {
    if rs != map[] {
      var k :| k in rs;
      SumTakesAny(rs, k, m, fate);
      SumIsNonNegative(rs - {k}, m, fate);
    }
  }

  lemma {:induction false} SumOfStranger(rs: Reservations, m: MandateId, fate: Fate)
    requires forall k :: k in rs ==> rs[k].mandateId != m
    ensures Sum(rs, m, fate) == 0
    decreases |rs|
  {
    if rs != map[] {
      var k :| k in rs;
      SumTakesAny(rs, k, m, fate);
      SumOfStranger(rs - {k}, m, fate);
    }
  }

  /** A single reservation never exceeds its mandate's sum. */
  lemma ShareWithinSum(rs: Reservations, k: ReservationId, m: MandateId, fate: Fate)
    requires k in rs && forall j :: j in rs ==> rs[j].amount > 0
    ensures Share(rs[k], m, fate) <= Sum(rs, m, fate)
  {
    SumTakesAny(rs, k, m, fate);
    SumIsNonNegative(rs - {k}, m, fate);
  }

  // ------------------------------------------------------------ the parts

  ghost predicate ReservationsOk(rs: Reservations, byIntent: map<IntentId, ReservationId>) {
    && (forall k :: k in rs ==>
          && rs[k].id == k && k.mandate == rs[k].mandateId && k.intent == rs[k].intentId && k.intentHash == rs[k].intentHash
          && rs[k].amount > 0 && ValidReservation(rs[k])
          && rs[k].intentId in byIntent && byIntent[rs[k].intentId] == k)
    && (forall i :: i in byIntent ==> byIntent[i] in rs && rs[byIntent[i]].intentId == i)
  }

  ghost predicate MandateOk(m: Mandate, k: MandateId, rs: Reservations) {
    m.id == k && ValidMandate(m) && m.reserved == Sum(rs, k, Held) && m.consumed == Sum(rs, k, Spent)
  }

  ghost predicate MandatesOk(mandates: map<MandateId, Mandate>, rs: Reservations) {
    && (forall k :: k in mandates ==> MandateOk(mandates[k], k, rs))
    && (forall k :: k in rs ==> rs[k].mandateId in mandates)
  }

  /** At most one mandate per user and game is not revoked. */
  ghost predicate OneActive(mandates: map<MandateId, Mandate>) {
    forall j, k | j in mandates && k in mandates && mandates[j].revokedAt.None? && mandates[k].revokedAt.None?
                  && mandates[j].userId == mandates[k].userId && mandates[j].gameId == mandates[k].gameId :: j == k
  }

  /** A reservation was allowed by the terms of its mandate when it was made. */
  ghost predicate Allowed(r: Reservation, m: Mandate) {
    r.amount <= m.limits.maxPerPayment && r.payee in m.allowedPayees && m.validFrom <= r.reservedAt < m.expiresAt
  }

  ghost predicate AllAllowed(mandates: map<MandateId, Mandate>, rs: Reservations) {
    forall k | k in rs :: rs[k].mandateId in mandates && Allowed(rs[k], mandates[rs[k].mandateId])
  }

  ghost predicate Inv(s: Ledger) {
    && ReservationsOk(s.reservations, s.byIntent) && MandatesOk(s.mandates, s.reservations)
    && OneActive(s.mandates) && AllAllowed(s.mandates, s.reservations)
  }

  lemma InvIndexed(s: Ledger)
    requires Inv(s)
    ensures Indexed(s)
  {
    hide MandateOk, OneActive, AllAllowed;
  }
}
