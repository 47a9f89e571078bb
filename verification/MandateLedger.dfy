/** Payment mandates and reservations (arena_payments/models.py, repository.py and the
    reconcile step of postgres.py): record types and transitions. */
module MandateLedger {
  import opened Wrappers

  datatype MandateId = MandateId(text: string)
  datatype IntentId = IntentId(text: string)

  /** The source hashes these three fields; the digest is taken to be injective. */
  datatype ReservationId = ReservationId(mandate: MandateId, intent: IntentId, intentHash: string)

  datatype Limits = Limits(maxPerPayment: int, maxCumulative: int)

  datatype Mandate = Mandate(
    id: MandateId, userId: string, gameId: string, chainId: int, tokenAddress: string, limits: Limits,
    allowedPayees: set<string>, validFrom: int, expiresAt: int, reserved: int, consumed: int, revokedAt: Option<int>)

  /** What a mandate record checks whenever it is built or copied. */
  predicate ValidMandate(m: Mandate) {
    && 0 < m.limits.maxPerPayment <= m.limits.maxCumulative
    && m.allowedPayees != {}
    && m.validFrom < m.expiresAt
    && 0 <= m.reserved && 0 <= m.consumed
    && m.reserved + m.consumed <= m.limits.maxCumulative
  }

  datatype TermsRecord = Terms(
    intentId: IntentId, intentHash: string, gameId: string, payee: string, chainId: int, tokenAddress: string, amount: int)

  /** Terms with no positive amount cannot be built. */
  type Terms = t: TermsRecord | t.amount > 0 witness Terms(IntentId("i"), "h", "g", "p", 1, "t", 1)

  datatype ReservationStatus = Reserved | Submitted | Consumed | Released

  datatype Reservation = Reservation(
    id: ReservationId, mandateId: MandateId, intentId: IntentId, intentHash: string, amount: int, payee: string,
    status: ReservationStatus, reservedAt: int, finalizedAt: Option<int>, txHash: Option<string>,
    releaseReason: Option<string>)

  predicate HexDigit(c: char) {
    '0' <= c <= '9' || 'a' <= c <= 'f' || 'A' <= c <= 'F'
  }

  predicate ValidTxHash(h: string) {
    |h| == 66 && h[0] == '0' && h[1] == 'x' && forall i :: 2 <= i < 66 ==> HexDigit(h[i])
  }

  function LowerChar(c: char): char {
    if 'A' <= c <= 'Z' then c - 'A' + 'a' else c
  }

  function Lower(s: string): string {
    seq(|s|, i requires 0 <= i < |s| => LowerChar(s[i]))
  }

  /** Which optional fields a reservation of each status carries. */
  predicate ValidReservation(r: Reservation) {
    && (r.txHash.Some? ==> ValidTxHash(r.txHash.value))
    && match r.status
       case Reserved => r.finalizedAt.None? && r.txHash.None? && r.releaseReason.None?
       case Submitted => r.finalizedAt.None? && r.txHash.Some? && r.releaseReason.None?
       case Consumed => r.finalizedAt.Some? && r.txHash.Some? && r.releaseReason.None?
       case Released => r.finalizedAt.Some? && r.txHash.None? && r.releaseReason.Some? && r.releaseReason.value != ""
  }

  datatype LedgerError =
    | MandateConflict | ActiveMandateExists | MandateNotFound
    | IntentConflict | MandateRevoked | NotYetValid | Expired | GameMismatch | ChainMismatch | TokenMismatch
    | PayeeNotAllowed | PerPaymentLimit | CumulativeLimit
    | ReservationNotFound | TxConflict | NotConsumable | NotSubmittable | NotReleasable | ReleaseConflict
    | InvalidReason | InvalidRecord

  datatype Ledger = Ledger(
    mandates: map<MandateId, Mandate>, reservations: map<ReservationId, Reservation>,
    byIntent: map<IntentId, ReservationId>)

  datatype Outcome<+T> = Outcome(state: Ledger, result: Result<T, LedgerError>)

  const EMPTY: Ledger := Ledger(map[], map[], map[])

  // -------------------------------------------------------------- mandates

  predicate Rivals(m: Mandate, other: Mandate) {
    m.userId == other.userId && m.gameId == other.gameId && m.revokedAt.None? && m.id != other.id
  }

  /** A rival whose window has closed is revoked; any other keeps its state. */
  function Lapsed(m: Mandate, mandate: Mandate, observedAt: int): Mandate {
    if Rivals(m, mandate) && m.expiresAt <= observedAt then m.(revokedAt := Some(observedAt)) else m
  }

  function LapseAll(mandates: map<MandateId, Mandate>, mandate: Mandate, observedAt: int): map<MandateId, Mandate> {
    map k | k in mandates :: Lapsed(mandates[k], mandate, observedAt)
  }

  predicate HasRival(mandates: map<MandateId, Mandate>, mandate: Mandate) {
    exists k :: k in mandates && Rivals(mandates[k], mandate)
  }

  function Create(s: Ledger, mandate: Mandate, observedAt: int): Outcome<Mandate> {
    if mandate.id in s.mandates && s.mandates[mandate.id] != mandate then Outcome(s, Err(MandateConflict))
    else
      var lapsed := LapseAll(s.mandates, mandate, observedAt);
      if HasRival(lapsed, mandate) then Outcome(s.(mandates := lapsed), Err(ActiveMandateExists))
      else Outcome(s.(mandates := lapsed[mandate.id := mandate]), Ok(mandate))
  }

  function Revoke(s: Ledger, id: MandateId, userId: string, now: int): Outcome<Mandate> {
    if id !in s.mandates || s.mandates[id].userId != userId then Outcome(s, Err(MandateNotFound))
    else if s.mandates[id].revokedAt.Some? then Outcome(s, Ok(s.mandates[id]))
    else
      var m := s.mandates[id].(revokedAt := Some(now));
      Outcome(s.(mandates := s.mandates[id := m]), Ok(m))
  }

  /** Copying with new totals re-checks the record. */
  function WithAccounting(m: Mandate, reserved: int, consumed: int): Option<Mandate> {
    var n := m.(reserved := reserved, consumed := consumed);
    if ValidMandate(n) then Some(n) else None
  }

  // ---------------------------------------------------------- reservations

  function MandateError(m: Mandate, terms: Terms, now: int): Option<LedgerError> {
    if m.revokedAt.Some? then Some(MandateRevoked)
    else if now < m.validFrom then Some(NotYetValid)
    else if now >= m.expiresAt then Some(Expired)
    else if m.gameId != terms.gameId then Some(GameMismatch)
    else if m.chainId != terms.chainId then Some(ChainMismatch)
    else if m.tokenAddress != terms.tokenAddress then Some(TokenMismatch)
    else if terms.payee !in m.allowedPayees then Some(PayeeNotAllowed)
    else if terms.amount > m.limits.maxPerPayment then Some(PerPaymentLimit)
    else if m.reserved + m.consumed + terms.amount > m.limits.maxCumulative then Some(CumulativeLimit)
    else None
  }

  predicate Matches(r: Reservation, id: MandateId, terms: Terms) {
    r.mandateId == id && r.intentHash == terms.intentHash && r.amount == terms.amount && r.payee == terms.payee
  }

  function NewReservation(id: MandateId, terms: Terms, now: int): Reservation {
    Reservation(ReservationId(id, terms.intentId, terms.intentHash), id, terms.intentId, terms.intentHash, terms.amount,
                terms.payee, Reserved, now, None, None, None)
  }

  ghost predicate Indexed(s: Ledger) {
    && (forall i :: i in s.byIntent ==> s.byIntent[i] in s.reservations)
    && (forall r :: r in s.reservations ==> s.reservations[r].mandateId in s.mandates)
  }

  function Reserve(s: Ledger, id: MandateId, terms: Terms, now: int): Outcome<Reservation>
    requires Indexed(s)
  {
    if terms.intentId in s.byIntent then
      var r := s.reservations[s.byIntent[terms.intentId]];
      if Matches(r, id, terms) then Outcome(s, Ok(r)) else Outcome(s, Err(IntentConflict))
    else if id !in s.mandates then Outcome(s, Err(MandateNotFound))
    else if MandateError(s.mandates[id], terms, now).Some? then
      Outcome(s, Err(MandateError(s.mandates[id], terms, now).value))
    else
      var m := s.mandates[id];
      var n := WithAccounting(m, m.reserved + terms.amount, m.consumed);
      if n.None? then Outcome(s, Err(InvalidRecord))
      else
        var r := NewReservation(id, terms, now);
        Outcome(s.(mandates := s.mandates[id := n.value], reservations := s.reservations[r.id := r],
                   byIntent := s.byIntent[terms.intentId := r.id]), Ok(r))
  }

  /** Replace a reservation and move its mandate's totals. */
  function Settle(s: Ledger, r: Reservation, reserved: int, consumed: int): Outcome<Reservation>
    requires r.mandateId in s.mandates
  {
    var m := s.mandates[r.mandateId];
    var n := WithAccounting(m, m.reserved + reserved, m.consumed + consumed);
    if n.None? || !ValidReservation(r) then Outcome(s, Err(InvalidRecord))
    else Outcome(s.(mandates := s.mandates[r.mandateId := n.value], reservations := s.reservations[r.id := r]), Ok(r))
  }

  function Consume(s: Ledger, id: ReservationId, tx: string, now: int): Outcome<Reservation>
    requires Indexed(s)
  {
    if id !in s.reservations then Outcome(s, Err(ReservationNotFound))
    else
      var r := s.reservations[id];
      if r.status == Consumed then
        if r.txHash == Some(Lower(tx)) then Outcome(s, Ok(r)) else Outcome(s, Err(TxConflict))
      else if r.status != Reserved && r.status != Submitted then Outcome(s, Err(NotConsumable))
      else Settle(s, r.(id := id, status := Consumed, finalizedAt := Some(now), txHash := Some(Lower(tx))),
                  -r.amount, r.amount)
  }

  function Submit(s: Ledger, id: ReservationId, tx: string): Outcome<Reservation> {
    if id !in s.reservations then Outcome(s, Err(ReservationNotFound))
    else
      var r := s.reservations[id];
      if r.status == Submitted || r.status == Consumed then
        if r.txHash == Some(Lower(tx)) then Outcome(s, Ok(r)) else Outcome(s, Err(TxConflict))
      else if r.status != Reserved then Outcome(s, Err(NotSubmittable))
      else
        var n := r.(status := Submitted, txHash := Some(Lower(tx)));
        if !ValidReservation(n) then Outcome(s, Err(InvalidRecord))
        else Outcome(s.(reservations := s.reservations[id := n]), Ok(n))
  }

  function Release(s: Ledger, id: ReservationId, reason: string, now: int): Outcome<Reservation>
    requires Indexed(s)
  {
    if reason == "" || |reason| > 100 then Outcome(s, Err(InvalidReason))
    else if id !in s.reservations then Outcome(s, Err(ReservationNotFound))
    else
      var r := s.reservations[id];
      if r.status == Released then
        if r.releaseReason == Some(reason) then Outcome(s, Ok(r)) else Outcome(s, Err(ReleaseConflict))
      else if r.status != Reserved then Outcome(s, Err(NotReleasable))
      else Settle(s, r.(id := id, status := Released, finalizedAt := Some(now), releaseReason := Some(reason)), -r.amount, 0)
  }

  /** The chain evidence of a submitted transaction: it reverted, or it went through. */
  datatype Evidence = Reverted | Confirmed

  /** One row of reconcile: plain updates, without the record checks of the in-memory copy. */
  function Reconciled(s: Ledger, id: ReservationId, evidence: Evidence, now: int): Ledger
    requires Indexed(s) && id in s.reservations
  {
    var r := s.reservations[id];
    var m := s.mandates[r.mandateId];
    if r.status != Submitted then s
    else match evidence
      case Reverted =>
        s.(reservations := s.reservations[id := r.(status := Released, txHash := None,
             releaseReason := Some("chain_transaction_reverted"), finalizedAt := Some(now))],
           mandates := s.mandates[r.mandateId := m.(reserved := m.reserved - r.amount)])
      case Confirmed =>
        s.(reservations := s.reservations[id := r.(status := Consumed, finalizedAt := Some(now))],
           mandates := s.mandates[r.mandateId := m.(reserved := m.reserved - r.amount, consumed := m.consumed + r.amount)])
  }
}
