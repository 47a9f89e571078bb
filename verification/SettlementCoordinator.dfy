/** One coordinated settlement (arena_payments/coordinator.py), with every outcome of the facilitator,
    the recorder and the repository, and with other callers of the repository running in between. */
module SettlementCoordinator {
  import opened Wrappers
  import opened MandateLedger
  import opened LedgerInvariant
  import opened LedgerSteps
  import opened LedgerRuns
  import opened PaymentRepository

  // ---------------------------------------------------------- facilitator

  /** An exception of the facilitator client, or any other one. */
  datatype Failure = FacilitatorError(code: string, ambiguous: bool) | OtherError

  type VerifyAnswer = Result<bool, Failure>

  datatype Settlement = Settlement(success: bool, transaction: Option<string>)

  type SettleAnswer = Result<Settlement, Failure>

  datatype Body = NotJson | NotAnObject | Object(flag: bool, transaction: Option<string>)

  /** What comes back from an HTTP post: no reply, a broken exchange, or a status with a body. */
  datatype HttpReply = Unreachable | Broken | Status(code: nat, body: Body)

  datatype Path = VerifyPath | SettlePath

  /** How the HTTP client classifies a reply. */
  function Post(path: Path, reply: HttpReply): Result<Body, Failure> {
    match reply
    case Unreachable => Err(FacilitatorError("facilitator_unreachable", path == SettlePath))
    case Broken => Err(OtherError)
    case Status(code, body) =>
      if code >= 500 then Err(FacilitatorError("facilitator_unavailable", path == SettlePath))
      else if code >= 400 then Err(FacilitatorError("facilitator_rejected", false))
      else if !body.Object? then Err(FacilitatorError("facilitator_invalid_response", path == SettlePath))
      else Ok(body)
  }

  function HttpVerify(reply: HttpReply): VerifyAnswer {
    match Post(VerifyPath, reply)
    case Err(e) => Err(e)
    case Ok(body) => Ok(body.Object? && body.flag)
  }

  function HttpSettle(reply: HttpReply): SettleAnswer {
    match Post(SettlePath, reply)
    case Err(e) => Err(e)
    case Ok(body) => if body.Object? then Ok(Settlement(body.flag, body.transaction)) else Err(OtherError)
  }

  /** The facilitator said yes and named a transaction. */
  predicate Accepted(a: SettleAnswer) {
    a.Ok? && a.value.success && a.value.transaction.Some?
  }

  /** The facilitator certainly did not submit: a negative reply, or an error not marked ambiguous. */
  predicate DefiniteRejection(a: SettleAnswer) {
    if a.Ok? then !Accepted(a) else a.error.FacilitatorError? && !a.error.ambiguous
  }

  /** Over HTTP only a 4xx status or a complete negative reply is definite; verify is never ambiguous. */
  lemma HttpIsDefiniteExactlyWhen(reply: HttpReply)
    ensures DefiniteRejection(HttpSettle(reply)) <==>
              && reply.Status?
              && (400 <= reply.code < 500
                  || (reply.code < 400 && reply.body.Object? && !(reply.body.flag && reply.body.transaction.Some?)))
    ensures HttpVerify(reply).Err? && HttpVerify(reply).error.FacilitatorError? ==> !HttpVerify(reply).error.ambiguous
    ensures Accepted(HttpSettle(reply)) <==>
              reply.Status? && reply.code < 400 && reply.body.Object? && reply.body.flag && reply.body.transaction.Some?
    ensures Accepted(HttpSettle(reply)) ==> HttpSettle(reply).value.transaction == reply.body.transaction
    ensures HttpVerify(reply) == Ok(true) <==> reply.Status? && reply.code < 400 && reply.body.Object? && reply.body.flag
  {
  }

  // ----------------------------------------------------- one coordination

  /** Every answer one execution may meet, and what others do to the ledger while it waits. */
  datatype World = World(
    payloadOk: bool, verify: VerifyAnswer, approvalOk: bool, settle: SettleAnswer, recordOk: bool,
    others: seq<Call>, othersLater: seq<Call>)

  datatype SettleStatus = WasSubmitted | Failed | Unknown

  datatype ExecutionResult = Answered(status: SettleStatus, transaction: Option<string>) | Raised

  /** Calls of others that act on one reservation. */
  predicate Targets(c: Call, k: ReservationId) {
    (c.SubmitReservation? || c.ConsumeReservation? || c.ReleaseReservation? || c.ReconcileRow?) && c.id == k
  }

  predicate Bystanders(calls: seq<Call>, k: ReservationId) {
    forall i | 0 <= i < |calls| :: !Targets(calls[i], k)
  }

  lemma StepLeavesOthers(s: Ledger, c: Call, k: ReservationId)
    requires Inv(s) && k in s.reservations && !Targets(c, k)
    ensures Indexed(s) && k in Step(s, c).reservations && Step(s, c).reservations[k] == s.reservations[k]
  {
    hide Inv, MandateError, ValidMandate, ValidReservation, Lower, Indexed, HasRival, LapseAll;
    InvIndexed(s);
    if c.ReserveMandate? && c.terms.intentId !in s.byIntent {
      NewIdIsNew(s, ReservationId(c.mandateId, c.terms.intentId, c.terms.intentHash), c.terms.intentId);
    } else if c.ConsumeReservation? || c.ReleaseReservation? || c.ReconcileRow? {
      if c.id in s.reservations {
        Found(s, c.id);
      }
    }
  }

  lemma {:induction false} BystandersLeave(s: Ledger, calls: seq<Call>, k: ReservationId)
    requires Inv(s) && LegalRun(calls) && k in s.reservations && Bystanders(calls, k)
    ensures k in After(s, calls).reservations && After(s, calls).reservations[k] == s.reservations[k]
    decreases |calls|
  {
    hide Inv, Step, Legal, Targets;
    if calls != [] {
      StepKeepsInv(s, calls[0]);
      StepLeavesOthers(s, calls[0], k);
      BystandersLeave(Step(s, calls[0]), calls[1..], k);
    }
  }

  /** A held reservation keeps its amount out of the mandate's spendable budget. */
  lemma HeldIsLocked(s: Ledger, k: ReservationId)
    requires Inv(s) && k in s.reservations && FateOf(s.reservations[k].status) == Held
    ensures s.reservations[k].mandateId in s.mandates
    ensures var m := s.mandates[s.reservations[k].mandateId];
            s.reservations[k].amount <= m.reserved
            && s.reservations[k].amount + m.consumed <= m.limits.maxCumulative
  {
    var id := s.reservations[k].mandateId;
    ShareWithinSum(s.reservations, k, id, Held);
    assert MandateOk(s.mandates[id], id, s.reservations);
  }

  ghost predicate HeldFor(rs: Reservations, k: ReservationId, terms: Terms) {
    k in rs && FateOf(rs[k].status) == Held && rs[k].intentId == terms.intentId && rs[k].amount == terms.amount
  }

  ghost predicate SubmittedAs(rs: Reservations, k: ReservationId, tx: Option<string>) {
    k in rs && (rs[k].status == Submitted || rs[k].status == Consumed) && tx.Some? && rs[k].txHash == Some(Lower(tx.value))
  }

  ghost predicate WasReleased(rs: Reservations, k: ReservationId) {
    k in rs && rs[k].status == Released
  }

  /** The intent already has a reservation on these terms, and it was submitted, consumed or released. */
  ghost predicate Settled(rs: Reservations, k: ReservationId, terms: Terms) {
    && k in rs && rs[k].status != Reserved && rs[k].amount == terms.amount && rs[k].payee == terms.payee
  }

  /** Such a reservation is found again, as it is. */
  lemma SettledIsFound(s: Ledger, mandateId: MandateId, terms: Terms, now: int)
    requires Inv(s) && Settled(s.reservations, ReservationId(mandateId, terms.intentId, terms.intentHash), terms)
    ensures Indexed(s)
    ensures Reserve(s, mandateId, terms, now) ==
              Outcome(s, Ok(s.reservations[ReservationId(mandateId, terms.intentId, terms.intentHash)]))
  {
    hide MandatesOk, OneActive, AllAllowed, ValidReservation, MandateError, Indexed;
    InvIndexed(s);
    var k := ReservationId(mandateId, terms.intentId, terms.intentHash);
    assert s.reservations[k].id == k && s.byIntent[terms.intentId] == k;
  }

  class X402SettlementCoordinator {
    const payments: InMemoryPaymentRepository

    constructor (payments: InMemoryPaymentRepository)
      ensures this.payments == payments
    {
      this.payments := payments;
    }

    /** Other callers use the repository while this execution waits. */
    method Await(calls: seq<Call>)
      requires payments.Valid() && LegalRun(calls)
      modifies payments
      ensures payments.Valid() && payments.View() == After(old(payments.View()), calls)
    {
      hide Inv, Legal;
      ghost var s := payments.View();
      var next := After(Ledger(payments.mandates, payments.reservations, payments.byIntent), calls);
      payments.mandates, payments.reservations, payments.byIntent := next.mandates, next.reservations, next.byIntent;
    }

    /** One release call of this execution; others may have decided the reservation first. */
    method Release(k: ReservationId, reason: string, clock: int) returns (ok: bool)
      requires payments.Valid()
      modifies payments
      ensures payments.Valid()
      ensures ok ==> WasReleased(payments.reservations, k)
    {
      hide Inv, MandateLedger.Release, ValidMandate, ValidReservation;
      var answer := payments.ReleaseReservation(k, reason, clock);
      ok := answer.Ok?;
      if ok {
        ReleasedIsReleased(old(payments.View()), k, reason, clock);
      }
    }

    /** Record the transaction on the reservation. */
    method Submit(k: ReservationId, tx: string) returns (ok: bool)
      requires payments.Valid()
      modifies payments
      ensures payments.Valid()
      ensures ok ==> SubmittedAs(payments.reservations, k, Some(tx))
      ensures !ok ==> payments.View() == old(payments.View())
      ensures forall terms | HeldFor(old(payments.reservations), k, terms) :: HeldFor(payments.reservations, k, terms)
    {
      hide Inv, MandateLedger.Submit, ValidReservation, Lower;
      var answer := payments.SubmitReservation(k, tx);
      ok := answer.Ok?;
      SubmittedIsSubmitted(old(payments.View()), k, tx);
    }

    /** The guarded part of an execution: its result, or the exception that left it. */
    method Attempt(terms: Terms, k: ReservationId, clock: int, w: World)
      returns (r: Result<ExecutionResult, Failure>, settleStarted: bool, released: bool)
      requires payments.Valid()
      modifies payments
      ensures payments.Valid()
      ensures settleStarted ==> w.payloadOk && w.verify == Ok(true) && w.approvalOk
      ensures released ==> !settleStarted || DefiniteRejection(w.settle)
      ensures settleStarted && w.settle.Ok? && !Accepted(w.settle) ==> released
      ensures settleStarted && w.settle.Err? ==> r == Err(w.settle.error)
      ensures r.Ok? ==> r.value.Answered? && r.value.status != Unknown && (r.value.status == Failed <==> released)
      ensures r.Ok? && r.value.status == Failed ==> WasReleased(payments.reservations, k)
      ensures r.Ok? && r.value.status == WasSubmitted ==>
                settleStarted && Accepted(w.settle) && w.recordOk && r.value.transaction == w.settle.value.transaction
                && SubmittedAs(payments.reservations, k, r.value.transaction)
      ensures r.Err? && r.error.FacilitatorError? ==>
                !released && (if settleStarted then w.settle == Err(r.error) else w.verify == Err(r.error))
      ensures r.Err? && !settleStarted ==> !w.payloadOk || w.verify != Ok(true) || !w.approvalOk
      ensures HeldFor(old(payments.reservations), k, terms) && !released ==> HeldFor(payments.reservations, k, terms)
    {
      hide Inv, HeldFor, SubmittedAs, WasReleased;
      settleStarted, released := false, false;
      if !w.payloadOk {
        return Err(OtherError), settleStarted, released;
      }
      if w.verify.Err? {
        return Err(w.verify.error), settleStarted, released;
      }
      if !w.verify.value {
        released := true;
        var ok := Release(k, "facilitator_verification_rejected", clock);
        r := if ok then Ok(Answered(Failed, None)) else Err(OtherError);
        return;
      }
      if !w.approvalOk {
        return Err(OtherError), settleStarted, released;
      }
      settleStarted := true;
      if w.settle.Err? {
        return Err(w.settle.error), settleStarted, released;
      }
      if !w.settle.value.success || w.settle.value.transaction.None? {
        released := true;
        var ok := Release(k, "facilitator_settlement_rejected", clock);
        r := if ok then Ok(Answered(Failed, None)) else Err(OtherError);
        return;
      }
      if !w.recordOk {
        return Err(OtherError), settleStarted, released;
      }
      var ok := Submit(k, w.settle.value.transaction.value);
      r := if ok then Ok(Answered(WasSubmitted, w.settle.value.transaction)) else Err(OtherError);
    }

    /** What the two exception handlers make of a failed attempt. */
    method Handle(failure: Failure, settleStarted: bool, k: ReservationId, clock: int)
      returns (r: ExecutionResult, released: bool)
      requires payments.Valid()
      modifies payments
      ensures payments.Valid()
      ensures released <==> (if failure.FacilitatorError? then !failure.ambiguous else !settleStarted)
      ensures !released ==> r == Answered(Unknown, None) && payments.View() == old(payments.View())
      ensures released ==> r == Raised || (r == Answered(Failed, None) && WasReleased(payments.reservations, k))
    {
      hide Inv, WasReleased;
      released := false;
      if failure.FacilitatorError? {
        if !failure.ambiguous {
          released := true;
          var ok := Release(k, failure.code, clock);
          return if ok then Answered(Failed, None) else Raised, released;
        }
        return Answered(Unknown, None), released;
      }
      if settleStarted {
        return Answered(Unknown, None), released;
      }
      released := true;
      var _ := Release(k, "payment_pre_submission_failed", clock);
      r := Raised;
    }

    /**
     * One settlement. `settleReached` says that the settle request was sent and `released` that this
     * execution asked for the amount back.
     */
    method Execute(terms: Terms, mandateId: MandateId, clock: int, w: World)
      returns (r: ExecutionResult, settleReached: bool, released: bool)
      requires payments.Valid() && LegalRun(w.others) && LegalRun(w.othersLater)
      modifies payments
      ensures payments.Valid()
      ensures released ==> !settleReached || DefiniteRejection(w.settle)
      ensures settleReached ==> w.payloadOk && w.verify == Ok(true) && w.approvalOk
      ensures settleReached && !DefiniteRejection(w.settle) ==>
                r.Answered? && (r.status == Unknown || (r.status == WasSubmitted && Accepted(w.settle)))
      ensures settleReached && DefiniteRejection(w.settle) ==> released
      ensures settleReached && r.Answered? && r.status == WasSubmitted ==> w.recordOk
      ensures !settleReached && !released && r.Answered? && r.status == Unknown ==>
                w.verify.Err? && w.verify.error.FacilitatorError? && w.verify.error.ambiguous
      ensures r.Answered? && r.status == Failed ==>
                WasReleased(payments.reservations, ReservationId(mandateId, terms.intentId, terms.intentHash))
      ensures settleReached && !released ==>
                var k := ReservationId(mandateId, terms.intentId, terms.intentHash);
                Bystanders(w.others, k) && Bystanders(w.othersLater, k) ==> HeldFor(payments.reservations, k, terms)
      ensures r == Raised || r == Answered(Failed, None) ==> !settleReached || DefiniteRejection(w.settle)
      ensures var k := ReservationId(mandateId, terms.intentId, terms.intentHash);
              Settled(old(payments.reservations), k, terms) ==>
                && !settleReached && !released && payments.View() == old(payments.View())
                && r == (if old(payments.reservations)[k].status == Released then Answered(Failed, None)
                         else Answered(WasSubmitted, old(payments.reservations)[k].txHash))
      ensures settleReached && r.Answered? && r.status == WasSubmitted ==>
                var k := ReservationId(mandateId, terms.intentId, terms.intentHash);
                Accepted(w.settle) && r.transaction == w.settle.value.transaction
                && SubmittedAs(payments.reservations, k, r.transaction)
    {
      hide Inv, Reserve, HeldFor, LegalRun, SubmittedAs;
      settleReached, released := false, false;
      ghost var start := payments.View();
      ghost var known := Settled(payments.reservations, ReservationId(mandateId, terms.intentId, terms.intentHash), terms);
      if known { SettledIsFound(payments.View(), mandateId, terms, clock); }
      var reserved := payments.ReserveMandate(mandateId, terms, clock);
      if reserved.Err? {
        return Raised, settleReached, released;
      }
      var reservation := reserved.value;
      ReservedIsHeld(start, mandateId, terms, clock);
      if reservation.status == Submitted || reservation.status == Consumed {
        return Answered(WasSubmitted, reservation.txHash), settleReached, released;
      }
      if reservation.status == MandateLedger.Released {
        return Answered(Failed, None), settleReached, released;
      }
      var k := reservation.id;
      AwaitKeepsHeld(payments.View(), w.others, k, terms);
      Await(w.others);
      var attempt;
      attempt, settleReached, released := Attempt(terms, k, clock, w);
      if attempt.Ok? {
        return attempt.value, settleReached, released;
      }
      AwaitKeepsHeld(payments.View(), w.othersLater, k, terms);
      Await(w.othersLater);
      var again;
      r, again := Handle(attempt.error, settleReached, k, clock);
      released := released || again;
    }
  }

  lemma AwaitKeepsHeld(s: Ledger, calls: seq<Call>, k: ReservationId, terms: Terms)
    requires Inv(s) && LegalRun(calls)
    ensures HeldFor(s.reservations, k, terms) && Bystanders(calls, k) ==> HeldFor(After(s, calls).reservations, k, terms)
  {
    hide Inv, Bystanders, After, LegalRun;
    if HeldFor(s.reservations, k, terms) && Bystanders(calls, k) {
      BystandersLeave(s, calls, k);
    }
  }

  lemma ReservedIsHeld(s: Ledger, mandateId: MandateId, terms: Terms, now: int)
    requires Inv(s) && Indexed(s) && Reserve(s, mandateId, terms, now).result.Ok?
    ensures var t := Reserve(s, mandateId, terms, now);
            && t.result.value.id == ReservationId(mandateId, terms.intentId, terms.intentHash)
            && t.result.value.id in t.state.reservations && t.state.reservations[t.result.value.id] == t.result.value
            && (t.result.value.status == Reserved ==> HeldFor(t.state.reservations, t.result.value.id, terms))
  {
    hide Inv, Reserve, ValidReservation;
    MadeIsIndexed(s, mandateId, terms, now);
    ReserveKeepsInv(s, mandateId, terms, now);
    IndexedById(Reserve(s, mandateId, terms, now).state, terms.intentId);
  }

  lemma IndexedById(s: Ledger, i: IntentId)
    requires Inv(s) && i in s.byIntent && s.byIntent[i] in s.reservations
    ensures var r := s.reservations[s.byIntent[i]];
            r.id == s.byIntent[i] && r.intentId == i && r.id == ReservationId(r.mandateId, i, r.intentHash)
  {
    hide MandatesOk, OneActive, AllAllowed, ValidReservation;
  }

  lemma ReleasedIsReleased(s: Ledger, k: ReservationId, reason: string, now: int)
    requires Inv(s) && Indexed(s) && Release(s, k, reason, now).result.Ok?
    ensures WasReleased(Release(s, k, reason, now).state.reservations, k)
  {
    hide Inv, ValidMandate, ValidReservation;
  }

  lemma SubmittedIsSubmitted(s: Ledger, k: ReservationId, tx: string)
    ensures var t := Submit(s, k, tx);
            && (t.result.Ok? ==> SubmittedAs(t.state.reservations, k, Some(tx)))
            && (t.result.Err? ==> t.state == s)
            && (forall terms | HeldFor(s.reservations, k, terms) :: HeldFor(t.state.reservations, k, terms))
  {
    hide ValidReservation, Lower;
  }
}
