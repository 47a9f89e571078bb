/** Unattended settlement by any number of workers (arena_payments/automatic_worker.py), as a
    state machine: every SQL statement is one atomic step, an execution may die at any point
    between two steps, and every answer from outside is nondeterministic. */
module SettlementProtocol {
  import opened Wrappers
  import opened SettlementTables

  /** One execution of a settlement intent; a worker runs at most one per intent at a time. */
  datatype Key = Key(w: WorkerId, i: IntentId)

  /** Where an execution stands, between two awaits. */
  datatype Pc =
    | Claiming
    | Claimed
    | Fencing(fenceNow: int)
    | Deferring(fenceNow: int)
    | Signing
    | MarkingSigned
    | MarkingSubmitting
    | Executing
    | Settling
    | Recording
    | Storing
    | Finishing(result: AttemptStatus)
    | Unfencing
    | CleaningFence
    | CleaningMark

  /** now is the clock reading the execution started with; fenceUntil the end of its fence lease. */
  datatype Exec = Exec(facilitator: FacilitatorId, now: int, fenceUntil: int, pc: Pc)

  /** A recovery that has read an ambiguous attempt; recorded once it stored the transaction. */
  datatype Recovery = Recovery(i: IntentId, facilitator: FacilitatorId, recorded: bool)

  /** marks and settles count, per intent, passed "submitting" marks and external settle calls. */
  datatype State = State(
    clock: int, tables: Tables, execs: map<Key, Exec>, recoveries: set<Recovery>,
    marks: multiset<IntentId>, settles: multiset<IntentId>)

  /** lateness bounds how long after the end of its fence lease a worker may still mark an attempt
      "submitting"; None is the code as written, which does not look at the lease. */
  datatype Config = Config(lease: int, lateness: Option<int>)

  /** The facilitator's answer to settle; an answer that never comes is ambiguous. */
  datatype Answer = Accepted | Declined | Ambiguous

  /** heard is false when the update was committed but its confirmation was lost. */
  datatype Step =
    | Tick(elapsed: nat)
    | Begin(k: Key, facilitator: FacilitatorId)
    | Claim(k: Key)
    | ReadFenceClock(k: Key)
    | TakeFence(k: Key, heard: bool)
    | Defer(k: Key, retryAt: int, heard: bool)
    | Sign(k: Key)
    | MarkSigned(k: Key, heard: bool)
    | MarkSubmitting(k: Key, heard: bool)
    | Raise(k: Key)
    | ReturnEarly(k: Key, result: AttemptStatus)
    | Settle(k: Key)
    | SettleAnswers(k: Key, answer: Answer)
    | Record(k: Key, ok: bool)
    | Store(k: Key, ok: bool)
    | Finish(k: Key)
    | Unfence(k: Key)
    | CleanFence(k: Key)
    | CleanMark(k: Key)
    | Crash(k: Key)
    | RecoverRead(i: IntentId)
    | RecoverRecord(r: Recovery)
    | RecoverDrop(r: Recovery)
    | RecoverAbort(r: Recovery)

  const INITIAL: State := State(0, Tables(map[], map[], {}), map[], {}, multiset{}, multiset{})

  /** Holding the fence, with nothing submitted yet. */
  predicate Fenced(pc: Pc) {
    pc.Signing? || pc.MarkingSigned? || pc.MarkingSubmitting?
  }

  /** The steps of a running execution, by the point they start from. */
  predicate StepsFrom(a: Step, pc: Pc) {
    match a
    case Claim(_) => pc.Claiming?
    case ReadFenceClock(_) => pc.Claimed?
    case TakeFence(_, _) => pc.Fencing?
    case Defer(_, _, _) => pc.Deferring?
    case Sign(_) => pc.Signing?
    case MarkSigned(_, _) => pc.MarkingSigned?
    case MarkSubmitting(_, _) => pc.MarkingSubmitting?
    case Raise(_) => pc.Claimed? || pc.Fencing? || pc.Deferring? || pc.Executing? || Fenced(pc)
    case ReturnEarly(_, r) => pc.Executing? && (r == Submitted || r == Failed)
    case Settle(_) => pc.Executing?
    case SettleAnswers(_, _) => pc.Settling?
    case Record(_, _) => pc.Recording?
    case Store(_, _) => pc.Storing?
    case Finish(_) => pc.Finishing?
    case Unfence(_) => pc.Unfencing?
    case CleanFence(_) => pc.CleaningFence?
    case CleanMark(_) => pc.CleaningMark?
    case Crash(_) => true
    case _ => false
  }

  predicate Enabled(c: Config, s: State, a: Step) {
    match a
    case Tick(_) => true
    case Begin(k, _) => k !in s.execs
    case RecoverRead(i) =>
      i in s.tables.attempts && (s.tables.attempts[i].status == Submitting || s.tables.attempts[i].status == Unknown)
    case RecoverRecord(r) => r in s.recoveries && !r.recorded
    case RecoverDrop(r) => r in s.recoveries && r.recorded
    case RecoverAbort(r) => r in s.recoveries
    case MarkSubmitting(k, _) =>
      k in s.execs && s.execs[k].pc.MarkingSubmitting?
      && (c.lateness.None? || s.clock <= s.execs[k].fenceUntil + c.lateness.value)
    case _ => a.k in s.execs && StepsFrom(a, s.execs[a.k].pc)
  }

  function Goto(s: State, k: Key, e: Exec): State {
    s.(execs := s.execs[k := e])
  }

  function End(s: State, k: Key): State {
    s.(execs := s.execs - {k})
  }

  /** The effect of one step of the execution k. */
  function Run(c: Config, s: State, a: Step, k: Key, e: Exec): State {
    match a
    case Claim(_) =>
      var (t, ok) := ClaimAttempt(s.tables, k.i, e.facilitator, k.w, e.now, c.lease);
      if ok then Goto(s.(tables := t), k, e.(pc := Claimed)) else End(s, k)
    case ReadFenceClock(_) => Goto(s, k, e.(pc := Fencing(s.clock)))
    case TakeFence(_, heard) =>
      if e.pc.Fencing? then
        var (t, ok) := ClaimFence(s.tables, e.facilitator, k.i, k.w, e.pc.fenceNow, c.lease);
        if ok && heard then Goto(s.(tables := t), k, e.(pc := Signing, fenceUntil := e.pc.fenceNow + c.lease))
        else if ok then Goto(s.(tables := t), k, e.(pc := CleaningMark))
        else Goto(s, k, e.(pc := Deferring(e.pc.fenceNow)))
      else s
    case Defer(_, retryAt, heard) =>
      var (t, ok) := DeferAttempt(s.tables, k.i, k.w, retryAt);
      if ok && heard then End(s.(tables := t), k)
      else if ok then Goto(s.(tables := t), k, e.(pc := CleaningMark))
      else Goto(s, k, e.(pc := CleaningMark))
    case Sign(_) => Goto(s, k, e.(pc := MarkingSigned))
    case MarkSigned(_, heard) =>
      var (t, ok) := MarkAttempt(s.tables, k.i, Signed, k.w);
      if ok then Goto(s.(tables := t), k, e.(pc := if heard then MarkingSubmitting else CleaningFence))
      else Goto(s, k, e.(pc := CleaningFence))
    case MarkSubmitting(_, heard) =>
      var (t, ok) := MarkAttempt(s.tables, k.i, Submitting, k.w);
      if ok then Goto(s.(tables := t, marks := s.marks + multiset{k.i}), k,
                      e.(pc := if heard then Executing else CleaningFence))
      else Goto(s, k, e.(pc := CleaningFence))
    case Raise(_) =>
      if e.pc.Executing? then End(s, k)
      else if Fenced(e.pc) then Goto(s, k, e.(pc := CleaningFence))
      else Goto(s, k, e.(pc := CleaningMark))
    case ReturnEarly(_, r) => Goto(s, k, e.(pc := Finishing(r)))
    case Settle(_) => Goto(s.(settles := s.settles + multiset{k.i}), k, e.(pc := Settling))
    case SettleAnswers(_, answer) =>
      Goto(s, k, e.(pc := match answer
                          case Accepted => Recording
                          case Declined => Finishing(Failed)
                          case Ambiguous => Finishing(Unknown)))
    case Record(_, ok) =>
      if ok then Goto(s.(tables := RecordSubmission(s.tables, k.i)), k, e.(pc := Storing))
      else Goto(s, k, e.(pc := Finishing(Unknown)))
    case Store(_, ok) => Goto(s, k, e.(pc := Finishing(if ok then Submitted else Unknown)))
    case Finish(_) =>
      if e.pc.Finishing? then
        var (t, ok) := MarkAttempt(s.tables, k.i, e.pc.result, k.w);
        if ok && e.pc.result != Unknown then Goto(s.(tables := t), k, e.(pc := Unfencing)) else End(s.(tables := t), k)
      else s
    case Unfence(_) => End(s.(tables := ReleaseFence(s.tables, e.facilitator, k.i, k.w).0), k)
    case CleanFence(_) =>
      var (t, ok) := ReleaseFence(s.tables, e.facilitator, k.i, k.w);
      if ok then Goto(s.(tables := t), k, e.(pc := CleaningMark)) else End(s, k)
    case CleanMark(_) => End(s.(tables := MarkAttempt(s.tables, k.i, Failed, k.w).0), k)
    case _ => End(s, k)
  }

  function Apply(c: Config, s: State, a: Step): State
    requires Enabled(c, s, a)
  {
    match a
    case Tick(elapsed) => s.(clock := s.clock + elapsed)
    case Begin(k, f) => Goto(s, k, Exec(f, s.clock, s.clock, Claiming))
    case RecoverRead(i) => s.(recoveries := s.recoveries + {Recovery(i, s.tables.attempts[i].facilitator, false)})
    case RecoverRecord(r) =>
      s.(tables := RecordSubmission(s.tables, r.i), recoveries := s.recoveries - {r} + {r.(recorded := true)})
    case RecoverDrop(r) => s.(tables := DropFence(s.tables, r.facilitator, r.i), recoveries := s.recoveries - {r})
    case RecoverAbort(r) => s.(recoveries := s.recoveries - {r})
    case _ => Run(c, s, a, a.k, s.execs[a.k])
  }

  /** A sequence of enabled steps from the initial state, and where it ends. */
  ghost predicate IsRun(c: Config, run: seq<Step>)
    decreases |run|, 0
  {
    run == [] || (IsRun(c, run[..|run| - 1]) && Enabled(c, After(c, run[..|run| - 1]), run[|run| - 1]))
  }

  ghost function After(c: Config, run: seq<Step>): State
    requires IsRun(c, run)
    decreases |run|, 1
  {
    if run == [] then INITIAL else Apply(c, After(c, run[..|run| - 1]), run[|run| - 1])
  }
}
