/** What every interleaving of workers, crashes, lease takeovers and recoveries keeps. */
module SettlementSafety {
  import opened Wrappers
  import opened SettlementTables
  import opened SettlementProtocol

  type Attempts = map<IntentId, Attempt>
  type Execs = map<Key, Exec>

  // ------------------------------------------------------------ the parts

  /** Past the "submitting" mark, before the final one. */
  predicate Beyond(pc: Pc) {
    pc.Executing? || pc.Settling? || pc.Recording? || pc.Storing? || pc.Finishing?
  }

  /** Claimed, and certainly not past the "submitting" mark. */
  predicate Before(pc: Pc) {
    pc.Claimed? || pc.Fencing? || pc.Deferring? || Fenced(pc)
  }

  predicate Owns(attempts: Attempts, k: Key) {
    k.i in attempts && attempts[k.i].owner == Some(k.w)
  }

  /** What an execution may rely on about the attempt row it claimed. */
  ghost predicate ExecOk(attempts: Attempts, k: Key, e: Exec) {
    && (!e.pc.Claiming? ==> k.i in attempts && attempts[k.i].facilitator == e.facilitator)
    && (Before(e.pc) && Owns(attempts, k) ==> Early(attempts[k.i]))
    && (Beyond(e.pc) ==> Owns(attempts, k) && attempts[k.i].status == Submitting)
    && (e.pc.Finishing? ==> e.pc.result == Submitted || e.pc.result == Failed || e.pc.result == Unknown)
  }

  ghost predicate ExecsOk(attempts: Attempts, execs: Execs) {
    forall k :: k in execs ==> ExecOk(attempts, k, execs[k])
  }

  predicate ReadOk(clock: int, e: Exec) {
    e.now <= clock && (e.pc.Fencing? || e.pc.Deferring? ==> e.pc.fenceNow <= clock)
  }

  /** Clock readings lie in the past. */
  ghost predicate ReadingsOk(clock: int, execs: Execs) {
    forall k :: k in execs ==> ReadOk(clock, execs[k])
  }

  /** A recovery only ever works on an attempt that can no longer be claimed. */
  ghost predicate RecoveriesOk(attempts: Attempts, recoveries: set<Recovery>) {
    forall r :: r in recoveries ==>
      r.i in attempts && attempts[r.i].facilitator == r.facilitator && !Early(attempts[r.i])
  }

  /** At most one passed mark and one settle per intent. */
  ghost predicate CountsOk(attempts: Attempts, execs: Execs, marks: multiset<IntentId>, settles: multiset<IntentId>) {
    && (forall i: IntentId :: settles[i] <= marks[i] <= 1)
    && (forall i :: i in marks ==> i in attempts && !Early(attempts[i]))
    && (forall k :: k in execs && execs[k].pc.Executing? ==> settles[k.i] == 0 && marks[k.i] == 1)
  }

  ghost predicate Inv(s: State) {
    && ExecsOk(s.tables.attempts, s.execs) && ReadingsOk(s.clock, s.execs)
    && RecoveriesOk(s.tables.attempts, s.recoveries)
    && CountsOk(s.tables.attempts, s.execs, s.marks, s.settles)
  }

  /** Two unresolved attempts never share a facilitator. */
  ghost predicate Exclusive(t: Tables) {
    forall i, j | Unresolved(t, i) && Unresolved(t, j) && t.attempts[i].facilitator == t.attempts[j].facilitator :: i == j
  }

  /** An execution still owning its attempt, with its fence lease running, really has the fence, and
      nothing of that facilitator is unresolved. */
  ghost predicate HoldsFence(t: Tables, k: Key, e: Exec) {
    && e.facilitator in t.fences && t.fences[e.facilitator] == Fence(k.i, k.w, e.fenceUntil)
    && !UnresolvedAt(t, e.facilitator)
  }

  ghost predicate FencesOk(clock: int, t: Tables, execs: Execs) {
    forall k :: k in execs && Fenced(execs[k].pc) && Owns(t.attempts, k) && clock <= execs[k].fenceUntil ==>
      HoldsFence(t, k, execs[k])
  }


  // ---------------------------------------------- rows change in few ways

  /** How one statement may change the row of intent i, as far as other executions can tell. */
  ghost predicate RowStep(k: Key, before: Attempts, after: Attempts) {
    && before.Keys <= after.Keys && after.Keys <= before.Keys + {k.i}
    && (forall i :: i in before && i != k.i ==> after[i] == before[i])
    && (k.i in before ==> after[k.i].facilitator == before[k.i].facilitator)
    && (k.i in before && !Early(before[k.i]) ==> !Early(after[k.i]))
    // only the owner, or a takeover of an early row, changes it
    && (k.i in before && before[k.i] != after[k.i] ==>
          before[k.i].owner == Some(k.w) || (Early(before[k.i]) && Early(after[k.i]) && after[k.i].owner == Some(k.w)))
    // ownership is never handed to somebody else
    && (k.i in after && after[k.i].owner.Some? && after[k.i].owner != Some(k.w) ==>
          k.i in before && after[k.i] == before[k.i])
  }

  lemma OthersKeepTheirRow(k: Key, before: Attempts, after: Attempts, o: Key, e: Exec)
    requires RowStep(k, before, after) && o != k && ExecOk(before, o, e)
    ensures ExecOk(after, o, e)
  {
  }

  lemma OwnershipIsOld(k: Key, before: Attempts, after: Attempts, o: Key)
    requires RowStep(k, before, after) && o != k && Owns(after, o)
    ensures Owns(before, o)
  {
  }

  predicate OfExecution(a: Step) {
    !a.Tick? && !a.Begin? && !a.RecoverRead? && !a.RecoverRecord? && !a.RecoverDrop? && !a.RecoverAbort?
  }

  /** Steps of an execution that write no attempt row. */
  predicate LeavesRows(a: Step) {
    a.ReadFenceClock? || a.Sign? || a.Raise? || a.ReturnEarly? || a.Settle? || a.SettleAnswers? || a.Store?
    || a.Crash? || a.TakeFence? || a.Unfence? || a.CleanFence? || a.Record?
  }

  lemma RowsLeftAlone(c: Config, s: State, a: Step)
    requires LeavesRows(a) && Enabled(c, s, a)
    ensures Apply(c, s, a).tables.attempts == s.tables.attempts
  {
    hide UnresolvedAt, ClaimAttempt, MarkAttempt, DeferAttempt;
    EnabledMeansRunning(c, s, a);
  }

  lemma ClaimIsRowStep(t: Tables, k: Key, f: FacilitatorId, now: int, lease: int)
    ensures RowStep(k, t.attempts, ClaimAttempt(t, k.i, f, k.w, now, lease).0.attempts)
  {
  }

  /** An owner who is past "submitting" never marks the row early again. */
  lemma MarkIsRowStep(t: Tables, k: Key, status: AttemptStatus)
    requires Owns(t.attempts, k) && !Early(t.attempts[k.i]) ==> status != Reserved && status != Signed
    ensures RowStep(k, t.attempts, MarkAttempt(t, k.i, status, k.w).0.attempts)
  {
  }

  lemma DeferIsRowStep(t: Tables, k: Key, retryAt: int)
    ensures RowStep(k, t.attempts, DeferAttempt(t, k.i, k.w, retryAt).0.attempts)
  {
  }

  lemma NothingIsRowStep(k: Key, attempts: Attempts)
    ensures RowStep(k, attempts, attempts)
  {
  }

  /** Every step of an execution changes at most its own row, and only as an owner may. */
  lemma StepChangesOwnRow(c: Config, s: State, a: Step)
    requires OfExecution(a) && Enabled(c, s, a) && ExecOk(s.tables.attempts, a.k, s.execs[a.k])
    ensures RowStep(a.k, s.tables.attempts, Apply(c, s, a).tables.attempts)
  {
    hide UnresolvedAt, ClaimFence, ReleaseFence, ClaimAttempt, MarkAttempt, DeferAttempt, RowStep;
    var e := s.execs[a.k];
    NothingIsRowStep(a.k, s.tables.attempts);
    if LeavesRows(a) {
      RowsLeftAlone(c, s, a);
    } else if a.Claim? {
      ClaimIsRowStep(s.tables, a.k, e.facilitator, e.now, c.lease);
    } else if a.Defer? {
      DeferIsRowStep(s.tables, a.k, a.retryAt);
    } else {
      MarkIsRowStep(s.tables, a.k, MarkOf(a, e));
    }
  }

  /** The status a marking step writes. */
  ghost function MarkOf(a: Step, e: Exec): AttemptStatus {
    match a
    case MarkSigned(_, _) => Signed
    case MarkSubmitting(_, _) => Submitting
    case Finish(_) => if e.pc.Finishing? then e.pc.result else Failed
    case _ => Failed
  }

  /** The execution goes on from a new position, or is over; nothing else of the run changes. */
  lemma StepTouchesOnlyItself(c: Config, s: State, a: Step)
    requires OfExecution(a) && Enabled(c, s, a)
    ensures var t := Apply(c, s, a);
            && t.clock == s.clock && t.recoveries == s.recoveries
            && (a.k in t.execs ==> t.execs == s.execs[a.k := t.execs[a.k]])
            && (a.k !in t.execs ==> t.execs == s.execs - {a.k})
  {
    hide ClaimAttempt, MarkAttempt, ClaimFence, ReleaseFence, DeferAttempt, RecordSubmission, DropFence, UnresolvedAt;
    EnabledMeansRunning(c, s, a);
    if LeavesRows(a) {
      QuietStepTouchesOnlyItself(c, s, a);
    } else {
      WritingStepTouchesOnlyItself(c, s, a);
    }
  }

  lemma QuietStepTouchesOnlyItself(c: Config, s: State, a: Step)
    requires LeavesRows(a) && Enabled(c, s, a) && a.k in s.execs
    ensures var t := Apply(c, s, a);
            && t.clock == s.clock && t.recoveries == s.recoveries
            && (a.k in t.execs ==> t.execs == s.execs[a.k := t.execs[a.k]])
            && (a.k !in t.execs ==> t.execs == s.execs - {a.k})
  {
    hide ClaimFence, ReleaseFence, RecordSubmission, Enabled;
    EndOrGoto(s, a.k);
  }

  lemma WritingStepTouchesOnlyItself(c: Config, s: State, a: Step)
    requires OfExecution(a) && !LeavesRows(a) && Enabled(c, s, a) && a.k in s.execs
    ensures var t := Apply(c, s, a);
            && t.clock == s.clock && t.recoveries == s.recoveries
            && (a.k in t.execs ==> t.execs == s.execs[a.k := t.execs[a.k]])
            && (a.k !in t.execs ==> t.execs == s.execs - {a.k})
  {
    hide ClaimAttempt, MarkAttempt, DeferAttempt, Enabled;
    EndOrGoto(s, a.k);
  }

  lemma EndOrGoto(s: State, k: Key)
    requires k in s.execs
    ensures s.execs == s.execs[k := s.execs[k]]
  {
  }

  /** After its step the execution may rely on what its new position promises. */
  lemma StepKeepsOwnPromise(c: Config, s: State, a: Step)
    requires OfExecution(a) && Enabled(c, s, a) && ExecOk(s.tables.attempts, a.k, s.execs[a.k])
    ensures var t := Apply(c, s, a);
            a.k in t.execs ==> ExecOk(t.tables.attempts, a.k, t.execs[a.k])
  {
    hide Apply, ExecOk;
    if LeavesRows(a) {
      QuietStepKeepsPromise(c, s, a);
    } else {
      WritingStepKeepsPromise(c, s, a);
    }
  }

  lemma QuietStepKeepsPromise(c: Config, s: State, a: Step)
    requires LeavesRows(a) && Enabled(c, s, a) && ExecOk(s.tables.attempts, a.k, s.execs[a.k])
    ensures var t := Apply(c, s, a);
            a.k in t.execs ==> ExecOk(t.tables.attempts, a.k, t.execs[a.k])
  {
    hide ClaimFence, ReleaseFence, RecordSubmission, ClaimAttempt, MarkAttempt, DeferAttempt, Owns, Early, ExecOk;
    RowsLeftAlone(c, s, a);
    EnabledMeansRunning(c, s, a);
    if a.k in Apply(c, s, a).execs {
      QuietSteps(c, s, a);
      PromiseMoves(s.tables.attempts, a.k, s.execs[a.k], Apply(c, s, a).execs[a.k]);
    }
  }

  /** A position that promises no more than another. */
  ghost predicate NoMore(pc: Pc, was: Pc) {
    && !was.Claiming? && (Before(pc) ==> Before(was)) && (Beyond(pc) ==> Beyond(was))
    && (pc.Finishing? ==> pc.result == Submitted || pc.result == Failed || pc.result == Unknown)
  }

  lemma QuietSteps(c: Config, s: State, a: Step)
    requires LeavesRows(a) && Enabled(c, s, a) && a.k in s.execs && a.k in Apply(c, s, a).execs
    ensures Apply(c, s, a).execs[a.k].facilitator == s.execs[a.k].facilitator
    ensures NoMore(Apply(c, s, a).execs[a.k].pc, s.execs[a.k].pc)
  {
    hide ClaimFence, ReleaseFence, RecordSubmission, ClaimAttempt, MarkAttempt, DeferAttempt, UnresolvedAt;
  }

  lemma PromiseMoves(attempts: Attempts, k: Key, was: Exec, e: Exec)
    requires ExecOk(attempts, k, was) && e.facilitator == was.facilitator && NoMore(e.pc, was.pc)
    ensures ExecOk(attempts, k, e)
  {
  }

  lemma WritingStepKeepsPromise(c: Config, s: State, a: Step)
    requires OfExecution(a) && !LeavesRows(a) && Enabled(c, s, a) && ExecOk(s.tables.attempts, a.k, s.execs[a.k])
    ensures var t := Apply(c, s, a);
            a.k in t.execs ==> ExecOk(t.tables.attempts, a.k, t.execs[a.k])
  {
    hide UnresolvedAt, ClaimFence, ReleaseFence;
  }

  lemma OwnReadingsOk(c: Config, s: State, a: Step)
    requires OfExecution(a) && Enabled(c, s, a) && a.k in s.execs && ReadOk(s.clock, s.execs[a.k])
    ensures a.k in Apply(c, s, a).execs ==> ReadOk(s.clock, Apply(c, s, a).execs[a.k])
  {
    hide ClaimAttempt, MarkAttempt, ClaimFence, ReleaseFence, DeferAttempt, RecordSubmission, DropFence, UnresolvedAt, Enabled;
  }

  lemma StepReadsThePast(c: Config, s: State, a: Step)
    requires OfExecution(a) && Enabled(c, s, a) && ReadingsOk(s.clock, s.execs)
    ensures ReadingsOk(Apply(c, s, a).clock, Apply(c, s, a).execs)
  {
    hide Apply, Enabled, OfExecution;
    EnabledMeansRunning(c, s, a);
    StepTouchesOnlyItself(c, s, a);
    OwnReadingsOk(c, s, a);
  }

  /** Marks are counted when the row turns "submitting", settles only right after that. */
  lemma StepCounts(c: Config, s: State, a: Step)
    requires OfExecution(a) && Enabled(c, s, a) && ExecOk(s.tables.attempts, a.k, s.execs[a.k])
    ensures var t := Apply(c, s, a);
            && (t.marks == s.marks
                || (t.marks == s.marks + multiset{a.k.i} && Owns(s.tables.attempts, a.k) && s.execs[a.k].pc.MarkingSubmitting?
                    && a.k.i in t.tables.attempts && t.tables.attempts[a.k.i].status == Submitting))
            && (t.settles == s.settles
                || (t.settles == s.settles + multiset{a.k.i} && s.execs[a.k].pc.Executing?
                    && a.k in t.execs && !t.execs[a.k].pc.Executing? && t.marks == s.marks))
            && (a.k in t.execs && t.execs[a.k].pc.Executing? ==> t.marks == s.marks + multiset{a.k.i})
  {
    hide ClaimAttempt, ClaimFence, ReleaseFence, DeferAttempt, RecordSubmission, DropFence, UnresolvedAt;
  }

  lemma CountsStay(k: Key, before: Attempts, after: Attempts, execs: Execs, execs': Execs,
                   marks: multiset<IntentId>, marks': multiset<IntentId>,
                   settles: multiset<IntentId>, settles': multiset<IntentId>)
    requires CountsOk(before, execs, marks, settles) && RowStep(k, before, after) && ExecsOk(before, execs)
    requires k in execs
    requires marks' == marks
             || (marks' == marks + multiset{k.i} && Owns(before, k) && execs[k].pc.MarkingSubmitting?
                 && k.i in after && after[k.i].status == Submitting)
    requires settles' == settles
             || (settles' == settles + multiset{k.i} && execs[k].pc.Executing?
                 && k in execs' && !execs'[k].pc.Executing? && marks' == marks)
    requires k in execs' && execs'[k].pc.Executing? ==> marks' == marks + multiset{k.i}
    requires forall o :: o in execs' && o != k ==> o in execs && execs'[o] == execs[o]
    ensures CountsOk(after, execs', marks', settles')
  {
    assert ExecOk(before, k, execs[k]);
    forall o | o in execs' && execs'[o].pc.Executing?
      ensures settles'[o.i] == 0 && marks'[o.i] == 1
    {
      if o != k {
        assert ExecOk(before, o, execs[o]);
      }
    }
  }

  lemma ExecutionKeepsInv(c: Config, s: State, a: Step)
    requires Inv(s) && OfExecution(a) && Enabled(c, s, a)
    ensures Inv(Apply(c, s, a))
  {
    hide Apply, RowStep, CountsOk, ReadingsOk, ExecOk, Enabled;
    var t := Apply(c, s, a);
    assert a.k in s.execs by { EnabledMeansRunning(c, s, a); }
    StepChangesOwnRow(c, s, a);
    StepTouchesOnlyItself(c, s, a);
    StepKeepsOwnPromise(c, s, a);
    StepReadsThePast(c, s, a);
    StepCounts(c, s, a);
    RecoveriesStay(a.k, s.tables.attempts, t.tables.attempts, s.recoveries);
    CountsStay(a.k, s.tables.attempts, t.tables.attempts, s.execs, t.execs, s.marks, t.marks, s.settles, t.settles);
    forall o | o in t.execs
      ensures ExecOk(t.tables.attempts, o, t.execs[o])
    {
      if o != a.k { OthersKeepTheirRow(a.k, s.tables.attempts, t.tables.attempts, o, s.execs[o]); }
    }
  }

  lemma EnabledMeansRunning(c: Config, s: State, a: Step)
    requires OfExecution(a) && Enabled(c, s, a)
    ensures a.k in s.execs
  {
  }

  lemma RecoveriesStay(k: Key, before: Attempts, after: Attempts, recoveries: set<Recovery>)
    requires RowStep(k, before, after) && RecoveriesOk(before, recoveries)
    ensures RecoveriesOk(after, recoveries)
  {
  }

  lemma BeginKeepsInv(s: State, k: Key, f: FacilitatorId)
    requires Inv(s) && k !in s.execs
    ensures Inv(Goto(s, k, Exec(f, s.clock, s.clock, Claiming)))
  {
    hide Owns, Early, RecoveriesOk;
  }

  lemma OutsideKeepsInv(c: Config, s: State, a: Step)
    requires Inv(s) && !OfExecution(a) && Enabled(c, s, a)
    ensures Inv(Apply(c, s, a))
  {
    hide ExecsOk, CountsOk, UnresolvedAt;
    if a.Begin? {
      BeginKeepsInv(s, a.k, a.facilitator);
    }
  }

  lemma StepKeepsInv(c: Config, s: State, a: Step)
    requires Inv(s) && Enabled(c, s, a)
    ensures Inv(Apply(c, s, a))
  {
    hide Inv, Apply, Enabled;
    if OfExecution(a) { ExecutionKeepsInv(c, s, a); } else { OutsideKeepsInv(c, s, a); }
  }

  lemma {:induction false} RunsKeepInv(c: Config, run: seq<Step>)
    requires IsRun(c, run)
    ensures Inv(After(c, run))
  {
    if run == [] {
      assert forall i: IntentId :: INITIAL.settles[i] == 0;
    } else {
      RunsKeepInv(c, run[..|run| - 1]);
      StepKeepsInv(c, After(c, run[..|run| - 1]), run[|run| - 1]);
    }
  }

  /** Whatever the timing, at most one execution ever passes the "submitting" mark of an intent, and
      at most one external settle is started for it. */
  lemma AtMostOneSettle(c: Config, run: seq<Step>, i: IntentId)
    requires IsRun(c, run)
    ensures After(c, run).settles[i] <= After(c, run).marks[i] <= 1
  {
    RunsKeepInv(c, run);
  }
}
