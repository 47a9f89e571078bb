/** What the facilitator's answer makes of an attempt, read from the steps of a run and the rows it leaves. */
module SettlementOutcomes {
  import opened Wrappers
  import opened SettlementTables
  import opened SettlementProtocol
  import opened SettlementSafety
  import SR = SettlementRelease

  type Trace = seq<Step>

  // ------------------------------------------------------- what a run contains

  /** The settle of this intent was answered like this, in some execution. */
  ghost predicate Answered(run: Trace, i: IntentId, x: Answer) {
    exists k: Key :: k.i == i && SettleAnswers(k, x) in run
  }

  /** It was accepted, and both the transaction and the reservation were stored. */
  ghost predicate Landed(run: Trace, i: IntentId) {
    exists k: Key :: k.i == i && SettleAnswers(k, Accepted) in run && Record(k, true) in run && Store(k, true) in run
  }

  /** It was answered ambiguously, or accepted and then not stored. */
  ghost predicate InDoubt(run: Trace, i: IntentId) {
    || Answered(run, i, Ambiguous)
    || (exists k: Key :: k.i == i && SettleAnswers(k, Accepted) in run && (Record(k, false) in run || Store(k, false) in run))
  }

  ghost predicate Longer(run: Trace, more: Trace) {
    forall a :: a in run ==> a in more
  }

  lemma OneLonger(run: Trace, a: Step)
    ensures Longer(run, run + [a]) && a in run + [a]
    ensures forall b :: b in run + [a] ==> b in run || b == a
  {
  }

  // ----------------------------------------------------------- the invariant

  /** What a final status means once a settle was started. */
  ghost predicate ResultOk(run: Trace, i: IntentId, status: AttemptStatus) {
    && (status == Failed ==> Answered(run, i, Declined))
    && (status == Submitted ==> Landed(run, i))
    && (status == Unknown ==> InDoubt(run, i))
  }

  /** What an execution past its settle knows about the run. */
  ghost predicate ProgressOk(run: Trace, k: Key, pc: Pc) {
    && (pc.Settling? ==> forall j: Key, x: Answer | j.i == k.i :: SettleAnswers(j, x) !in run)
    && (pc.Recording? ==> SettleAnswers(k, Accepted) in run)
    && (pc.Storing? ==> SettleAnswers(k, Accepted) in run && Record(k, true) in run)
  }

  ghost predicate RowsTell(run: Trace, s: State) {
    forall i | i in s.tables.attempts && s.settles[i] > 0 :: ResultOk(run, i, s.tables.attempts[i].status)
  }

  ghost predicate ExecsTell(run: Trace, s: State) {
    forall k | k in s.execs ::
      ProgressOk(run, k, s.execs[k].pc) && (s.execs[k].pc.Finishing? && s.settles[k.i] > 0 ==> ResultOk(run, k.i, s.execs[k].pc.result))
  }

  ghost predicate AnswersOk(run: Trace, s: State) {
    && (forall k, x | SettleAnswers(k, x) in run :: s.settles[k.i] > 0)
    && (forall j, k, x, y | SettleAnswers(j, x) in run && SettleAnswers(k, y) in run && j.i == k.i :: j == k && x == y)
  }

  ghost predicate Tells(run: Trace, s: State) {
    RowsTell(run, s) && ExecsTell(run, s) && AnswersOk(run, s)
  }

  lemma ResultGrows(run: Trace, more: Trace, i: IntentId, status: AttemptStatus)
    requires ResultOk(run, i, status) && Longer(run, more)
    ensures ResultOk(more, i, status)
  {
  }

  // ------------------------------------------------------------- rows of a step

  /** A step writes a final status only as the result an execution came to, or as a cleanup of an owner. */
  lemma StepWritesResults(c: Config, s: State, a: Step)
    requires Inv(s) && OfExecution(a) && Enabled(c, s, a) && a.k in s.execs
    requires a.k.i in Apply(c, s, a).tables.attempts
    ensures var row := Apply(c, s, a).tables.attempts[a.k.i];
            || (a.k.i in s.tables.attempts && row.status == s.tables.attempts[a.k.i].status)
            || row.status == Reserved || row.status == Signed || row.status == Submitting
            || (s.execs[a.k].pc.Finishing? && row.status == s.execs[a.k].pc.result)
            || (s.execs[a.k].pc.CleaningMark? && Owns(s.tables.attempts, a.k))
  {
    hide UnresolvedAt, ClaimFence, ReleaseFence, Inv;
    if LeavesRows(a) {
      RowsLeftAlone(c, s, a);
    }
  }

  /** Where an execution stands after its step, as far as the settle is concerned. */
  lemma StepMovesProgress(c: Config, s: State, a: Step)
    requires OfExecution(a) && Enabled(c, s, a) && a.k in s.execs && a.k in Apply(c, s, a).execs
    ensures var pc, was := Apply(c, s, a).execs[a.k].pc, s.execs[a.k].pc;
            && (pc.Settling? ==> was.Executing? && a.Settle?)
            && (pc.Recording? ==> was.Settling? && a == SettleAnswers(a.k, Accepted))
            && (pc.Storing? ==> was.Recording? && a == Record(a.k, true))
            && (pc.Finishing? ==>
                  || was.Executing?
                  || (a == SettleAnswers(a.k, Declined) && pc.result == Failed)
                  || (a == SettleAnswers(a.k, Ambiguous) && pc.result == Unknown)
                  || (was.Recording? && a == Record(a.k, false) && pc.result == Unknown)
                  || (was.Storing? && a == Store(a.k, true) && pc.result == Submitted)
                  || (was.Storing? && a == Store(a.k, false) && pc.result == Unknown))
  {
    hide ClaimAttempt, MarkAttempt, ClaimFence, ReleaseFence, DeferAttempt, RecordSubmission, UnresolvedAt;
  }

  lemma AnswersComeFromSettling(c: Config, s: State, a: Step)
    requires Enabled(c, s, a) && a.SettleAnswers?
    ensures a.k in s.execs && s.execs[a.k].pc.Settling?
  {
  }

  /** An execution that is settling has started its settle. */
  ghost predicate SettlingStarted(s: State) {
    forall k | k in s.execs && s.execs[k].pc.Settling? :: s.settles[k.i] > 0
  }

  ghost predicate FullInv(run: Trace, s: State) {
    Inv(s) && SR.CleanersOk(s) && SettlingStarted(s) && Tells(run, s)
  }

  lemma StepKeepsStarted(c: Config, s: State, a: Step)
    requires Inv(s) && SettlingStarted(s) && OfExecution(a) && Enabled(c, s, a)
    ensures SettlingStarted(Apply(c, s, a))
  {
    hide Inv, Apply, Enabled;
    EnabledMeansRunning(c, s, a);
    StepTouchesOnlyItself(c, s, a);
    SR.SettlesGrowByTheirOwn(c, s, a);
    if a.k in Apply(c, s, a).execs {
      StepMovesProgress(c, s, a);
      if Apply(c, s, a).execs[a.k].pc.Settling? { SettleStarts(c, s, a.k); }
    }
  }

  lemma SettleStarts(c: Config, s: State, k: Key)
    requires Enabled(c, s, Settle(k))
    ensures Apply(c, s, Settle(k)).settles == s.settles + multiset{k.i}
  {
  }

  lemma NoSettleWhileExecuting(s: State, k: Key)
    requires Inv(s) && k in s.execs && s.execs[k].pc.Executing?
    ensures s.settles[k.i] == 0
  {
    hide ExecsOk, ReadingsOk, RecoveriesOk;
  }

  lemma StepKeepsRows(c: Config, run: Trace, s: State, a: Step)
    requires FullInv(run, s) && OfExecution(a) && Enabled(c, s, a)
    ensures RowsTell(run + [a], Apply(c, s, a))
  {
    hide Inv, Apply, Enabled, ResultOk, AnswersOk, ProgressOk, RowStep, Owns, Early, SettlingStarted;
    EnabledMeansRunning(c, s, a);
    OneLonger(run, a);
    SR.OwnExecOk(s, a.k);
    StepChangesOwnRow(c, s, a);
    SR.SettlesGrowByTheirOwn(c, s, a);
    var t := Apply(c, s, a);
    forall i | i in t.tables.attempts && t.settles[i] > 0 ensures ResultOk(run + [a], i, t.tables.attempts[i].status) {
      if i != a.k.i {
        OtherRows(a.k, s.tables.attempts, t.tables.attempts, i);
        ResultGrows(run, run + [a], i, s.tables.attempts[i].status);
      } else {
        OwnRowTells(c, run, s, a);
      }
    }
  }

  lemma OtherRows(k: Key, before: Attempts, after: Attempts, i: IntentId)
    requires RowStep(k, before, after) && i != k.i && i in after
    ensures i in before && after[i] == before[i]
  {
  }

  lemma OwnRowTells(c: Config, run: Trace, s: State, a: Step)
    requires FullInv(run, s) && OfExecution(a) && Enabled(c, s, a) && a.k in s.execs
    requires a.k.i in Apply(c, s, a).tables.attempts && Apply(c, s, a).settles[a.k.i] > 0
    ensures ResultOk(run + [a], a.k.i, Apply(c, s, a).tables.attempts[a.k.i].status)
  {
    hide Inv, Apply, Enabled, AnswersOk, ProgressOk, Owns, SettlingStarted, Answered, Landed, InDoubt;
    OneLonger(run, a);
    SR.SettlesGrowByTheirOwn(c, s, a);
    StepWritesResults(c, s, a);
    var t := Apply(c, s, a);
    var status := t.tables.attempts[a.k.i].status;
    if a.Settle? {
      SettleLeavesRows(c, s, a.k);
      SR.OwnExecOk(s, a.k);
    } else if status == Reserved || status == Signed || status == Submitting {
    } else if s.execs[a.k].pc.Finishing? && status == s.execs[a.k].pc.result {
      ResultGrows(run, run + [a], a.k.i, status);
    } else if s.execs[a.k].pc.CleaningMark? && Owns(s.tables.attempts, a.k) {
    } else {
      ResultGrows(run, run + [a], a.k.i, status);
    }
  }

  lemma SettleLeavesRows(c: Config, s: State, k: Key)
    requires Enabled(c, s, Settle(k))
    ensures Apply(c, s, Settle(k)).tables == s.tables && k in s.execs && Beyond(s.execs[k].pc)
  {
  }

  // --------------------------------------------------------- executions of a step

  lemma OnlyOneBeyond(s: State, j: Key, k: Key)
    requires Inv(s) && j in s.execs && k in s.execs && Beyond(s.execs[j].pc) && Beyond(s.execs[k].pc) && j.i == k.i
    ensures j == k
  {
    hide Inv;
    SR.OwnExecOk(s, k);
    SR.OwnersAreOne(s, j, k);
  }

  /** An answer concerns the one execution that was settling. */
  lemma OthersKeepProgress(c: Config, run: Trace, s: State, a: Step, k: Key)
    requires FullInv(run, s) && OfExecution(a) && Enabled(c, s, a) && a.k in s.execs && k in s.execs && k != a.k
    ensures ProgressOk(run + [a], k, s.execs[k].pc)
  {
    hide Inv, Apply, Enabled, RowsTell, AnswersOk, ResultOk;
    OneLonger(run, a);
    if s.execs[k].pc.Settling? && a.SettleAnswers? {
      AnswersComeFromSettling(c, s, a);
      if a.k.i == k.i { OnlyOneBeyond(s, a.k, k); }
    }
  }

  lemma OthersKeepResult(c: Config, run: Trace, s: State, a: Step, k: Key)
    requires FullInv(run, s) && OfExecution(a) && Enabled(c, s, a) && a.k in s.execs && k in s.execs && k != a.k
    requires s.execs[k].pc.Finishing? && Apply(c, s, a).settles[k.i] > 0
    ensures ResultOk(run + [a], k.i, s.execs[k].pc.result)
  {
    hide Inv, Apply, Enabled, RowsTell, AnswersOk, ResultOk, ProgressOk;
    OneLonger(run, a);
    SR.SettlesGrowByTheirOwn(c, s, a);
    if s.settles[k.i] > 0 {
      ResultGrows(run, run + [a], k.i, s.execs[k].pc.result);
    } else {
      OnlyOneBeyond(s, a.k, k);
    }
  }

  lemma OwnProgress(c: Config, run: Trace, s: State, a: Step)
    requires FullInv(run, s) && OfExecution(a) && Enabled(c, s, a) && a.k in s.execs && a.k in Apply(c, s, a).execs
    ensures ProgressOk(run + [a], a.k, Apply(c, s, a).execs[a.k].pc)
  {
    hide Inv, Apply, Enabled, RowsTell, ResultOk;
    OneLonger(run, a);
    StepMovesProgress(c, s, a);
    if s.execs[a.k].pc.Executing? { NoSettleWhileExecuting(s, a.k); }
  }

  lemma OwnResult(c: Config, run: Trace, s: State, a: Step)
    requires FullInv(run, s) && OfExecution(a) && Enabled(c, s, a) && a.k in s.execs && a.k in Apply(c, s, a).execs
    requires Apply(c, s, a).execs[a.k].pc.Finishing? && Apply(c, s, a).settles[a.k.i] > 0
    ensures ResultOk(run + [a], a.k.i, Apply(c, s, a).execs[a.k].pc.result)
  {
    hide Inv, Apply, Enabled, RowsTell;
    OneLonger(run, a);
    StepMovesProgress(c, s, a);
    SR.SettlesGrowByTheirOwn(c, s, a);
    if s.execs[a.k].pc.Executing? {
      NoSettleWhileExecuting(s, a.k);
      if a.Settle? { SettleEndsInSettling(c, s, a.k); }
    }
  }

  lemma SettleEndsInSettling(c: Config, s: State, k: Key)
    requires Enabled(c, s, Settle(k))
    ensures k in Apply(c, s, Settle(k)).execs && Apply(c, s, Settle(k)).execs[k].pc.Settling?
  {
  }

  lemma StepKeepsExecs(c: Config, run: Trace, s: State, a: Step)
    requires FullInv(run, s) && OfExecution(a) && Enabled(c, s, a)
    ensures ExecsTell(run + [a], Apply(c, s, a))
  {
    hide Inv, Apply, Enabled, RowsTell, ResultOk, AnswersOk, ProgressOk, SettlingStarted, SR.CleanersOk;
    EnabledMeansRunning(c, s, a);
    StepTouchesOnlyItself(c, s, a);
    var t := Apply(c, s, a);
    forall k | k in t.execs
      ensures ProgressOk(run + [a], k, t.execs[k].pc)
      ensures t.execs[k].pc.Finishing? && t.settles[k.i] > 0 ==> ResultOk(run + [a], k.i, t.execs[k].pc.result)
    {
      if k == a.k {
        OwnProgress(c, run, s, a);
        if t.execs[k].pc.Finishing? && t.settles[k.i] > 0 { OwnResult(c, run, s, a); }
      } else {
        OthersKeepProgress(c, run, s, a, k);
        if t.execs[k].pc.Finishing? && t.settles[k.i] > 0 { OthersKeepResult(c, run, s, a, k); }
      }
    }
  }

  lemma StepKeepsAnswers(c: Config, run: Trace, s: State, a: Step)
    requires FullInv(run, s) && OfExecution(a) && Enabled(c, s, a)
    ensures AnswersOk(run + [a], Apply(c, s, a))
  {
    hide Inv, Apply, Enabled, RowsTell, ResultOk;
    EnabledMeansRunning(c, s, a);
    OneLonger(run, a);
    SR.SettlesGrowByTheirOwn(c, s, a);
    if a.SettleAnswers? {
      AnswersComeFromSettling(c, s, a);
      assert ProgressOk(run, a.k, s.execs[a.k].pc);
    }
  }

  // -------------------------------------------------------------------- runs

  /** Steps outside executions change no row's status, no settle and no position. */
  lemma OutsideLeaves(c: Config, s: State, a: Step)
    requires !OfExecution(a) && Enabled(c, s, a)
    ensures var t := Apply(c, s, a);
            && t.tables.attempts == s.tables.attempts && t.settles == s.settles
            && (forall k | k in t.execs :: (k in s.execs && t.execs[k] == s.execs[k]) || t.execs[k].pc.Claiming?)
  {
    hide UnresolvedAt;
  }

  lemma OutsideKeepsTelling(c: Config, run: Trace, s: State, a: Step)
    requires FullInv(run, s) && !OfExecution(a) && Enabled(c, s, a)
    ensures Tells(run + [a], Apply(c, s, a)) && SettlingStarted(Apply(c, s, a))
  {
    hide Inv, Apply, Enabled, ResultOk;
    OneLonger(run, a);
    OutsideLeaves(c, s, a);
    forall i: IntentId, status: AttemptStatus | ResultOk(run, i, status) ensures ResultOk(run + [a], i, status) {
      ResultGrows(run, run + [a], i, status);
    }
  }

  lemma StepKeepsFull(c: Config, run: Trace, s: State, a: Step)
    requires FullInv(run, s) && Enabled(c, s, a)
    ensures FullInv(run + [a], Apply(c, s, a))
  {
    hide Inv, Apply, Enabled, RowsTell, ExecsTell, AnswersOk, SR.CleanersOk, SettlingStarted;
    StepKeepsInv(c, s, a);
    if OfExecution(a) {
      SR.ExecutionKeepsCleaners(c, s, a);
      StepKeepsStarted(c, s, a);
      StepKeepsRows(c, run, s, a);
      StepKeepsExecs(c, run, s, a);
      StepKeepsAnswers(c, run, s, a);
    } else {
      SR.OutsideKeepsCleaners(c, s, a);
      OutsideKeepsTelling(c, run, s, a);
    }
  }

  lemma {:induction false} RunsTell(c: Config, run: Trace)
    requires IsRun(c, run)
    ensures FullInv(run, After(c, run))
  {
    hide FullInv, Enabled, Apply;
    if run == [] {
      StartTells(c);
    } else {
      var n := |run| - 1;
      RunsTell(c, run[..n]);
      StepKeepsFull(c, run[..n], After(c, run[..n]), run[n]);
      assert run[..n] + [run[n]] == run;
    }
  }

  lemma StartTells(c: Config)
    ensures FullInv([], INITIAL)
  {
    hide Inv;
    RunsKeepInv(c, []);
  }

  /** Once a settle was started, the row's final status says what the run saw: failed only after a definite rejection,
      submitted only after an acceptance that was stored, unknown only in doubt. */
  lemma StatusTellsTheAnswer(c: Config, run: Trace, i: IntentId)
    requires IsRun(c, run) && i in After(c, run).tables.attempts && After(c, run).settles[i] > 0
    ensures var status := After(c, run).tables.attempts[i].status;
            && (status == Failed ==> Answered(run, i, Declined))
            && (status == Submitted ==> Landed(run, i))
            && (status == Unknown ==> InDoubt(run, i))
            && status != Reserved && status != Signed
  {
    hide Inv, Answered, Landed, InDoubt;
    RunsTell(c, run);
    if Early(After(c, run).tables.attempts[i]) { SR.EarlyHasNoSettle(After(c, run), i); }
  }

  /** And the answer decides the status: an intent is answered once, and every other ending is closed to it. */
  lemma AnswerDecidesTheStatus(c: Config, run: Trace, k: Key, x: Answer)
    requires IsRun(c, run) && SettleAnswers(k, x) in run && k.i in After(c, run).tables.attempts
    ensures var status := After(c, run).tables.attempts[k.i].status;
            match x
            case Declined => status == Submitting || status == Failed
            case Ambiguous => status == Submitting || status == Unknown
            case Accepted => status == Submitting || status == Submitted || status == Unknown
  {
    hide Inv, RowsTell, ExecsTell;
    RunsTell(c, run);
    StatusTellsTheAnswer(c, run, k.i);
  }

  // ------------------------------------------------------------------ fences

  /** Nothing of this execution can touch its row or its fence any more. */
  ghost predicate Retired(s: State, k: Key) {
    && k.i in s.tables.attempts && !Early(s.tables.attempts[k.i])
    && (k in s.execs ==> s.execs[k].pc == Claiming || s.execs[k].pc == Finishing(Unknown))
  }

  lemma AmbiguityRetires(c: Config, s: State, k: Key)
    requires Inv(s) && Enabled(c, s, SettleAnswers(k, Ambiguous))
    ensures Retired(Apply(c, s, SettleAnswers(k, Ambiguous)), k)
  {
    hide CountsOk, ReadingsOk, RecoveriesOk;
    assert ExecOk(s.tables.attempts, k, s.execs[k]);
  }

  lemma RetiredTakesFewSteps(c: Config, s: State, a: Step)
    requires OfExecution(a) && Enabled(c, s, a) && Retired(s, a.k)
    ensures a.k !in Apply(c, s, a).execs
    ensures !a.Unfence? && !a.CleanFence? && !a.TakeFence?
  {
    hide UnresolvedAt;
  }

  lemma RetiredStays(c: Config, s: State, a: Step, k: Key)
    requires Inv(s) && Enabled(c, s, a) && Retired(s, k)
    ensures Retired(Apply(c, s, a), k)
  {
    hide Inv, Apply, Enabled, Early, RowStep;
    if OfExecution(a) {
      EnabledMeansRunning(c, s, a);
      SR.OwnExecOk(s, a.k);
      StepChangesOwnRow(c, s, a);
      StepTouchesOnlyItself(c, s, a);
      LateStaysLate(a.k, s.tables.attempts, Apply(c, s, a).tables.attempts, k.i);
      if a.k == k { RetiredTakesFewSteps(c, s, a); }
    } else {
      OutsideLeaves(c, s, a);
    }
  }

  lemma LateStaysLate(k: Key, before: Attempts, after: Attempts, i: IntentId)
    requires RowStep(k, before, after) && i in before && !Early(before[i])
    ensures i in after && !Early(after[i]) && after[i].facilitator == before[i].facilitator
  {
  }

  lemma {:induction false} AmbiguousExecutionsRetire(c: Config, run: Trace, k: Key)
    requires IsRun(c, run) && SettleAnswers(k, Ambiguous) in run
    ensures Retired(After(c, run), k)
  {
    hide Retired, Enabled, Apply, Inv;
    var n := |run| - 1;
    RunsKeepInv(c, run[..n]);
    if run[n] == SettleAnswers(k, Ambiguous) {
      AmbiguityRetires(c, After(c, run[..n]), k);
    } else {
      assert SettleAnswers(k, Ambiguous) in run[..n];
      AmbiguousExecutionsRetire(c, run[..n], k);
      RetiredStays(c, After(c, run[..n]), run[n], k);
    }
  }

  lemma {:induction false} PrefixIsRun(c: Config, run: Trace, m: nat)
    requires IsRun(c, run) && m <= |run|
    ensures IsRun(c, run[..m]) && (m < |run| ==> Enabled(c, After(c, run[..m]), run[m]))
  {
    if m < |run| {
      PrefixIsRun(c, run[..|run| - 1], m);
      assert run[..|run| - 1][..m] == run[..m];
    } else {
      assert run[..m] == run;
    }
  }

  /** After an ambiguous answer the execution never releases a fence, nor takes another one. */
  lemma AmbiguousExecutionsKeepTheFence(c: Config, run: Trace, n: nat, m: nat, k: Key)
    requires IsRun(c, run) && n < m < |run| && run[n] == SettleAnswers(k, Ambiguous)
    ensures run[m] != Unfence(k) && run[m] != CleanFence(k)
  {
    hide Enabled, Retired;
    PrefixIsRun(c, run, m);
    assert run[..m][n] == SettleAnswers(k, Ambiguous);
    AmbiguousExecutionsRetire(c, run[..m], k);
    if run[m] == Unfence(k) || run[m] == CleanFence(k) { RetiredTakesFewSteps(c, After(c, run[..m]), run[m]); }
  }

  /** A recovery that may drop a fence has recorded its transaction. */
  ghost predicate DropsAreRecorded(s: State) {
    forall r | r in s.recoveries && r.recorded :: r.i in s.tables.submissions
  }

  lemma {:induction false} DropsComeAfterRecords(c: Config, run: Trace)
    requires IsRun(c, run)
    ensures DropsAreRecorded(After(c, run))
  {
    hide Enabled, Apply, DropsAreRecorded;
    if run == [] {
      NothingToDrop();
    } else {
      var n := |run| - 1;
      DropsComeAfterRecords(c, run[..n]);
      StepKeepsDrops(c, After(c, run[..n]), run[n]);
    }
  }

  lemma NothingToDrop()
    ensures DropsAreRecorded(INITIAL)
  {
  }

  lemma StepKeepsDrops(c: Config, s: State, a: Step)
    requires DropsAreRecorded(s) && Enabled(c, s, a)
    ensures DropsAreRecorded(Apply(c, s, a)) && s.tables.submissions <= Apply(c, s, a).tables.submissions
  {
    hide Apply, Enabled, OfExecution;
    SubmissionsOnlyGrow(c, s, a);
    if OfExecution(a) {
      StepTouchesOnlyItself(c, s, a);
    } else {
      OutsideKeepsDrops(c, s, a);
    }
  }

  lemma SubmissionsOnlyGrow(c: Config, s: State, a: Step)
    requires Enabled(c, s, a)
    ensures s.tables.submissions <= Apply(c, s, a).tables.submissions
  {
    hide UnresolvedAt, Early, LeaseExpired, Marked;
  }

  lemma OutsideKeepsDrops(c: Config, s: State, a: Step)
    requires DropsAreRecorded(s) && !OfExecution(a) && Enabled(c, s, a)
    ensures DropsAreRecorded(Apply(c, s, a))
  {
    hide UnresolvedAt;
  }

  /** The fence of an intent in doubt survives every step but the recording of its transaction. */
  lemma FenceSurvives(c: Config, s: State, a: Step, k: Key, f: FacilitatorId)
    requires Enabled(c, s, a) && Retired(s, k) && DropsAreRecorded(s)
    requires s.tables.attempts[k.i].facilitator == f && Unresolved(s.tables, k.i)
    requires f in s.tables.fences && s.tables.fences[f].intent == k.i && s.tables.fences[f].owner == k.w
    ensures var t := Apply(c, s, a).tables; f in t.fences && t.fences[f] == s.tables.fences[f]
  {
    hide Retired, ClaimAttempt, MarkAttempt, DeferAttempt, RecordSubmission, Unresolved, DropsAreRecorded;
    if OfExecution(a) && a.k == k { RetiredTakesFewSteps(c, s, a); }
    DoubtBlocks(s.tables, k.i);
    if a.RecoverDrop? { RecordedIsResolved(s, a.r); }
    OtherStatementsLeaveFences(c, s, a);
  }

  lemma DoubtBlocks(t: Tables, i: IntentId)
    requires Unresolved(t, i)
    ensures UnresolvedAt(t, t.attempts[i].facilitator)
  {
  }

  lemma RecordedIsResolved(s: State, r: Recovery)
    requires DropsAreRecorded(s) && r in s.recoveries && r.recorded
    ensures !Unresolved(s.tables, r.i)
  {
  }

  lemma OtherStatementsLeaveFences(c: Config, s: State, a: Step)
    requires Enabled(c, s, a)
    ensures a.TakeFence? || a.Unfence? || a.CleanFence? || a.RecoverDrop? || Apply(c, s, a).tables.fences == s.tables.fences
  {
    hide UnresolvedAt, ClaimFence, ReleaseFence, DropFence;
  }

  lemma {:induction false} FencesSurviveRuns(c: Config, run: Trace, m: nat, k: Key, f: FacilitatorId)
    requires IsRun(c, run) && m <= |run| && SettleAnswers(k, Ambiguous) in run[..m]
    requires k.i !in After(c, run).tables.submissions
    requires IsRun(c, run[..m]) && k.i in After(c, run[..m]).tables.attempts
    requires var t := After(c, run[..m]).tables;
             t.attempts[k.i].facilitator == f && f in t.fences && t.fences[f].intent == k.i && t.fences[f].owner == k.w
    ensures k.i in After(c, run).tables.attempts && After(c, run).tables.attempts[k.i].facilitator == f
    ensures f in After(c, run).tables.fences && After(c, run).tables.fences[f] == After(c, run[..m]).tables.fences[f]
    decreases |run|
  {
    hide Retired, Enabled, Apply, Inv, Unresolved, DropsAreRecorded, Early;
    if m == |run| {
      assert run[..m] == run;
    } else {
      var n := |run| - 1;
      var front := run[..n];
      assert front[..m] == run[..m];
      var s := After(c, front);
      DropsComeAfterRecords(c, front);
      StepKeepsDrops(c, s, run[n]);
      FencesSurviveRuns(c, front, m, k, f);
      assert SettleAnswers(k, Ambiguous) in front by { assert SettleAnswers(k, Ambiguous) in run[..m]; }
      AmbiguousExecutionsRetire(c, front, k);
      DoubtIsUnresolved(c, front, k);
      FenceSurvives(c, s, run[n], k, f);
      FacilitatorStays(c, front, run[n], k);
    }
  }

  lemma DoubtIsUnresolved(c: Config, run: Trace, k: Key)
    requires IsRun(c, run) && SettleAnswers(k, Ambiguous) in run && k.i in After(c, run).tables.attempts
    requires k.i !in After(c, run).tables.submissions
    ensures Unresolved(After(c, run).tables, k.i)
  {
    hide IsRun, After;
    AnswerDecidesTheStatus(c, run, k, Ambiguous);
  }

  lemma FacilitatorStays(c: Config, run: Trace, a: Step, k: Key)
    requires IsRun(c, run) && Enabled(c, After(c, run), a) && Retired(After(c, run), k)
    ensures k.i in Apply(c, After(c, run), a).tables.attempts
    ensures Apply(c, After(c, run), a).tables.attempts[k.i].facilitator == After(c, run).tables.attempts[k.i].facilitator
  {
    hide Inv, Apply, Enabled, Early, RowStep, IsRun, After;
    var s := After(c, run);
    RunsKeepInv(c, run);
    if OfExecution(a) {
      EnabledMeansRunning(c, s, a);
      SR.OwnExecOk(s, a.k);
      StepChangesOwnRow(c, s, a);
      LateStaysLate(a.k, s.tables.attempts, Apply(c, s, a).tables.attempts, k.i);
    } else {
      OutsideLeaves(c, s, a);
    }
  }

  // ------------------------------------------------- past the submitting mark

  /** An execution that heard its "submitting" mark is past every cleanup. */
  ghost predicate Committed(s: State, k: Key) {
    && k.i in s.tables.attempts && !Early(s.tables.attempts[k.i])
    && (k in s.execs ==> s.execs[k].pc.Claiming? || Beyond(s.execs[k].pc) || s.execs[k].pc.Unfencing?)
  }

  lemma CommittedMoves(c: Config, s: State, a: Step)
    requires OfExecution(a) && Enabled(c, s, a) && Committed(s, a.k)
    ensures a.k in Apply(c, s, a).execs ==>
              Beyond(Apply(c, s, a).execs[a.k].pc) || Apply(c, s, a).execs[a.k].pc.Unfencing?
    ensures !a.CleanFence? && !a.CleanMark? && !a.Defer?
  {
    hide ClaimFence, ReleaseFence, UnresolvedAt;
  }

  lemma CommittedStays(c: Config, s: State, a: Step, k: Key)
    requires Inv(s) && Enabled(c, s, a) && Committed(s, k)
    ensures Committed(Apply(c, s, a), k)
  {
    hide Inv, Apply, Enabled, Early, RowStep;
    if OfExecution(a) {
      EnabledMeansRunning(c, s, a);
      SR.OwnExecOk(s, a.k);
      StepChangesOwnRow(c, s, a);
      StepTouchesOnlyItself(c, s, a);
      LateStaysLate(a.k, s.tables.attempts, Apply(c, s, a).tables.attempts, k.i);
      if a.k == k { CommittedMoves(c, s, a); }
    } else {
      OutsideLeaves(c, s, a);
    }
  }

  /** The mark was written by this execution, which heard of it. */
  ghost predicate MarkHeard(c: Config, run: Trace, n: nat, k: Key)
    requires IsRun(c, run) && n < |run|
  {
    run[n] == MarkSubmitting(k, true) && IsRun(c, run[..n]) && Owns(After(c, run[..n]).tables.attempts, k)
  }

  lemma MarkCommits(c: Config, s: State, k: Key)
    requires Enabled(c, s, MarkSubmitting(k, true)) && Owns(s.tables.attempts, k)
    ensures Committed(Apply(c, s, MarkSubmitting(k, true)), k)
  {
  }

  lemma {:induction false} HeardMarksCommit(c: Config, run: Trace, n: nat, k: Key)
    requires IsRun(c, run) && n < |run| && MarkHeard(c, run, n, k)
    ensures Committed(After(c, run), k)
  {
    hide Committed, Enabled, Apply, Inv, Owns;
    var m := |run| - 1;
    if n == m {
      MarkCommits(c, After(c, run[..m]), k);
    } else {
      assert run[..m][..n] == run[..n];
      HeardMarksCommit(c, run[..m], n, k);
      RunsKeepInv(c, run[..m]);
      CommittedStays(c, After(c, run[..m]), run[m], k);
    }
  }

  /** From then on it neither defers nor cleans up: only its result can end the attempt. */
  lemma CommittedExecutionsNeverCleanUp(c: Config, run: Trace, n: nat, m: nat, k: Key)
    requires IsRun(c, run) && n < m < |run| && MarkHeard(c, run, n, k)
    ensures run[m] != CleanFence(k) && run[m] != CleanMark(k)
    ensures forall t, h :: run[m] != Defer(k, t, h)
  {
    hide Enabled, Committed, Owns;
    PrefixIsRun(c, run, m);
    assert run[..m][..n] == run[..n] && run[..m][n] == run[n];
    HeardMarksCommit(c, run[..m], n, k);
    if OfExecution(run[m]) && run[m].k == k { CommittedMoves(c, After(c, run[..m]), run[m]); }
  }
}
