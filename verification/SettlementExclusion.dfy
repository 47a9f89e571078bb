/** At most one unresolved attempt per facilitator, and exactly how timely a worker must be for
    that to hold. */
module SettlementExclusion {
  import opened Wrappers
  import opened SettlementTables
  import opened SettlementProtocol
  import opened SettlementSafety

  ghost predicate FencingOk(s: State) {
    FencesOk(s.clock, s.tables, s.execs) && Exclusive(s.tables)
  }

  /** Running fences of other executions are left alone. */
  ghost predicate FenceStep(k: Key, clock: int, before: map<FacilitatorId, Fence>, after: map<FacilitatorId, Fence>) {
    forall f :: f in before && before[f].expiresAt >= clock && !(before[f].intent == k.i && before[f].owner == k.w) ==>
      f in after && after[f] == before[f]
  }

  lemma StepRespectsFences(c: Config, s: State, a: Step)
    requires OfExecution(a) && Enabled(c, s, a) && ReadingsOk(s.clock, s.execs)
    ensures FenceStep(a.k, s.clock, s.tables.fences, Apply(c, s, a).tables.fences)
  {
    hide ClaimAttempt, MarkAttempt, DeferAttempt, UnresolvedAt;
    if !a.TakeFence? && !a.Unfence? && !a.CleanFence? { AttemptStatementsKeepFences(c, s, a); }
  }

  lemma AttemptStatementsKeepFences(c: Config, s: State, a: Step)
    requires OfExecution(a) && Enabled(c, s, a) && !a.TakeFence? && !a.Unfence? && !a.CleanFence?
    ensures Apply(c, s, a).tables.fences == s.tables.fences
  {
    hide UnresolvedAt, ClaimFence, ReleaseFence;
  }

  /** This step turns the attempt of k unresolved. */
  predicate TurnsUnresolved(s: State, a: Step) {
    a.MarkSubmitting? && a.k in s.execs && s.execs[a.k].pc.MarkingSubmitting? && Owns(s.tables.attempts, a.k)
  }

  lemma SubmissionsGrow(c: Config, s: State, a: Step)
    requires OfExecution(a) && Enabled(c, s, a)
    ensures s.tables.submissions <= Apply(c, s, a).tables.submissions
  {
    hide UnresolvedAt;
  }

  lemma StepUnresolves(c: Config, s: State, a: Step, j: IntentId)
    requires OfExecution(a) && Enabled(c, s, a) && ExecOk(s.tables.attempts, a.k, s.execs[a.k])
    requires Unresolved(Apply(c, s, a).tables, j)
    ensures Unresolved(s.tables, j) || (TurnsUnresolved(s, a) && j == a.k.i)
  {
    hide UnresolvedAt, ClaimFence, ReleaseFence;
    SubmissionsGrow(c, s, a);
    if LeavesRows(a) { RowsLeftAlone(c, s, a); }
  }

  /** The execution's own claim to the fence after its step. */
  lemma StepKeepsOwnFence(c: Config, s: State, a: Step)
    requires OfExecution(a) && Enabled(c, s, a) && ReadingsOk(s.clock, s.execs)
    requires var e := s.execs[a.k];
             Fenced(e.pc) && Owns(s.tables.attempts, a.k) && s.clock <= e.fenceUntil ==> HoldsFence(s.tables, a.k, e)
    requires a.k in Apply(c, s, a).execs && Fenced(Apply(c, s, a).execs[a.k].pc)
    requires Owns(Apply(c, s, a).tables.attempts, a.k) && s.clock <= Apply(c, s, a).execs[a.k].fenceUntil
    ensures var t, e := Apply(c, s, a), Apply(c, s, a).execs[a.k];
            && e.facilitator == s.execs[a.k].facilitator
            && e.facilitator in t.tables.fences && t.tables.fences[e.facilitator] == Fence(a.k.i, a.k.w, e.fenceUntil)
            && !UnresolvedAt(s.tables, e.facilitator)
  {
    hide UnresolvedAt, ClaimAttempt, ReleaseFence, DeferAttempt;
  }

  lemma StillNothingUnresolved(c: Config, s: State, a: Step, f: FacilitatorId)
    requires OfExecution(a) && Enabled(c, s, a) && ExecOk(s.tables.attempts, a.k, s.execs[a.k])
    requires !UnresolvedAt(s.tables, f)
    requires TurnsUnresolved(s, a) ==> s.execs[a.k].facilitator != f
    ensures !UnresolvedAt(Apply(c, s, a).tables, f)
  {
    hide Apply, RowStep;
    var t := Apply(c, s, a).tables;
    if UnresolvedAt(t, f) {
      var j :| j in t.attempts && Unresolved(t, j) && t.attempts[j].facilitator == f;
      StepUnresolves(c, s, a, j);
      StepChangesOwnRow(c, s, a);
      FacilitatorsStay(a.k, s.tables.attempts, t.attempts, j);
    }
  }

  lemma FacilitatorsStay(k: Key, before: Attempts, after: Attempts, j: IntentId)
    requires RowStep(k, before, after) && j in before
    ensures j in after && after[j].facilitator == before[j].facilitator
  {
  }

  /** Marking in time means really holding the fence. */
  ghost predicate Timely(s: State, a: Step) {
    TurnsUnresolved(s, a) ==> s.clock <= s.execs[a.k].fenceUntil
  }

  lemma ExecutionKeepsFences(c: Config, s: State, a: Step)
    requires Inv(s) && FencingOk(s) && OfExecution(a) && Enabled(c, s, a) && Timely(s, a)
    ensures FencesOk(s.clock, Apply(c, s, a).tables, Apply(c, s, a).execs)
  {
    hide Apply, RowStep, CountsOk, RecoveriesOk, ExecOk, Enabled, UnresolvedAt, Exclusive, Owns;
    EnabledMeansRunning(c, s, a);
    var t := Apply(c, s, a);
    StepChangesOwnRow(c, s, a);
    StepTouchesOnlyItself(c, s, a);
    StepRespectsFences(c, s, a);
    forall o | o in t.execs && Fenced(t.execs[o].pc) && Owns(t.tables.attempts, o) && s.clock <= t.execs[o].fenceUntil
      ensures HoldsFence(t.tables, o, t.execs[o])
    {
      if o == a.k {
        StepKeepsOwnFence(c, s, a);
        if TurnsUnresolved(s, a) { TurningLeavesTheWindow(c, s, a); }
      } else {
        OwnershipIsOld(a.k, s.tables.attempts, t.tables.attempts, o);
        assert HoldsFence(s.tables, o, s.execs[o]);
        if TurnsUnresolved(s, a) { assert HoldsFence(s.tables, a.k, s.execs[a.k]); }
      }
      StillNothingUnresolved(c, s, a, t.execs[o].facilitator);
    }
  }

  lemma TurningLeavesTheWindow(c: Config, s: State, a: Step)
    requires OfExecution(a) && Enabled(c, s, a) && TurnsUnresolved(s, a)
    ensures a.k in Apply(c, s, a).execs && !Fenced(Apply(c, s, a).execs[a.k].pc)
  {
    hide UnresolvedAt;
  }

  lemma ExecutionKeepsExclusion(c: Config, s: State, a: Step)
    requires Inv(s) && FencingOk(s) && OfExecution(a) && Enabled(c, s, a) && Timely(s, a)
    ensures Exclusive(Apply(c, s, a).tables)
  {
    hide Apply, RowStep, CountsOk, RecoveriesOk, ReadingsOk, Enabled, Owns;
    EnabledMeansRunning(c, s, a);
    var t := Apply(c, s, a);
    StepChangesOwnRow(c, s, a);
    assert TurnsUnresolved(s, a) ==> HoldsFence(s.tables, a.k, s.execs[a.k]);
    assert ExecOk(s.tables.attempts, a.k, s.execs[a.k]);
    forall i, j | Unresolved(t.tables, i) && Unresolved(t.tables, j)
                  && t.tables.attempts[i].facilitator == t.tables.attempts[j].facilitator
      ensures i == j
    {
      StepUnresolves(c, s, a, i);
      StepUnresolves(c, s, a, j);
      if Unresolved(s.tables, i) { FacilitatorsStay(a.k, s.tables.attempts, t.tables.attempts, i); }
      if Unresolved(s.tables, j) { FacilitatorsStay(a.k, s.tables.attempts, t.tables.attempts, j); }
      if TurnsUnresolved(s, a) { FacilitatorsStay(a.k, s.tables.attempts, t.tables.attempts, a.k.i); }
    }
  }

  lemma OutsideKeepsFencing(c: Config, s: State, a: Step)
    requires Inv(s) && FencingOk(s) && !OfExecution(a) && Enabled(c, s, a)
    ensures FencingOk(Apply(c, s, a))
  {
    hide CountsOk, ReadingsOk;
    var t := Apply(c, s, a);
    forall f: FacilitatorId | UnresolvedAt(t.tables, f)
      ensures UnresolvedAt(s.tables, f)
    {
      var j :| j in t.tables.attempts && Unresolved(t.tables, j) && t.tables.attempts[j].facilitator == f;
      assert Unresolved(s.tables, j);
    }
    forall k | k in t.execs && Fenced(t.execs[k].pc) && Owns(t.tables.attempts, k) && t.clock <= t.execs[k].fenceUntil
      ensures HoldsFence(t.tables, k, t.execs[k])
    {
      assert HoldsFence(s.tables, k, s.execs[k]);
      assert ExecOk(s.tables.attempts, k, s.execs[k]);
    }
  }

  lemma {:induction false} TimelyRunsStayExclusive(c: Config, run: seq<Step>)
    requires IsRun(c, run) && c.lateness.Some? && c.lateness.value <= 0
    ensures FencingOk(After(c, run))
  {
    if run != [] {
      var s, a := After(c, run[..|run| - 1]), run[|run| - 1];
      TimelyRunsStayExclusive(c, run[..|run| - 1]);
      RunsKeepInv(c, run[..|run| - 1]);
      hide Apply, Inv, FencingOk;
      if OfExecution(a) {
        FencingAfterExecution(c, s, a);
      } else {
        OutsideKeepsFencing(c, s, a);
      }
    }
  }

  lemma FencingAfterExecution(c: Config, s: State, a: Step)
    requires Inv(s) && FencingOk(s) && OfExecution(a) && Enabled(c, s, a)
    requires c.lateness.Some? && c.lateness.value <= 0
    ensures FencingOk(Apply(c, s, a))
  {
    hide Apply, Inv, FencesOk, Exclusive, Owns;
    ExecutionKeepsFences(c, s, a);
    ExecutionKeepsExclusion(c, s, a);
    StepTouchesOnlyItself(c, s, a);
  }

  // ------------------------------------------------------------- tightness

  ghost predicate Reachable(c: Config, s: State) {
    exists run :: IsRun(c, run) && After(c, run) == s
  }

  lemma Onward(c: Config, s: State, a: Step)
    requires Reachable(c, s) && Enabled(c, s, a)
    ensures Reachable(c, Apply(c, s, a))
  {
    hide Apply, Enabled;
    var run :| IsRun(c, run) && After(c, run) == s;
    assert (run + [a])[..|run|] == run;
    assert IsRun(c, run + [a]);
  }

  /** The state in which k has claimed, fenced and signed, and is about to mark "submitting". */
  function Prepared(c: Config, s: State, k: Key, f: FacilitatorId): State {
    s.(tables := s.tables.(attempts := s.tables.attempts[k.i := Attempt(f, Signed, Some(k.w), Some(s.clock + c.lease))],
                           fences := s.tables.fences[f := Fence(k.i, k.w, s.clock + c.lease)]),
       execs := s.execs[k := Exec(f, s.clock, s.clock + c.lease, MarkingSubmitting)])
  }

  lemma PreparingIsPossible(c: Config, s: State, k: Key, f: FacilitatorId)
    requires Reachable(c, s) && k !in s.execs && k.i !in s.tables.attempts
    requires forall i :: i in s.tables.attempts ==> !Unresolved(s.tables, i)
    requires f in s.tables.fences ==> s.tables.fences[f].expiresAt < s.clock
    ensures Reachable(c, Prepared(c, s, k, f))
  {
    hide Reachable, UnresolvedAt, Unresolved;
    var e := Exec(f, s.clock, s.clock, Claiming);
    Onward(c, s, Begin(k, f));
    var s1 := Goto(s, k, e);
    Onward(c, s1, Claim(k));
    var s2 := Goto(s1.(tables := s.tables.(attempts :=
      s.tables.attempts[k.i := Attempt(f, Reserved, Some(k.w), Some(s.clock + c.lease))])), k, e.(pc := Claimed));
    assert Apply(c, s1, Claim(k)) == s2;
    Onward(c, s2, ReadFenceClock(k));
    var s3 := Goto(s2, k, e.(pc := Fencing(s.clock)));
    NothingUnresolved(s, s3, k, f, s3.tables.attempts[k.i]);
    FenceAndSign(c, s3, k);
    assert Prepared(c, s, k, f).tables.attempts == s3.tables.attempts[k.i := s3.tables.attempts[k.i].(status := Signed)];
    assert Prepared(c, s, k, f).execs
        == s3.execs[k := s3.execs[k].(pc := MarkingSubmitting, fenceUntil := s.clock + c.lease)];
  }

  lemma NothingUnresolved(s: State, t: State, k: Key, f: FacilitatorId, a: Attempt)
    requires forall i :: i in s.tables.attempts ==> !Unresolved(s.tables, i)
    requires t.tables.submissions == s.tables.submissions
    requires Early(a) && t.tables.attempts == s.tables.attempts[k.i := a]
    ensures !UnresolvedAt(t.tables, f)
  {
    assert forall i :: i in t.tables.attempts && i != k.i ==> i in s.tables.attempts && !Unresolved(s.tables, i);
  }

  lemma FenceAndSign(c: Config, s: State, k: Key)
    requires Reachable(c, s) && k in s.execs && s.execs[k].pc.Fencing? && Owns(s.tables.attempts, k)
    requires !UnresolvedAt(s.tables, s.execs[k].facilitator)
    requires s.execs[k].facilitator in s.tables.fences ==>
               s.tables.fences[s.execs[k].facilitator].expiresAt < s.execs[k].pc.fenceNow
    ensures var e := s.execs[k]; var until := e.pc.fenceNow + c.lease;
            Reachable(c, s.(
              tables := s.tables.(
                attempts := s.tables.attempts[k.i := s.tables.attempts[k.i].(status := Signed)],
                fences := s.tables.fences[e.facilitator := Fence(k.i, k.w, until)]),
              execs := s.execs[k := e.(pc := MarkingSubmitting, fenceUntil := until)]))
  {
    hide Reachable, UnresolvedAt, ClaimAttempt, ReleaseFence, DeferAttempt, DropFence;
    var e := s.execs[k];
    var until := e.pc.fenceNow + c.lease;
    Onward(c, s, TakeFence(k, true));
    var s1 := s.(tables := s.tables.(fences := s.tables.fences[e.facilitator := Fence(k.i, k.w, until)]),
                 execs := s.execs[k := e.(pc := Signing, fenceUntil := until)]);
    assert Apply(c, s, TakeFence(k, true)) == s1;
    Onward(c, s1, Sign(k));
    var s2 := s1.(execs := s.execs[k := e.(pc := MarkingSigned, fenceUntil := until)]);
    assert Apply(c, s1, Sign(k)).execs == s2.execs;
    Onward(c, s2, MarkSigned(k, true));
    assert Apply(c, s2, MarkSigned(k, true)).execs == s.execs[k := e.(pc := MarkingSubmitting, fenceUntil := until)];
  }

  /** If a worker may mark "submitting" even one tick after its fence lease ended, some run leaves
      two unresolved attempts with one facilitator. */
  lemma LatenessBreaksExclusion(lease: nat, lateness: int)
    requires lateness >= 1
    ensures exists run :: IsRun(Config(lease, Some(lateness)), run)
                          && !Exclusive(After(Config(lease, Some(lateness)), run).tables)
  {
    hide Reachable, IsRun, Exclusive, Prepared, UnresolvedAt;
    var c := Config(lease, Some(lateness));
    var f := FacilitatorId("f");
    var k1, k2 := Key(WorkerId("a"), IntentId("i")), Key(WorkerId("b"), IntentId("j"));
    assert k1.i.text[0] != k2.i.text[0];
    InitialIsReachable(c);
    PreparingIsPossible(c, INITIAL, k1, f);
    var s1 := Prepared(c, INITIAL, k1, f);
    PreparedMeans(c, INITIAL, k1, f);
    Onward(c, s1, Tick(lease + 1));
    var s2 := s1.(clock := lease + 1);
    PreparingIsPossible(c, s2, k2, f);
    var s3 := Prepared(c, s2, k2, f);
    PreparedMeans(c, s2, k2, f);
    Onward(c, s3, MarkSubmitting(k2, true));
    var s4 := Apply(c, s3, MarkSubmitting(k2, true));
    MarkMeans(c, s3, k2);
    Onward(c, s4, MarkSubmitting(k1, true));
    MarkMeans(c, s4, k1);
    ClashIsNotExclusive(Apply(c, s4, MarkSubmitting(k1, true)).tables, k1.i, k2.i);
    WitnessRun(c, Apply(c, s4, MarkSubmitting(k1, true)));
  }

  lemma InitialIsReachable(c: Config)
    ensures Reachable(c, INITIAL)
  {
    assert IsRun(c, []) && After(c, []) == INITIAL;
  }

  lemma PreparedMeans(c: Config, s: State, k: Key, f: FacilitatorId)
    ensures var t := Prepared(c, s, k, f);
            && t.clock == s.clock && t.tables.submissions == s.tables.submissions
            && t.execs == s.execs[k := Exec(f, s.clock, s.clock + c.lease, MarkingSubmitting)]
            && t.tables.attempts == s.tables.attempts[k.i := Attempt(f, Signed, Some(k.w), Some(s.clock + c.lease))]
            && t.tables.fences == s.tables.fences[f := Fence(k.i, k.w, s.clock + c.lease)]
  {
  }

  lemma MarkMeans(c: Config, s: State, k: Key)
    requires Enabled(c, s, MarkSubmitting(k, true)) && Owns(s.tables.attempts, k)
    ensures var t := Apply(c, s, MarkSubmitting(k, true));
            && t.clock == s.clock && t.tables.submissions == s.tables.submissions
            && t.execs == s.execs[k := s.execs[k].(pc := Executing)]
            && t.tables.attempts == s.tables.attempts[k.i := s.tables.attempts[k.i].(status := Submitting)]
  {
  }

  lemma ClashIsNotExclusive(t: Tables, i: IntentId, j: IntentId)
    requires i != j && Unresolved(t, i) && Unresolved(t, j) && t.attempts[i].facilitator == t.attempts[j].facilitator
    ensures !Exclusive(t)
  {
  }

  lemma WitnessRun(c: Config, s: State)
    requires Reachable(c, s) && !Exclusive(s.tables)
    ensures exists run :: IsRun(c, run) && !Exclusive(After(c, run).tables)
  {
  }

  /** Over all interleavings, "at most one unresolved attempt per facilitator" holds exactly when no
      worker marks "submitting" after the end of its fence lease: the code itself does not check the
      lease, and no positive allowance is small enough. */
  lemma ExclusionExactlyWhenTimely(lease: nat, lateness: int)
    ensures (forall run :: IsRun(Config(lease, Some(lateness)), run) ==>
                             Exclusive(After(Config(lease, Some(lateness)), run).tables))
            <==> lateness <= 0
  {
    var c := Config(lease, Some(lateness));
    hide Exclusive, IsRun, FencesOk;
    if lateness <= 0 {
      forall run | IsRun(c, run)
        ensures Exclusive(After(c, run).tables)
      {
        TimelyRunsStayExclusive(c, run);
      }
    } else {
      LatenessBreaksExclusion(lease, lateness);
    }
  }

  lemma BoundOnlyForbids(lease: int, bound: int, s: State, a: Step)
    requires Enabled(Config(lease, Some(bound)), s, a)
    ensures Enabled(Config(lease, None), s, a)
    ensures Apply(Config(lease, None), s, a) == Apply(Config(lease, Some(bound)), s, a)
  {
    hide ClaimAttempt, MarkAttempt, ClaimFence, ReleaseFence, DeferAttempt, RecordSubmission, DropFence, UnresolvedAt;
  }

  lemma {:induction false} BoundedRunsAreRuns(lease: int, bound: int, run: seq<Step>)
    requires IsRun(Config(lease, Some(bound)), run)
    ensures IsRun(Config(lease, None), run)
    ensures After(Config(lease, None), run) == After(Config(lease, Some(bound)), run)
    decreases |run|
  {
    hide Enabled, Apply;
    if run != [] {
      var n := |run| - 1;
      BoundedRunsAreRuns(lease, bound, run[..n]);
      BoundOnlyForbids(lease, bound, After(Config(lease, Some(bound)), run[..n]), run[n]);
    }
  }

  /** The statements as written never look at the lease when marking, so alone they do not exclude. */
  lemma AsWrittenExclusionCanFail(lease: nat)
    ensures exists run :: IsRun(Config(lease, None), run) && !Exclusive(After(Config(lease, None), run).tables)
  {
    hide IsRun, After, Exclusive;
    LatenessBreaksExclusion(lease, 1);
    var run :| IsRun(Config(lease, Some(1)), run) && !Exclusive(After(Config(lease, Some(1)), run).tables);
    BoundedRunsAreRuns(lease, 1, run);
  }
}
