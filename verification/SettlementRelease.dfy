/** Attempt rows and reservations together: can a reserved amount be given back by a cleanup while the
    settlement it pays for is under way? */
module SettlementRelease {
  import opened Wrappers
  import opened SettlementTables
  import opened SettlementProtocol
  import opened SettlementSafety

  /** What became of an intent's reservation; one that is not recorded here is still reserved. Freed is
      the release of the worker's own pre-submission cleanup, GivenBack that of the coordinator. */
  datatype Hold = Stored | Freed | GivenBack

  /** cleared: executions whose coordinator found the amount reserved. cleaned: executions whose cleanup
      has released it, or found it released by a cleanup before. */
  datatype World = World(base: State, holds: map<IntentId, Hold>, cleared: set<Key>, cleaned: set<Key>)

  /** ownersOnly: the cleanup releases only while its execution still owns the attempt. The code as
      written does not ask. */
  datatype Rules = Rules(config: Config, ownersOnly: bool)

  datatype Move = Plain(a: Step) | ReadHold(k: Key) | Free(k: Key)

  const START: World := World(INITIAL, map[], {}, {})

  predicate Untaken(w: World, i: IntentId) {
    i !in w.holds
  }

  predicate IsHold(w: World, i: IntentId, h: Hold) {
    i in w.holds && w.holds[i] == h
  }

  /** What the ledger asks of a step of the settlement protocol. */
  predicate LedgerAllows(w: World, a: Step) {
    match a
    case Settle(k) => k in w.cleared
    case ReturnEarly(k, r) =>
      if k in w.cleared then r == Failed && Untaken(w, k.i)
      else k.i in w.holds && (r == Submitted <==> w.holds[k.i] == Stored)
    case SettleAnswers(k, answer) => answer == Declined ==> Untaken(w, k.i)
    case Store(k, ok) => ok ==> Untaken(w, k.i) || IsHold(w, k.i, Stored)
    case RecoverRecord(r) => Untaken(w, r.i) || IsHold(w, r.i, Stored)
    case CleanMark(k) => k in w.cleaned
    case _ => true
  }

  /** What a step does to the reservation. */
  function HoldsAfter(w: World, a: Step): map<IntentId, Hold> {
    match a
    case ReturnEarly(k, _) => if k in w.cleared then w.holds[k.i := GivenBack] else w.holds
    case Raise(k) => if k in w.cleared && Untaken(w, k.i) then w.holds[k.i := GivenBack] else w.holds
    case SettleAnswers(k, answer) => if answer == Declined then w.holds[k.i := GivenBack] else w.holds
    case Store(k, ok) => if ok then w.holds[k.i := Stored] else w.holds
    case RecoverRecord(r) => w.holds[r.i := Stored]
    case _ => w.holds
  }

  /** Executions that have gone on or ended no longer rely on what they read. */
  function Keep(s: State, ks: set<Key>, executing: bool): set<Key> {
    set k | k in ks && k in s.execs && (if executing then s.execs[k].pc.Executing? else s.execs[k].pc.CleaningMark?)
  }

  predicate Allowed(r: Rules, w: World, m: Move) {
    match m
    case Plain(a) => Enabled(r.config, w.base, a) && LedgerAllows(w, a)
    case ReadHold(k) => k in w.base.execs && w.base.execs[k].pc.Executing? && Untaken(w, k.i)
    case Free(k) =>
      && k in w.base.execs && w.base.execs[k].pc.CleaningMark? && (Untaken(w, k.i) || IsHold(w, k.i, Freed))
      && (r.ownersOnly ==> Owns(w.base.tables.attempts, k))
  }

  function Next(r: Rules, w: World, m: Move): World
    requires Allowed(r, w, m)
  {
    match m
    case Plain(a) =>
      var t := Apply(r.config, w.base, a);
      World(t, HoldsAfter(w, a), Keep(t, w.cleared, true), Keep(t, w.cleaned, false))
    case ReadHold(k) => w.(cleared := w.cleared + {k})
    case Free(k) => w.(holds := w.holds[k.i := Freed], cleaned := w.cleaned + {k})
  }

  ghost predicate IsRun(r: Rules, run: seq<Move>)
    decreases |run|, 0
  {
    run == [] || (IsRun(r, run[..|run| - 1]) && Allowed(r, After(r, run[..|run| - 1]), run[|run| - 1]))
  }

  ghost function After(r: Rules, run: seq<Move>): World
    requires IsRun(r, run)
    decreases |run|, 1
  {
    if run == [] then START else Next(r, After(r, run[..|run| - 1]), run[|run| - 1])
  }

  /** No cleanup has given back an amount for which a settle was started. */
  ghost predicate Safe(w: World) {
    forall i | IsHold(w, i, Freed) :: w.base.settles[i] == 0
  }

  // -------------------------------------------------------------- invariant

  predicate Cleaning(pc: Pc) {
    pc.CleaningFence? || pc.CleaningMark?
  }

  /** A cleaning execution that still owns its attempt never started a settle. */
  ghost predicate CleanersOk(s: State) {
    forall k | k in s.execs && Cleaning(s.execs[k].pc) && Owns(s.tables.attempts, k) :: s.settles[k.i] == 0
  }

  /** Nobody about to settle relies on an amount a cleanup gave back. */
  ghost predicate FreedOk(w: World) {
    && Safe(w)
    && (forall k | k in w.cleared :: k in w.base.execs && w.base.execs[k].pc.Executing? && !IsHold(w, k.i, Freed))
  }

  ghost predicate WorldInv(w: World) {
    Inv(w.base) && CleanersOk(w.base) && FreedOk(w)
  }

  lemma OwnersAreOne(s: State, j: Key, k: Key)
    requires Inv(s) && j in s.execs && Beyond(s.execs[j].pc) && Owns(s.tables.attempts, k) && j.i == k.i
    ensures j == k
  {
    hide CountsOk, RecoveriesOk, ReadingsOk;
    assert ExecOk(s.tables.attempts, j, s.execs[j]);
  }

  /** An early attempt has no settle behind it. */
  lemma EarlyHasNoSettle(s: State, i: IntentId)
    requires Inv(s) && i in s.tables.attempts && Early(s.tables.attempts[i])
    ensures s.settles[i] == 0
  {
    hide ExecsOk, RecoveriesOk, ReadingsOk;
    assert i !in s.marks;
  }

  /** Where a cleaning execution came from: still before the mark, or from the mark itself. */
  lemma EntersCleaning(c: Config, s: State, a: Step)
    requires OfExecution(a) && Enabled(c, s, a) && a.k in s.execs && a.k in Apply(c, s, a).execs
    requires Cleaning(Apply(c, s, a).execs[a.k].pc)
    ensures Before(s.execs[a.k].pc) || s.execs[a.k].pc.CleaningFence?
    ensures Apply(c, s, a).settles == s.settles
    ensures Owns(Apply(c, s, a).tables.attempts, a.k) ==> Owns(s.tables.attempts, a.k)
  {
    hide UnresolvedAt;
  }

  /** Only the execution at the brink of a settle starts one. */
  lemma SettlesGrowByTheirOwn(c: Config, s: State, a: Step)
    requires Inv(s) && OfExecution(a) && Enabled(c, s, a)
    ensures a.k in s.execs
    ensures Apply(c, s, a).settles == s.settles
            || (a.Settle? && Apply(c, s, a).settles == s.settles + multiset{a.k.i} && s.execs[a.k].pc.Executing?)
  {
    hide ClaimAttempt, MarkAttempt, ClaimFence, ReleaseFence, DeferAttempt, RecordSubmission, DropFence, UnresolvedAt, Inv;
    EnabledMeansRunning(c, s, a);
  }

  lemma ExecutionKeepsCleaners(c: Config, s: State, a: Step)
    requires Inv(s) && CleanersOk(s) && OfExecution(a) && Enabled(c, s, a)
    ensures CleanersOk(Apply(c, s, a))
  {
    hide Apply, Enabled, RowStep, Inv, Owns, Early;
    EnabledMeansRunning(c, s, a);
    var t := Apply(c, s, a);
    OwnExecOk(s, a.k);
    StepTouchesOnlyItself(c, s, a);
    StepChangesOwnRow(c, s, a);
    SettlesGrowByTheirOwn(c, s, a);
    forall k | k in t.execs && Cleaning(t.execs[k].pc) && Owns(t.tables.attempts, k) ensures t.settles[k.i] == 0 {
      if k == a.k {
        EntersCleaning(c, s, a);
        OwnCleaner(s, k);
      } else {
        OwnershipIsOld(a.k, s.tables.attempts, t.tables.attempts, k);
        if a.Settle? && a.k.i == k.i && s.execs[a.k].pc.Executing? { OwnersAreOne(s, a.k, k); }
      }
    }
  }

  lemma OwnExecOk(s: State, k: Key)
    requires Inv(s) && k in s.execs
    ensures ExecOk(s.tables.attempts, k, s.execs[k])
  {
    hide CountsOk, RecoveriesOk, ReadingsOk, ExecOk;
  }

  lemma OwnCleaner(s: State, k: Key)
    requires Inv(s) && CleanersOk(s) && k in s.execs && Owns(s.tables.attempts, k)
    requires Before(s.execs[k].pc) || s.execs[k].pc.CleaningFence?
    ensures s.settles[k.i] == 0
  {
    hide Inv;
    OwnExecOk(s, k);
    if Before(s.execs[k].pc) {
      EarlyHasNoSettle(s, k.i);
    }
  }

  lemma OutsideKeepsCleaners(c: Config, s: State, a: Step)
    requires CleanersOk(s) && !OfExecution(a) && Enabled(c, s, a)
    ensures CleanersOk(Apply(c, s, a)) && Apply(c, s, a).settles == s.settles
  {
    hide UnresolvedAt, Owns;
  }

  /** A step of the protocol frees nothing and starts a settle only for a cleared execution. */
  lemma PlainKeepsFreed(r: Rules, w: World, a: Step)
    requires WorldInv(w) && Allowed(r, w, Plain(a))
    ensures FreedOk(Next(r, w, Plain(a)))
  {
    hide Inv, CleanersOk, Apply, Enabled, OfExecution;
    var t := Next(r, w, Plain(a));
    assert forall i :: IsHold(t, i, Freed) ==> IsHold(w, i, Freed);
    if OfExecution(a) {
      SettlesGrowByTheirOwn(r.config, w.base, a);
    } else {
      OutsideKeepsSettles(r.config, w.base, a);
    }
  }

  lemma OutsideKeepsSettles(c: Config, s: State, a: Step)
    requires !OfExecution(a) && Enabled(c, s, a)
    ensures Apply(c, s, a).settles == s.settles
  {
    hide UnresolvedAt;
  }

  lemma FreeKeepsFreed(r: Rules, w: World, k: Key)
    requires r.ownersOnly && WorldInv(w) && Allowed(r, w, Free(k))
    ensures FreedOk(Next(r, w, Free(k)))
  {
    hide Inv, Enabled;
    forall j | j in w.cleared && j.i == k.i ensures false {
      OwnersAreOne(w.base, j, k);
    }
  }

  lemma NextKeepsInv(r: Rules, w: World, m: Move)
    requires r.ownersOnly && WorldInv(w) && Allowed(r, w, m)
    ensures WorldInv(Next(r, w, m))
  {
    hide Inv, CleanersOk, FreedOk, Apply, Enabled, LedgerAllows, HoldsAfter;
    match m
    case Plain(a) =>
      StepKeepsInv(r.config, w.base, a);
      PlainKeepsFreed(r, w, a);
      if OfExecution(a) { ExecutionKeepsCleaners(r.config, w.base, a); } else { OutsideKeepsCleaners(r.config, w.base, a); }
    case ReadHold(k) => ReadKeepsFreed(r, w, k);
    case Free(k) => FreeKeepsFreed(r, w, k);
  }

  lemma ReadKeepsFreed(r: Rules, w: World, k: Key)
    requires WorldInv(w) && Allowed(r, w, ReadHold(k))
    ensures FreedOk(Next(r, w, ReadHold(k)))
  {
    hide Inv, CleanersOk, Enabled;
  }

  lemma StartIsOk(c: Config)
    ensures WorldInv(START)
  {
    hide Inv;
    assert SettlementProtocol.IsRun(c, []);
    RunsKeepInv(c, []);
  }

  /** If only owners clean up, no run gives back an amount for which a settle was started. */
  lemma {:induction false} OwnersCleanUpSafely(r: Rules, run: seq<Move>)
    requires r.ownersOnly && IsRun(r, run)
    ensures WorldInv(After(r, run))
  {
    hide WorldInv, Allowed, Next;
    if run == [] {
      StartIsOk(r.config);
    } else {
      OwnersCleanUpSafely(r, run[..|run| - 1]);
      NextKeepsInv(r, After(r, run[..|run| - 1]), run[|run| - 1]);
    }
  }

  // -------------------------------------------------------------- tightness

  ghost predicate Reachable(r: Rules, w: World) {
    exists run :: IsRun(r, run) && After(r, run) == w
  }

  lemma Onward(r: Rules, w: World, m: Move)
    requires Reachable(r, w) && Allowed(r, w, m)
    ensures Reachable(r, Next(r, w, m))
  {
    hide Next, Allowed;
    var run :| IsRun(r, run) && After(r, run) == w;
    assert (run + [m])[..|run|] == run;
    assert IsRun(r, run + [m]);
  }

  const F: FacilitatorId := FacilitatorId("f")
  const SLOW: Key := Key(WorkerId("a"), IntentId("i"))
  const QUICK: Key := Key(WorkerId("b"), IntentId("i"))

  lemma TwoWorkers()
    ensures SLOW != QUICK && SLOW.i == QUICK.i && SLOW.w != QUICK.w
  {
    assert SLOW.w.text[0] != QUICK.w.text[0];
  }

  /** A world in which nothing was read or cleaned yet. */
  function Quiet(s: State): World {
    World(s, map[], {}, {})
  }

  lemma QuietStep(r: Rules, s: State, a: Step)
    requires Reachable(r, Quiet(s)) && Enabled(r.config, s, a)
    requires a.Tick? || a.Begin? || a.Claim? || a.ReadFenceClock? || a.TakeFence? || a.Sign? || a.MarkSigned? || a.MarkSubmitting?
    ensures Reachable(r, Quiet(Apply(r.config, s, a)))
  {
    hide Reachable, Apply, Enabled;
    Onward(r, Quiet(s), Plain(a));
    assert Keep(Apply(r.config, s, a), {}, true) == {} && Keep(Apply(r.config, s, a), {}, false) == {};
  }

  /** The rules of the witness: any lease, and markings at least as free as the timely ones. */
  ghost predicate Ordinary(r: Rules) {
    r.config.lease >= 0 && (r.config.lateness.None? || r.config.lateness.value >= 0)
  }

  /** The attempt of a slow worker, whose lease has run out. */
  function Overdue(lease: int): State {
    State(lease + 1, Tables(map[SLOW.i := Attempt(F, Reserved, Some(SLOW.w), Some(lease))], map[], {}),
          map[SLOW := Exec(F, 0, 0, Claimed)], {}, multiset{}, multiset{})
  }

  lemma SlowClaims(r: Rules)
    requires Ordinary(r)
    ensures Reachable(r, Quiet(Overdue(r.config.lease)))
  {
    hide Reachable, UnresolvedAt;
    assert Reachable(r, START) by { StartIsReachable(r); }
    var c := r.config;
    QuietStep(r, INITIAL, Begin(SLOW, F));
    var s1 := Apply(c, INITIAL, Begin(SLOW, F));
    QuietStep(r, s1, Claim(SLOW));
    var s2 := Apply(c, s1, Claim(SLOW));
    QuietStep(r, s2, Tick(c.lease + 1));
    assert Apply(c, s2, Tick(c.lease + 1)) == Overdue(c.lease);
  }

  lemma StartIsReachable(r: Rules)
    ensures Reachable(r, START)
  {
    assert IsRun(r, []) && After(r, []) == START;
  }

  /** Another worker has taken the attempt over and stands before its mark. */
  function TakenOver(lease: int): State {
    var until := lease + 1 + lease;
    State(lease + 1, Tables(map[SLOW.i := Attempt(F, Signed, Some(QUICK.w), Some(until))], map[F := Fence(SLOW.i, QUICK.w, until)], {}),
          map[SLOW := Exec(F, 0, 0, Claimed), QUICK := Exec(F, lease + 1, until, MarkingSubmitting)], {}, multiset{}, multiset{})
  }

  /** The other worker has claimed the overdue attempt. */
  function Reclaimed(lease: int): State {
    State(lease + 1, Tables(map[SLOW.i := Attempt(F, Reserved, Some(QUICK.w), Some(lease + 1 + lease))], map[], {}),
          map[SLOW := Exec(F, 0, 0, Claimed), QUICK := Exec(F, lease + 1, lease + 1, Claimed)], {}, multiset{}, multiset{})
  }

  lemma QuickReclaims(r: Rules)
    requires Ordinary(r)
    ensures Reachable(r, Quiet(Reclaimed(r.config.lease)))
  {
    hide Reachable, UnresolvedAt;
    TwoWorkers();
    SlowClaims(r);
    var c := r.config;
    var s0 := Overdue(c.lease);
    QuietStep(r, s0, Begin(QUICK, F));
    var s1 := Apply(c, s0, Begin(QUICK, F));
    QuietStep(r, s1, Claim(QUICK));
    assert Apply(c, s1, Claim(QUICK)) == Reclaimed(c.lease);
  }

  /** The other worker has the fence as well. */
  function FenceTaken(lease: int): State {
    var until := lease + 1 + lease;
    State(lease + 1, Tables(map[SLOW.i := Attempt(F, Reserved, Some(QUICK.w), Some(until))], map[F := Fence(SLOW.i, QUICK.w, until)], {}),
          map[SLOW := Exec(F, 0, 0, Claimed), QUICK := Exec(F, lease + 1, until, Signing)], {}, multiset{}, multiset{})
  }

  lemma QuickFences(r: Rules)
    requires Ordinary(r)
    ensures Reachable(r, Quiet(FenceTaken(r.config.lease)))
  {
    hide Reachable;
    TwoWorkers();
    QuickReclaims(r);
    var c := r.config;
    var s0 := Reclaimed(c.lease);
    QuietStep(r, s0, ReadFenceClock(QUICK));
    var s1 := Apply(c, s0, ReadFenceClock(QUICK));
    QuietStep(r, s1, TakeFence(QUICK, true));
    assert Apply(c, s1, TakeFence(QUICK, true)) == FenceTaken(c.lease);
  }

  lemma QuickTakesOver(r: Rules)
    requires Ordinary(r)
    ensures Reachable(r, Quiet(TakenOver(r.config.lease)))
  {
    hide Reachable, UnresolvedAt, ClaimAttempt, ClaimFence, ReleaseFence, DeferAttempt, DropFence;
    TwoWorkers();
    QuickFences(r);
    var c := r.config;
    var s0 := FenceTaken(c.lease);
    QuietStep(r, s0, Sign(QUICK));
    var s1 := Apply(c, s0, Sign(QUICK));
    QuietStep(r, s1, MarkSigned(QUICK, true));
    assert Apply(c, s1, MarkSigned(QUICK, true)) == TakenOver(c.lease);
  }

  /**
   * As written, a worker that lost its attempt while it was slow still cleans up: it gives back the amount
   * although its successor has marked the attempt "submitting" in time and started the settle.
   */
  lemma UnownedCleanupFrees(r: Rules)
    requires Ordinary(r) && !r.ownersOnly
    ensures exists run :: IsRun(r, run) && !Safe(After(r, run))
                          && SLOW.i in After(r, run).base.tables.attempts
                          && After(r, run).base.tables.attempts[SLOW.i].status == Submitting
  {
    hide Reachable, UnresolvedAt, ClaimAttempt, ClaimFence, ReleaseFence;
    TwoWorkers();
    QuickTakesOver(r);
    var c := r.config;
    var s0 := TakenOver(c.lease);
    QuietStep(r, s0, MarkSubmitting(QUICK, true));
    var s1 := Apply(c, s0, MarkSubmitting(QUICK, true));
    var w1 := Quiet(s1);
    Onward(r, w1, ReadHold(QUICK));
    var w2 := Next(r, w1, ReadHold(QUICK));
    Onward(r, w2, Plain(Settle(QUICK)));
    var w3 := Next(r, w2, Plain(Settle(QUICK)));
    Onward(r, w3, Plain(Raise(SLOW)));
    var w4 := Next(r, w3, Plain(Raise(SLOW)));
    Onward(r, w4, Free(SLOW));
    var w5 := Next(r, w4, Free(SLOW));
    assert IsHold(w5, SLOW.i, Freed) && w5.base.settles[SLOW.i] == 1;
    FromReachable(r, w5);
  }

  lemma FromReachable(r: Rules, w: World)
    requires Reachable(r, w)
    ensures exists run :: IsRun(r, run) && After(r, run) == w
  {
  }

  /** No run gives back an amount under settlement exactly when only owners of an attempt clean up. */
  lemma CleanupIsSafeExactlyWhenOwned(r: Rules)
    requires Ordinary(r)
    ensures (forall run :: IsRun(r, run) ==> Safe(After(r, run))) <==> r.ownersOnly
  {
    hide IsRun, Safe;
    if r.ownersOnly {
      forall run | IsRun(r, run) ensures Safe(After(r, run)) {
        OwnersCleanUpSafely(r, run);
      }
    } else {
      UnownedCleanupFrees(r);
    }
  }

  // ---------------------------------------------------------------- for good

  lemma FreedCannotBeRecovered(r: Rules, w: World, m: Move, i: IntentId)
    requires Allowed(r, w, m) && IsHold(w, i, Freed)
    ensures IsHold(Next(r, w, m), i, Freed)
    ensures m.Plain? && m.a.RecoverRecord? ==> m.a.r.i != i
  {
    hide Apply, Enabled;
  }
}
