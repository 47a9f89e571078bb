/** The rows shared by all settlement workers and the SQL statements that touch them
    (arena_payments/postgres_worker.py). Each statement is one atomic guarded update. */
module SettlementTables {
  import opened Wrappers

  datatype WorkerId = WorkerId(text: string)
  datatype IntentId = IntentId(text: string)
  datatype FacilitatorId = FacilitatorId(text: string)

  datatype AttemptStatus = Reserved | Signed | Submitting | Submitted | Failed | Unknown

  datatype Attempt = Attempt(
    facilitator: FacilitatorId, status: AttemptStatus, owner: Option<WorkerId>, leaseExpiresAt: Option<int>)

  datatype Fence = Fence(intent: IntentId, owner: WorkerId, expiresAt: int)

  datatype Tables = Tables(
    attempts: map<IntentId, Attempt>, fences: map<FacilitatorId, Fence>, submissions: set<IntentId>)

  /** Nothing external can have happened yet. */
  predicate Early(a: Attempt) {
    a.status == Reserved || a.status == Signed
  }

  /** A lease that a claim at time now may take over; a NULL lease never compares as expired. */
  predicate LeaseExpired(a: Attempt, now: int) {
    a.leaseExpiresAt.Some? && a.leaseExpiresAt.value < now
  }

  /** Something external may have happened, and no transaction is on record. */
  predicate Unresolved(t: Tables, i: IntentId) {
    && i in t.attempts && (t.attempts[i].status == Submitting || t.attempts[i].status == Unknown)
    && i !in t.submissions
  }

  predicate UnresolvedAt(t: Tables, f: FacilitatorId) {
    exists i :: i in t.attempts && Unresolved(t, i) && t.attempts[i].facilitator == f
  }

  /** Insert the attempt, or take over one whose lease ran out before anything was submitted. */
  function ClaimAttempt(t: Tables, i: IntentId, f: FacilitatorId, w: WorkerId, now: int, lease: int): (Tables, bool) {
    if i !in t.attempts then
      (t.(attempts := t.attempts[i := Attempt(f, Reserved, Some(w), Some(now + lease))]), true)
    else
      var a := t.attempts[i];
      if Early(a) && LeaseExpired(a, now) && a.facilitator == f then
        (t.(attempts := t.attempts[i := a.(owner := Some(w), leaseExpiresAt := Some(now + lease))]), true)
      else (t, false)
  }

  /** A terminal status gives up the lease. */
  function Marked(a: Attempt, status: AttemptStatus): Attempt {
    if status == Submitted || status == Failed || status == Unknown
    then a.(status := status, owner := None, leaseExpiresAt := None)
    else a.(status := status)
  }

  /** Guarded by the lease owner alone: neither the status nor the expiry is looked at. */
  function MarkAttempt(t: Tables, i: IntentId, status: AttemptStatus, w: WorkerId): (Tables, bool) {
    if i in t.attempts && t.attempts[i].owner == Some(w)
    then (t.(attempts := t.attempts[i := Marked(t.attempts[i], status)]), true)
    else (t, false)
  }

  /** One fence per facilitator, granted only while no attempt of that facilitator is unresolved. */
  function ClaimFence(t: Tables, f: FacilitatorId, i: IntentId, w: WorkerId, now: int, lease: int): (Tables, bool) {
    if !UnresolvedAt(t, f) && (f !in t.fences || t.fences[f].expiresAt < now)
    then (t.(fences := t.fences[f := Fence(i, w, now + lease)]), true)
    else (t, false)
  }

  function ReleaseFence(t: Tables, f: FacilitatorId, i: IntentId, w: WorkerId): (Tables, bool) {
    if f in t.fences && t.fences[f].intent == i && t.fences[f].owner == w
    then (t.(fences := t.fences - {f}), true)
    else (t, false)
  }

  function DeferAttempt(t: Tables, i: IntentId, w: WorkerId, retryAt: int): (Tables, bool) {
    if i in t.attempts && t.attempts[i].owner == Some(w) && Early(t.attempts[i])
    then (t.(attempts := t.attempts[i := t.attempts[i].(leaseExpiresAt := Some(retryAt))]), true)
    else (t, false)
  }

  function RecordSubmission(t: Tables, i: IntentId): Tables {
    t.(submissions := t.submissions + {i})
  }

  /** Recovery deletes the fence of a recovered intent, whoever owns it. */
  function DropFence(t: Tables, f: FacilitatorId, i: IntentId): Tables {
    if f in t.fences && t.fences[f].intent == i then t.(fences := t.fences - {f}) else t
  }

  // ------------------------------------------------- the statements, in columns

  /** A claim succeeds on no row, or on an early row of the facilitator whose lease ended before now. */
  lemma ClaimInColumns(t: Tables, i: IntentId, f: FacilitatorId, w: WorkerId, now: int, lease: int)
    ensures var (u, ok) := ClaimAttempt(t, i, f, w, now, lease);
            && (ok <==> i !in t.attempts
                        || ((t.attempts[i].status == Reserved || t.attempts[i].status == Signed) && t.attempts[i].facilitator == f
                            && t.attempts[i].leaseExpiresAt.Some? && t.attempts[i].leaseExpiresAt.value < now))
            && u == (if ok then t.(attempts := t.attempts[i := Attempt(f, if i in t.attempts then t.attempts[i].status else Reserved,
                                                                      Some(w), Some(now + lease))]) else t)
  {
  }

  /** A mark needs the owner; final statuses give up owner and lease. */
  lemma MarkInColumns(t: Tables, i: IntentId, status: AttemptStatus, w: WorkerId)
    ensures var (u, ok) := MarkAttempt(t, i, status, w); var final := status in {Submitted, Failed, Unknown};
            && (ok <==> i in t.attempts && t.attempts[i].owner == Some(w))
            && u == (if ok then t.(attempts := t.attempts[i := Attempt(t.attempts[i].facilitator, status,
                       if final then None else Some(w), if final then None else t.attempts[i].leaseExpiresAt)]) else t)
  {
  }

  /** A fence is granted when nothing of the facilitator is open without a recorded transaction, and no lease runs. */
  lemma FenceInColumns(t: Tables, f: FacilitatorId, i: IntentId, w: WorkerId, now: int, lease: int)
    ensures var (u, ok) := ClaimFence(t, f, i, w, now, lease);
            && (ok <==>
                  && (forall j | j in t.attempts && t.attempts[j].facilitator == f && j !in t.submissions ::
                        t.attempts[j].status != Submitting && t.attempts[j].status != Unknown)
                  && (f in t.fences ==> t.fences[f].expiresAt < now))
            && u == (if ok then t.(fences := t.fences[f := Fence(i, w, now + lease)]) else t)
  {
  }

  /** Giving up a fence needs intent and owner; a recovery needs the intent alone. */
  lemma DropsInColumns(t: Tables, f: FacilitatorId, i: IntentId, w: WorkerId)
    ensures var (u, ok) := ReleaseFence(t, f, i, w);
            && (ok <==> f in t.fences && t.fences[f].intent == i && t.fences[f].owner == w)
            && u == (if ok then t.(fences := t.fences - {f}) else t)
    ensures DropFence(t, f, i) == if f in t.fences && t.fences[f].intent == i then t.(fences := t.fences - {f}) else t
    ensures RecordSubmission(t, i) == t.(submissions := t.submissions + {i})
  {
  }

  /** A deferral needs the owner of an early row and moves its lease only. */
  lemma DeferInColumns(t: Tables, i: IntentId, w: WorkerId, retryAt: int)
    ensures var (u, ok) := DeferAttempt(t, i, w, retryAt);
            && (ok <==> i in t.attempts && t.attempts[i].owner == Some(w)
                        && (t.attempts[i].status == Reserved || t.attempts[i].status == Signed))
            && u == (if ok then t.(attempts := t.attempts[i := Attempt(t.attempts[i].facilitator, t.attempts[i].status, Some(w),
                                                                      Some(retryAt))]) else t)
  {
  }

  /** The tables with the statements as in-place updates. */
  class SettlementSource {
    var attempts: map<IntentId, Attempt>
    var fences: map<FacilitatorId, Fence>
    var submissions: set<IntentId>
    const leaseSeconds: int

    function View(): Tables
      reads this
    {
      Tables(attempts, fences, submissions)
    }

    constructor (seconds: int)
      requires 15 <= seconds <= 600
      ensures leaseSeconds == seconds && View() == Tables(map[], map[], {})
    {
      attempts, fences, submissions, leaseSeconds := map[], map[], {}, seconds;
    }

    method Claim(i: IntentId, f: FacilitatorId, w: WorkerId, now: int) returns (claimed: bool)
      modifies this
      ensures (View(), claimed) == ClaimAttempt(old(View()), i, f, w, now, leaseSeconds)
    {
      var expires := now + leaseSeconds;
      if i !in attempts {
        attempts := attempts[i := Attempt(f, Reserved, Some(w), Some(expires))];
        return true;
      }
      var row := attempts[i];
      claimed := (row.status == Reserved || row.status == Signed)
                 && row.leaseExpiresAt.Some? && row.leaseExpiresAt.value < now && row.facilitator == f;
      if claimed {
        attempts := attempts[i := row.(owner := Some(w), leaseExpiresAt := Some(expires))];
      }
    }

    /** False stands for the "automatic_payment_lease_lost" error. */
    method Mark(i: IntentId, status: AttemptStatus, w: WorkerId) returns (updated: bool)
      requires status != Reserved
      modifies this
      ensures (View(), updated) == MarkAttempt(old(View()), i, status, w)
    {
      var terminal := status == Submitted || status == Failed || status == Unknown;
      updated := i in attempts && attempts[i].owner == Some(w);
      if updated {
        var row := attempts[i];
        attempts := attempts[i := Attempt(row.facilitator, status, if terminal then None else row.owner,
                                          if terminal then None else row.leaseExpiresAt)];
      }
    }

    method TakeFence(f: FacilitatorId, i: IntentId, w: WorkerId, now: int) returns (granted: bool)
      modifies this
      ensures (View(), granted) == ClaimFence(old(View()), f, i, w, now, leaseSeconds)
    {
      granted := !UnresolvedAt(View(), f) && (f in fences ==> fences[f].expiresAt < now);
      if granted {
        fences := fences[f := Fence(i, w, now + leaseSeconds)];
      }
    }

    /** False stands for the "facilitator_broadcast_fence_lost" error. */
    method DeleteFence(f: FacilitatorId, i: IntentId, w: WorkerId) returns (deleted: bool)
      modifies this
      ensures (View(), deleted) == ReleaseFence(old(View()), f, i, w)
    {
      deleted := f in fences && fences[f].intent == i && fences[f].owner == w;
      if deleted { fences := fences - {f}; }
    }

    method Defer(i: IntentId, w: WorkerId, retryAt: int) returns (updated: bool)
      modifies this
      ensures (View(), updated) == DeferAttempt(old(View()), i, w, retryAt)
    {
      updated := i in attempts && attempts[i].owner == Some(w)
                 && (attempts[i].status == Reserved || attempts[i].status == Signed);
      if updated {
        attempts := attempts[i := attempts[i].(leaseExpiresAt := Some(retryAt))];
      }
    }

    /** The writes of a recovery whose transaction was found and stored. */
    method RecordRecovered(i: IntentId, f: FacilitatorId)
      modifies this
      ensures View() == DropFence(RecordSubmission(old(View()), i), f, i)
    {
      submissions := submissions + {i};
      if f in fences && fences[f].intent == i { fences := fences - {f}; }
    }
  }
}
