/** Whole runs of the task store: what holds in every reachable state and what never changes again. */
module TaskRuns {
  import opened Wrappers
  import opened CandidateValidation
  import opened TaskStore
  import opened TaskInvariant

  datatype Call =
    | Create(task: ArenaTask, config: string, configHash: string, at: int)
    | Submit(result: ResultV1, at: int)
    | Finalize(taskId: TaskId, at: int)
    | Apply(resultId: ResultId, at: int)

  function Step(s: Store, c: Call): Store
    requires Indexed(s)
  {
    match c
    case Create(task, config, configHash, at) => CreateTask(s, task, config, configHash, at).state
    case Submit(result, at) => SubmitResult(s, result, at).state
    case Finalize(t, at) => FinalizeOne(s, t, at)
    case Apply(id, at) => ApplyResult(s, id, at).state
  }

  lemma StepKeepsInv(s: Store, c: Call)
    requires Inv(s)
    ensures Indexed(s) && Inv(Step(s, c))
  {
    hide Inv, Indexed, CreateTask, SubmitResult, FinalizeOne, ApplyResult;
    InvIndexed(s);
    match c
    case Create(task, config, configHash, at) => CreateKeepsInv(s, task, config, configHash, at);
    case Submit(result, at) => SubmitKeepsInv(s, result, at);
    case Finalize(t, at) => FinalizeKeepsInv(s, t, at);
    case Apply(id, at) => ApplyKeepsInv(s, id, at);
  }

  function After(s: Store, calls: seq<Call>): (t: Store)
    requires Inv(s)
    ensures Inv(t)
    decreases |calls|
  {
    if calls == [] then s
    else
      StepKeepsInv(s, calls[0]);
      After(Step(s, calls[0]), calls[1..])
  }

  ghost function Reached(calls: seq<Call>): (t: Store)
    ensures Inv(t)
  {
    EmptyIsOk();
    After(EMPTY, calls)
  }

  // ------------------------------------------------ every reachable state

  ghost predicate ResultOf(s: Store, t: TaskId, r: ResultId) {
    r in s.results && s.results[r].result.taskId == t
  }

  /** A task is closed exactly when it has a result, and it never has two. */
  lemma ClosedExactlyByOneResult(calls: seq<Call>, t: TaskId, q: ResultId, r: ResultId)
    requires t in Reached(calls).tasks
    ensures var s := Reached(calls);
            && (Terminal(s.tasks[t].status) <==> exists k :: ResultOf(s, t, k))
            && (ResultOf(s, t, q) && ResultOf(s, t, r) ==> q == r)
  {
    hide After, TimesOk, SlotsOk, MarksOk, ActionsOk, LogOk, Named;
    var s := Reached(calls);
    assert Inv(s);
    if Terminal(s.tasks[t].status) {
      assert ResultOf(s, t, s.byTask[t]);
    }
  }

  /** Runtime results came strictly before the deadline, defaults at it or later. */
  lemma DeadlinesDecide(calls: seq<Call>, r: ResultId)
    requires r in Reached(calls).results
    ensures var s := Reached(calls); s.results[r].result.taskId in s.tasks
    ensures var s := Reached(calls); var task := s.tasks[s.results[r].result.taskId];
            && (r.FromRuntime? <==> s.results[r].receivedAt < task.task.deadline)
            && (r.Default? <==> task.task.deadline <= s.results[r].receivedAt)
            && task.completedAt == Some(s.results[r].receivedAt)
            && (task.status == Completed <==> s.results[r].result.status == Succeeded)
            && (task.status == CancelledTask <==> s.results[r].result.status == Cancelled)
            && (task.status == Defaulted <==> s.results[r].result.status == Failed || s.results[r].result.status == TimedOut)
            && (r.Default? ==> s.results[r].result.status == TimedOut && s.results[r].result.action == None)
  {
    hide After, TasksOk, SlotsOk, MarksOk, ActionsOk, LogOk;
    var s := Reached(calls);
    assert Inv(s);
    assert Named(r, s.results[r]);
  }

  /** An applied action is the one the policy derives; a candidate enters before the deadline, from a runtime result. */
  lemma AppliedActionsAreDerived(calls: seq<Call>, t: TaskId)
    requires t in Reached(calls).applied
    ensures var s := Reached(calls); var a := s.applied[t]; t in s.tasks && a.resultId in s.results
    ensures var s := Reached(calls); var a := s.applied[t]; var r := s.results[a.resultId];
            var d := DeriveApplication(s.tasks[t].task.input, r.result.status, r.result.action);
            && r.result.taskId == t && a.taskId == t && a.outcome == d.outcome && a.action == d.action
            && (a.outcome == Candidate ==>
                  a.resultId.FromRuntime? && a.enteredAt == r.receivedAt < s.tasks[t].task.deadline)
            && (a.outcome != Candidate ==> a.enteredAt == a.appliedAt)
  {
    hide After, TasksOk, SlotsOk, MarksOk, LogOk, DeriveApplication, StatusAfter;
    var s := Reached(calls);
    assert Inv(s);
    var r := s.results[s.byTask[t]];
    assert Named(s.byTask[t], r) && Timely(s.tasks[t], r);
    ApplicationIsTotal(s.tasks[t].task.input, r.result.status, r.result.action);
  }

  /** No result is ever rejected, and applying a stored one never conflicts. */
  lemma NoResultIsRefused(calls: seq<Call>, r: ResultId, at: int)
    requires r in Reached(calls).results
    ensures Indexed(Reached(calls))
    ensures Reached(calls).results[r].applyStatus != Rejected && ApplyResult(Reached(calls), r, at).result.Ok?
  {
    hide Inv, Indexed, After;
    ApplyKeepsInv(Reached(calls), r, at);
    PendingIsUnapplied(Reached(calls), r);
  }

  /** The log shows each milestone once, and exactly for the tasks that reached it. */
  lemma LogTellsTheState(calls: seq<Call>, t: TaskId)
    ensures var s := Reached(calls);
            && Tally(s.events, t, Creation) == One(t in s.tasks)
            && Tally(s.events, t, Closing) == One(t in s.tasks && Terminal(s.tasks[t].status))
            && Tally(s.events, t, Applying) == One(t in s.applied)
  {
    hide After, ResultsOk, TimesOk, SlotsOk, MarksOk, ActionsOk, Tally;
    assert Inv(Reached(calls));
  }

  // ------------------------------------------------------ what never moves

  ghost predicate TaskGrew(t: TaskRecord, was: TaskRecord) {
    && t.task == was.task && t.configHash == was.configHash && t.createdAt == was.createdAt
    && (Terminal(was.status) ==> t == was)
  }

  ghost predicate ResultGrew(r: ResultRecord, was: ResultRecord) {
    && r.result == was.result && r.receivedAt == was.receivedAt && r.id == was.id
    && (was.applyStatus != Pending ==> r == was)
  }

  ghost predicate TasksGrew(t: Tasks, s: Tasks) {
    forall k | k in s :: k in t && TaskGrew(t[k], s[k])
  }

  ghost predicate ResultsGrew(t: Results, s: Results) {
    forall k | k in s :: k in t && ResultGrew(t[k], s[k])
  }

  ghost predicate IndexesGrew(t: Store, s: Store) {
    && (forall k | k in s.byTask :: k in t.byTask && t.byTask[k] == s.byTask[k])
    && (forall k | k in s.bySlot :: k in t.bySlot && t.bySlot[k] == s.bySlot[k])
    && (forall k | k in s.applied :: k in t.applied && t.applied[k] == s.applied[k])
    && s.events <= t.events
  }

  ghost predicate Grew(t: Store, s: Store) {
    TasksGrew(t.tasks, s.tasks) && ResultsGrew(t.results, s.results) && IndexesGrew(t, s)
  }

  lemma ClosedGrows(s: Store, id: ResultId, result: RunResult, status: TaskStatus, at: int, kind: EventKind)
    requires result.taskId in s.tasks && result.taskId !in s.byTask && id !in s.results && !Terminal(s.tasks[result.taskId].status)
    ensures Grew(Closed(s, id, result, status, at, kind), s)
  {
  }

  lemma LoggedGrows(t: Store, s: Store, e: Event)
    requires Grew(t, s)
    ensures Grew(Logged(t, e), s)
  {
  }

  lemma TimedOutGrows(s: Store, t: TaskId, at: int)
    requires Inv(s) && t in s.tasks && t !in s.byTask && !Terminal(s.tasks[t].status)
    ensures Grew(TimedOutAt(s, t, at), s)
  {
    hide TimesOk, SlotsOk, MarksOk, ActionsOk, LogOk, Closed, Grew, ResultsOk;
    DefaultIsFree(s.results, s.byTask, t);
    ClosedGrows(s, Default(t), TimeoutResult(t), Defaulted, at, DefaultedEvent);
  }

  lemma SubmitGrows(s: Store, result: ResultV1, at: int)
    requires Inv(s)
    ensures Grew(SubmitResult(s, result, at).state, s)
  {
    hide Inv, Closed, TimedOutAt, Grew, Logged;
    GrewIsReflexive(s);
    var t := result.taskId;
    var id := FromRuntime(result.id);
    if t !in s.tasks {
    } else if id in s.results {
      LoggedGrows(s, s, Event(t, ResultConflictEvent, at));
      LoggedGrows(s, s, Event(t, DuplicateIgnored, at));
    } else if t in s.byTask || Terminal(s.tasks[t].status) {
      LoggedGrows(s, s, Event(t, LateIgnored, at));
    } else if at >= s.tasks[t].task.deadline {
      TimedOutGrows(s, t, at);
      LoggedGrows(TimedOutAt(s, t, at), s, Event(t, LateIgnored, at));
    } else {
      ClosedGrows(s, id, result, StatusAfter(result.status), at, ResultSubmitted);
    }
  }

  lemma AddedGrows(s: Store, t: TaskRecord)
    requires t.task.id !in s.tasks && t.task.slot !in s.bySlot
    ensures Grew(s.(tasks := s.tasks[t.task.id := t], bySlot := s.bySlot[t.task.slot := t.task.id]), s)
  {
  }

  lemma CreateGrows(s: Store, task: ArenaTask, config: string, configHash: string, at: int)
    requires Indexed(s)
    ensures Grew(CreateTask(s, task, config, configHash, at).state, s)
  {
    hide Indexed, Grew, Logged;
    GrewIsReflexive(s);
    if task.slot !in s.bySlot && task.id !in s.tasks {
      var t := TaskRecord(task, configHash, Queued, at, None);
      AddedGrows(s, t);
      LoggedGrows(s.(tasks := s.tasks[task.id := t], bySlot := s.bySlot[task.slot := task.id]), s, Event(task.id, Created, at));
    }
  }

  lemma MarkedGrows(s: Store, id: ResultId, r: ResultRecord, a: AppliedAction)
    requires id in s.results && ResultGrew(r, s.results[id]) && a.taskId !in s.applied
    ensures Grew(s.(results := s.results[id := r], applied := s.applied[a.taskId := a]), s)
  {
  }

  lemma ApplyGrows(s: Store, id: ResultId, now: int)
    requires Inv(s)
    ensures Indexed(s) && Grew(ApplyResult(s, id, now).state, s)
  {
    hide Inv, Indexed, DeriveApplication, Grew, Logged;
    InvIndexed(s);
    GrewIsReflexive(s);
    if id in s.results && s.results[id].applyStatus == Pending {
      PendingIsUnapplied(s, id);
      var was := s.results[id];
      var d := Derived(s, was);
      ApplicationIsTotal(s.tasks[was.result.taskId].task.input, was.result.status, was.result.action);
      var r := was.(applyStatus := Applied, appliedAt := Some(now), reason := d.reason);
      var a := Entered(was, d, now);
      MarkedGrows(s, id, r, a);
      LoggedGrows(s.(results := s.results[id := r], applied := s.applied[a.taskId := a]), s, Event(was.result.taskId, ResultApplied, now));
    }
  }

  lemma StepGrows(s: Store, c: Call)
    requires Inv(s)
    ensures Indexed(s) && Grew(Step(s, c), s)
  {
    hide Inv, Indexed, CreateTask, SubmitResult, ApplyResult, TimedOutAt, Grew;
    InvIndexed(s);
    match c
    case Create(task, config, configHash, at) => CreateGrows(s, task, config, configHash, at);
    case Submit(result, at) => SubmitGrows(s, result, at);
    case Finalize(t, at) =>
      GrewIsReflexive(s);
      if Eligible(s, t, at) { TimedOutGrows(s, t, at); }
    case Apply(id, at) => ApplyGrows(s, id, at);
  }

  lemma GrewIsReflexive(s: Store)
    ensures Grew(s, s)
  {
  }

  lemma GrewIsTransitive(a: Store, b: Store, c: Store)
    requires Grew(b, a) && Grew(c, b)
    ensures Grew(c, a)
  {
  }

  /** Closed tasks, results, applied actions and log lines are permanent. */
  lemma {:induction false} RunsOnlyGrow(s: Store, calls: seq<Call>)
    requires Inv(s)
    ensures Grew(After(s, calls), s)
    decreases |calls|
  {
    hide Inv, Grew, Step;
    if calls == [] {
      GrewIsReflexive(s);
    } else {
      StepKeepsInv(s, calls[0]);
      StepGrows(s, calls[0]);
      RunsOnlyGrow(Step(s, calls[0]), calls[1..]);
      GrewIsTransitive(s, Step(s, calls[0]), After(s, calls));
    }
  }

  /** An accepted result sent again, at any later time, is a duplicate of itself and adds only a log line. */
  lemma AcceptedResultsReplay(s: Store, result: ResultV1, at: int, calls: seq<Call>, later: int)
    requires Inv(s) && SubmitResult(s, result, at).result.Ok? && SubmitResult(s, result, at).result.value.disposition == Accepted
    ensures Inv(SubmitResult(s, result, at).state)
    ensures var first := SubmitResult(s, result, at).result.value;
            var t := After(SubmitResult(s, result, at).state, calls);
            SubmitResult(t, result, later) ==
              Outcome(Logged(t, Event(result.taskId, DuplicateIgnored, later)), Ok(first.(disposition := Duplicate)))
  {
    hide Inv, After, Grew, TimedOutAt;
    SubmitKeepsInv(s, result, at);
    var u := SubmitResult(s, result, at).state;
    RunsOnlyGrow(u, calls);
    assert u.tasks[result.taskId].status == StatusAfter(result.status);
    Survives(After(u, calls), u, FromRuntime(result.id), result.taskId);
  }

  lemma Survives(t: Store, s: Store, id: ResultId, task: TaskId)
    requires Grew(t, s) && id in s.results && task in s.tasks && Terminal(s.tasks[task].status) && task in s.byTask
    ensures id in t.results && t.results[id].result == s.results[id].result && t.results[id].receivedAt == s.results[id].receivedAt
    ensures task in t.tasks && t.tasks[task] == s.tasks[task] && task in t.byTask && t.byTask[task] == s.byTask[task]
  {
  }

  /**
   * How a submission for a known task is decided, in terms of the task and of the results already
   * stored: a used name decides first, then whether the task is open, then the deadline.
   */
  lemma SubmissionsAreDecided(s: Store, result: ResultV1, at: int)
    requires Inv(s) && result.taskId in s.tasks
    ensures var o := SubmitResult(s, result, at).result; var id := FromRuntime(result.id);
            var open := s.tasks[result.taskId].status == Queued;
            && (o == Err(ResultConflict) <==> id in s.results && s.results[id].result != result)
            && (o.Ok? && o.value.disposition == Duplicate <==> id in s.results && s.results[id].result == result)
            && (o.Ok? && o.value.disposition == Accepted <==> id !in s.results && open && at < s.tasks[result.taskId].task.deadline)
            && (o.Ok? && o.value.disposition == Late <==>
                  id !in s.results && (!open || s.tasks[result.taskId].task.deadline <= at))
            && (o.Ok? ==> o.value.taskId == result.taskId && o.value.authoritative.Some? && o.value.status != Queued)
  {
    hide ResultsOk, TimesOk, SlotsOk, MarksOk, ActionsOk, LogOk, Closed, TimedOutAt;
    if FromRuntime(result.id) in s.results {
      StoredIsAuthoritative(s, FromRuntime(result.id));
    }
  }

  lemma StoredIsAuthoritative(s: Store, r: ResultId)
    requires Inv(s) && r in s.results
    ensures s.results[r].result.taskId in s.byTask && s.byTask[s.results[r].result.taskId] == r
  {
    hide TasksOk, TimesOk, SlotsOk, MarksOk, ActionsOk, LogOk, Named;
  }

  /** Creating a task again, at any later time, finds the same task and changes nothing. */
  lemma CreatedTasksReplay(s: Store, task: ArenaTask, config: string, hash: string, at: int, calls: seq<Call>, later: int)
    requires Inv(s) && Indexed(s) && CreateTask(s, task, config, hash, at).result.Ok?
    ensures Inv(CreateTask(s, task, config, hash, at).state)
    ensures var t := After(CreateTask(s, task, config, hash, at).state, calls);
            && Indexed(t) && CreateTask(t, task, config, hash, later).state == t
            && CreateTask(t, task, config, hash, later).result.Ok?
            && CreateTask(t, task, config, hash, later).result.value.task == CreateTask(s, task, config, hash, at).result.value.task
  {
    hide Inv, Indexed, After, Grew;
    CreateKeepsInv(s, task, config, hash, at);
    var made := CreateTask(s, task, config, hash, at);
    var t := After(made.state, calls);
    RunsOnlyGrow(made.state, calls);
    InvIndexed(t);
    InvIndexed(made.state);
    CreatedIsIndexed(s, task, config, hash, at);
    SlotSurvives(t, made.state, task.slot);
  }

  lemma CreatedIsIndexed(s: Store, task: ArenaTask, config: string, hash: string, at: int)
    requires Inv(s) && Indexed(s) && CreateTask(s, task, config, hash, at).result.Ok?
    ensures var o := CreateTask(s, task, config, hash, at);
            && task.input == task.inputHash && config == hash
            && task.slot in o.state.bySlot && o.state.bySlot[task.slot] in o.state.tasks
            && o.state.tasks[o.state.bySlot[task.slot]] == o.result.value
            && o.result.value.configHash == hash && o.result.value.task.inputHash == task.inputHash
  {
    hide Inv;
  }

  lemma SlotSurvives(t: Store, s: Store, slot: Slot)
    requires Grew(t, s) && slot in s.bySlot && s.bySlot[slot] in s.tasks
    ensures slot in t.bySlot && t.bySlot[slot] == s.bySlot[slot] && t.bySlot[slot] in t.tasks
    ensures t.tasks[t.bySlot[slot]].task == s.tasks[s.bySlot[slot]].task
    ensures t.tasks[t.bySlot[slot]].configHash == s.tasks[s.bySlot[slot]].configHash
  {
  }

  /** What an accepted result makes of its task. */
  ghost predicate ClosedAs(status: TaskStatus, run: RunStatus) {
    match run
    case Succeeded => status == Completed
    case Cancelled => status == CancelledTask
    case Failed => status == Defaulted
    case TimedOut => status == Defaulted
  }

  /** An accepted submission is stored as sent and closes the task by its status; the receipt says so. */
  lemma AcceptedSubmissionsCloseTheTask(s: Store, result: ResultV1, at: int)
    requires Inv(s) && result.taskId in s.tasks && s.tasks[result.taskId].status == Queued
    requires FromRuntime(result.id) !in s.results && at < s.tasks[result.taskId].task.deadline
    ensures var o := SubmitResult(s, result, at); var id := FromRuntime(result.id); var was := s.tasks[result.taskId];
            && o.result.Ok? && ClosedAs(o.result.value.status, result.status)
            && o.result.value == Receipt(result.taskId, Accepted, Some(id), o.result.value.status, at)
            && o.state.results == s.results[id := ResultRecord(id, result, at, Pending, None, None, None)]
            && o.state.byTask == s.byTask[result.taskId := id]
            && o.state.tasks == s.tasks[result.taskId := TaskRecord(was.task, was.configHash, o.result.value.status, was.createdAt, Some(at))]
            && o.state.applied == s.applied && o.state.bySlot == s.bySlot
  {
    hide ResultsOk, TimesOk, SlotsOk, MarksOk, ActionsOk, LogOk;
  }

  /** A submission at or after the deadline of an open task closes it with a timed-out default instead. */
  lemma LateSubmissionsDefaultTheTask(s: Store, result: ResultV1, at: int)
    requires Inv(s) && result.taskId in s.tasks && s.tasks[result.taskId].status == Queued
    requires FromRuntime(result.id) !in s.results && s.tasks[result.taskId].task.deadline <= at
    ensures var o := SubmitResult(s, result, at); var id := Default(result.taskId); var was := s.tasks[result.taskId];
            && o.result == Ok(Receipt(result.taskId, Late, Some(id), Defaulted, at))
            && id in o.state.results && o.state.results[id].result.status == TimedOut && o.state.results[id].result.action == None
            && o.state.results[id].result.taskId == result.taskId && o.state.results[id].receivedAt == at
            && o.state.results[id].applyStatus == Pending && o.state.results.Keys == s.results.Keys + {id}
            && o.state.tasks == s.tasks[result.taskId := TaskRecord(was.task, was.configHash, Defaulted, was.createdAt, Some(at))]
  {
    hide ResultsOk, TimesOk, SlotsOk, MarksOk, ActionsOk, LogOk;
  }

  /** Any other answered submission adds one log line and reports the task and the result it already has. */
  lemma OtherSubmissionsChangeNothing(s: Store, result: ResultV1, at: int)
    requires Inv(s) && result.taskId in s.tasks && (FromRuntime(result.id) in s.results || s.tasks[result.taskId].status != Queued)
    ensures var o := SubmitResult(s, result, at); var id := FromRuntime(result.id);
            && |o.state.events| == |s.events| + 1 && o.state == s.(events := o.state.events)
            && (o.result.Ok? ==>
                  && o.result.value.status == s.tasks[result.taskId].status
                  && result.taskId in s.byTask && o.result.value.authoritative == Some(s.byTask[result.taskId])
                  && o.result.value.receivedAt == if id in s.results then s.results[id].receivedAt else at)
  {
    hide ResultsOk, TimesOk, SlotsOk, MarksOk, ActionsOk, LogOk, Closed, TimedOutAt;
    if FromRuntime(result.id) in s.results {
      StoredIsAuthoritative(s, FromRuntime(result.id));
    }
  }

  /** A task under a new slot and id is stored as given, queued; its hashes must match. */
  lemma CreatedTasksAreStoredAsGiven(s: Store, task: ArenaTask, config: string, hash: string, at: int)
    requires Indexed(s) && task.slot !in s.bySlot && task.id !in s.tasks
    ensures var o := CreateTask(s, task, config, hash, at);
            && (o.result.Ok? <==> task.input == task.inputHash && config == hash)
            && (o.result.Ok? ==>
                  && o.result.value == TaskRecord(task, hash, Queued, at, None)
                  && o.state.tasks == s.tasks[task.id := o.result.value] && o.state.bySlot == s.bySlot[task.slot := task.id]
                  && o.state.results == s.results && o.state.applied == s.applied)
  {
    hide Indexed;
  }

  /** Under a used slot only the same input and configuration are accepted, and find the task stored. */
  lemma SlotsAreReusedOnlyForTheSame(s: Store, task: ArenaTask, config: string, hash: string, at: int)
    requires Indexed(s) && task.slot in s.bySlot
    ensures var o := CreateTask(s, task, config, hash, at); var stored := s.tasks[s.bySlot[task.slot]];
            && o.state == s
            && (o.result.Ok? <==> task.input == task.inputHash && config == hash
                                  && stored.task.inputHash == task.inputHash && stored.configHash == hash)
            && (o.result.Ok? ==> o.result.value == stored)
  {
    hide Indexed;
  }
}
