/** What every operation on the task store keeps: tasks and results in one-to-one correspondence,
    deadlines respected, each task applied once, and a log that agrees with the state. */
module TaskInvariant {
  import opened Wrappers
  import opened CandidateValidation
  import opened TaskStore

  // ------------------------------------------------------------- the parts

  /** A result's name says where it came from. */
  ghost predicate Named(id: ResultId, r: ResultRecord) {
    && r.id == id
    && match id
       case FromRuntime(text) => r.result.id == text
       case Default(t) => r.result == TimeoutResult(t)
  }

  ghost predicate ResultsOk(results: Results, byTask: ByTask) {
    && (forall r | r in results :: Named(r, results[r]) && results[r].result.taskId in byTask && byTask[results[r].result.taskId] == r)
    && (forall t | t in byTask :: byTask[t] in results && results[byTask[t]].result.taskId == t)
  }

  ghost predicate TasksOk(tasks: Tasks, byTask: ByTask) {
    && (forall t | t in tasks :: tasks[t].task.id == t && (Terminal(tasks[t].status) <==> t in byTask))
    && byTask.Keys <= tasks.Keys
  }

  /** Runtime results beat the deadline, defaults wait for it. */
  ghost predicate Timely(task: TaskRecord, r: ResultRecord) {
    && (r.id.FromRuntime? ==> r.receivedAt < task.task.deadline && task.status == StatusAfter(r.result.status))
    && (r.id.Default? ==> task.task.deadline <= r.receivedAt && task.status == Defaulted)
    && task.completedAt == Some(r.receivedAt)
  }

  ghost predicate TimesOk(tasks: Tasks, results: Results) {
    forall r | r in results :: results[r].result.taskId in tasks && Timely(tasks[results[r].result.taskId], results[r])
  }

  ghost predicate SlotsOk(bySlot: map<Slot, TaskId>, tasks: Tasks) {
    && (forall k | k in bySlot :: bySlot[k] in tasks && tasks[bySlot[k]].task.slot == k)
    && (forall t | t in tasks :: tasks[t].task.slot in bySlot && bySlot[tasks[t].task.slot] == t)
  }

  /** Results are pending or applied, never rejected. */
  ghost predicate MarksOk(results: Results, applied: AppliedMap) {
    forall r | r in results ::
      results[r].applyStatus != Rejected && (results[r].applyStatus == Applied <==> results[r].result.taskId in applied)
  }

  /** The action is what the policy derives from the task and its result. */
  ghost predicate ActionOk(task: TaskRecord, r: ResultRecord, a: AppliedAction) {
    var app := DeriveApplication(task.task.input, r.result.status, r.result.action);
    a == AppliedAction(r.result.taskId, r.id, app.outcome, app.action,
                       if app.outcome == Candidate then r.receivedAt else a.appliedAt, a.appliedAt)
  }

  ghost predicate ActionsOk(tasks: Tasks, results: Results, byTask: ByTask, applied: AppliedMap) {
    forall t | t in applied ::
      t in tasks && t in byTask && byTask[t] in results && ActionOk(tasks[t], results[byTask[t]], applied[t])
  }

  // --------------------------------------------------------------- the log

  datatype Milestone = Creation | Closing | Applying

  function MilestoneOf(kind: EventKind): Option<Milestone> {
    match kind
    case Created => Some(Creation)
    case ResultSubmitted => Some(Closing)
    case DefaultedEvent => Some(Closing)
    case ResultApplied => Some(Applying)
    case _ => None
  }

  function One(b: bool): nat {
    if b then 1 else 0
  }

  /** How often the log records a milestone of a task. */
  function Tally(events: seq<Event>, t: TaskId, m: Milestone): nat {
    if events == [] then 0
    else
      var e := events[|events| - 1];
      Tally(events[..|events| - 1], t, m) + One(e.taskId == t && MilestoneOf(e.kind) == Some(m))
  }

  lemma TallyGrows(events: seq<Event>, e: Event, t: TaskId, m: Milestone)
    ensures Tally(events + [e], t, m) == Tally(events, t, m) + One(e.taskId == t && MilestoneOf(e.kind) == Some(m))
  {
    assert (events + [e])[..|events|] == events;
  }

  ghost predicate LogOk(events: seq<Event>, tasks: Tasks, byTask: ByTask, applied: AppliedMap) {
    forall t: TaskId ::
      && Tally(events, t, Creation) == One(t in tasks)
      && Tally(events, t, Closing) == One(t in byTask)
      && Tally(events, t, Applying) == One(t in applied)
  }

  ghost predicate Inv(s: Store) {
    && ResultsOk(s.results, s.byTask) && TasksOk(s.tasks, s.byTask) && TimesOk(s.tasks, s.results)
    && SlotsOk(s.bySlot, s.tasks) && MarksOk(s.results, s.applied)
    && ActionsOk(s.tasks, s.results, s.byTask, s.applied) && LogOk(s.events, s.tasks, s.byTask, s.applied)
  }

  lemma InvIndexed(s: Store)
    requires Inv(s)
    ensures Indexed(s)
  {
    hide Named, Timely, MarksOk, ActionsOk, LogOk;
  }

  /** A log line that is no milestone changes nothing. */
  lemma LoggedKeepsInv(s: Store, e: Event)
    requires Inv(s) && MilestoneOf(e.kind).None?
    ensures Inv(Logged(s, e))
  {
    hide ResultsOk, TasksOk, TimesOk, SlotsOk, MarksOk, ActionsOk, Tally;
    forall t: TaskId, m: Milestone ensures Tally(s.events + [e], t, m) == Tally(s.events, t, m) {
      TallyGrows(s.events, e, t, m);
    }
  }

  // -------------------------------------------------------------- closing

  lemma ClosedKeepsResults(results: Results, byTask: ByTask, id: ResultId, r: ResultRecord)
    requires ResultsOk(results, byTask) && Named(id, r) && id !in results && r.result.taskId !in byTask
    ensures ResultsOk(results[id := r], byTask[r.result.taskId := id])
  {
    hide Named;
  }

  lemma ClosedKeepsTasks(tasks: Tasks, byTask: ByTask, t: TaskId, task: TaskRecord, id: ResultId)
    requires TasksOk(tasks, byTask) && t in tasks && task.task == tasks[t].task && Terminal(task.status)
    ensures TasksOk(tasks[t := task], byTask[t := id])
  {
  }

  lemma ClosedKeepsTimes(tasks: Tasks, results: Results, byTask: ByTask, id: ResultId, r: ResultRecord, task: TaskRecord)
    requires TimesOk(tasks, results) && ResultsOk(results, byTask) && r.result.taskId !in byTask && Timely(task, r)
    ensures TimesOk(tasks[r.result.taskId := task], results[id := r])
  {
    hide Named, Timely;
  }

  lemma SlotsSurvive(bySlot: map<Slot, TaskId>, tasks: Tasks, t: TaskId, task: TaskRecord)
    requires SlotsOk(bySlot, tasks) && t in tasks && task.task == tasks[t].task
    ensures SlotsOk(bySlot, tasks[t := task])
  {
  }

  lemma ClosedKeepsApplied(s: Store, id: ResultId, r: ResultRecord, task: TaskRecord)
    requires ActionsOk(s.tasks, s.results, s.byTask, s.applied) && MarksOk(s.results, s.applied)
    requires id !in s.results && r.result.taskId !in s.byTask && r.applyStatus == Pending
    ensures var t := r.result.taskId;
            && ActionsOk(s.tasks[t := task], s.results[id := r], s.byTask[t := id], s.applied)
            && MarksOk(s.results[id := r], s.applied)
  {
    hide ActionOk;
  }

  lemma ClosedKeepsLog(s: Store, t: TaskId, task: TaskRecord, id: ResultId, e: Event)
    requires LogOk(s.events, s.tasks, s.byTask, s.applied) && t in s.tasks && t !in s.byTask
    requires e.taskId == t && MilestoneOf(e.kind) == Some(Closing)
    ensures LogOk(s.events + [e], s.tasks[t := task], s.byTask[t := id], s.applied)
  {
    hide Tally;
    forall u: TaskId, m: Milestone
      ensures Tally(s.events + [e], u, m) == Tally(s.events, u, m) + One(t == u && m == Closing) {
      TallyGrows(s.events, e, u, m);
    }
  }

  /** A task without a result gets its first and only one. */
  lemma ClosedKeepsInv(s: Store, id: ResultId, result: RunResult, status: TaskStatus, at: int, kind: EventKind)
    requires Inv(s) && result.taskId in s.tasks && result.taskId !in s.byTask && id !in s.results && Terminal(status)
    requires Named(id, ResultRecord(id, result, at, Pending, None, None, None)) && MilestoneOf(kind) == Some(Closing)
    requires Timely(s.tasks[result.taskId].(status := status, completedAt := Some(at)),
                    ResultRecord(id, result, at, Pending, None, None, None))
    ensures Inv(Closed(s, id, result, status, at, kind))
  {
    hide ResultsOk, TasksOk, TimesOk, SlotsOk, MarksOk, ActionsOk, LogOk, Timely, Named;
    var r := ResultRecord(id, result, at, Pending, None, None, None);
    var t := result.taskId;
    var task := s.tasks[t].(status := status, completedAt := Some(at));
    ClosedKeepsResults(s.results, s.byTask, id, r);
    ClosedKeepsTasks(s.tasks, s.byTask, t, task, id);
    ClosedKeepsTimes(s.tasks, s.results, s.byTask, id, r, task);
    SlotsSurvive(s.bySlot, s.tasks, t, task);
    ClosedKeepsApplied(s, id, r, task);
    ClosedKeepsLog(s, t, task, id, Event(t, kind, at));
  }

  /** A default's name is free as long as its task has no result. */
  lemma DefaultIsFree(results: Results, byTask: ByTask, t: TaskId)
    requires ResultsOk(results, byTask) && t !in byTask
    ensures Default(t) !in results
  {
  }

  lemma TimedOutKeepsInv(s: Store, t: TaskId, at: int)
    requires Inv(s) && t in s.tasks && t !in s.byTask && s.tasks[t].task.deadline <= at
    ensures Inv(TimedOutAt(s, t, at))
  {
    hide ResultsOk, TasksOk, TimesOk, SlotsOk, MarksOk, ActionsOk, LogOk, Closed;
    DefaultIsFree(s.results, s.byTask, t);
    ClosedKeepsInv(s, Default(t), TimeoutResult(t), Defaulted, at, DefaultedEvent);
  }

  lemma SubmitKeepsInv(s: Store, result: ResultV1, at: int)
    requires Inv(s)
    ensures Inv(SubmitResult(s, result, at).state)
  {
    hide Inv, Closed, TimedOutAt, Logged;
    var t := result.taskId;
    var id := FromRuntime(result.id);
    if t !in s.tasks {
    } else if id in s.results {
      LoggedKeepsInv(s, Event(t, ResultConflictEvent, at));
      LoggedKeepsInv(s, Event(t, DuplicateIgnored, at));
    } else if t in s.byTask || Terminal(s.tasks[t].status) {
      LoggedKeepsInv(s, Event(t, LateIgnored, at));
    } else if at >= s.tasks[t].task.deadline {
      TimedOutKeepsInv(s, t, at);
      LoggedKeepsInv(TimedOutAt(s, t, at), Event(t, LateIgnored, at));
    } else {
      ClosedKeepsInv(s, id, result, StatusAfter(result.status), at, ResultSubmitted);
    }
  }

  lemma FinalizeKeepsInv(s: Store, t: TaskId, now: int)
    requires Inv(s)
    ensures Inv(FinalizeOne(s, t, now))
  {
    hide Inv, TimedOutAt;
    if Eligible(s, t, now) {
      TimedOutKeepsInv(s, t, now);
    }
  }

  // ------------------------------------------------------------- creating

  lemma AddedKeepsParts(s: Store, t: TaskRecord)
    requires TasksOk(s.tasks, s.byTask) && TimesOk(s.tasks, s.results) && ActionsOk(s.tasks, s.results, s.byTask, s.applied)
    requires t.task.id !in s.tasks && t.status == Queued
    ensures var tasks := s.tasks[t.task.id := t];
            TasksOk(tasks, s.byTask) && TimesOk(tasks, s.results) && ActionsOk(tasks, s.results, s.byTask, s.applied)
  {
    hide Timely, ActionOk;
  }

  lemma AddedKeepsSlots(bySlot: map<Slot, TaskId>, tasks: Tasks, t: TaskRecord)
    requires SlotsOk(bySlot, tasks) && t.task.id !in tasks && t.task.slot !in bySlot
    ensures SlotsOk(bySlot[t.task.slot := t.task.id], tasks[t.task.id := t])
  {
  }

  lemma AddedKeepsLog(s: Store, t: TaskRecord, at: int)
    requires LogOk(s.events, s.tasks, s.byTask, s.applied) && t.task.id !in s.tasks
    ensures LogOk(s.events + [Event(t.task.id, Created, at)], s.tasks[t.task.id := t], s.byTask, s.applied)
  {
    hide Tally;
    var e := Event(t.task.id, Created, at);
    forall u: TaskId, m: Milestone
      ensures Tally(s.events + [e], u, m) == Tally(s.events, u, m) + One(t.task.id == u && m == Creation) {
      TallyGrows(s.events, e, u, m);
    }
  }

  lemma CreateKeepsInv(s: Store, task: ArenaTask, config: string, configHash: string, at: int)
    requires Inv(s)
    ensures Indexed(s) && Inv(CreateTask(s, task, config, configHash, at).state)
  {
    hide ResultsOk, TasksOk, TimesOk, SlotsOk, MarksOk, ActionsOk, LogOk, Indexed;
    InvIndexed(s);
    if task.id !in s.tasks && task.slot !in s.bySlot {
      var t := TaskRecord(task, configHash, Queued, at, None);
      AddedKeepsParts(s, t);
      AddedKeepsSlots(s.bySlot, s.tasks, t);
      AddedKeepsLog(s, t, at);
    }
  }

  // ------------------------------------------------------------- applying

  /** The record after its action has been applied. */
  ghost predicate MarkedApplied(r: ResultRecord, was: ResultRecord) {
    r == was.(applyStatus := Applied, appliedAt := r.appliedAt, reason := r.reason)
  }

  lemma ApplyKeepsResults(results: Results, byTask: ByTask, tasks: Tasks, id: ResultId, r: ResultRecord)
    requires ResultsOk(results, byTask) && TimesOk(tasks, results) && id in results && MarkedApplied(r, results[id])
    ensures ResultsOk(results[id := r], byTask) && TimesOk(tasks, results[id := r])
  {
  }

  lemma ApplyKeepsMarks(results: Results, byTask: ByTask, applied: AppliedMap, id: ResultId, r: ResultRecord, a: AppliedAction)
    requires ResultsOk(results, byTask) && MarksOk(results, applied) && id in results && MarkedApplied(r, results[id])
    ensures MarksOk(results[id := r], applied[r.result.taskId := a])
  {
    hide Named;
  }

  lemma ApplyKeepsActions(s: Store, id: ResultId, r: ResultRecord, a: AppliedAction)
    requires ActionsOk(s.tasks, s.results, s.byTask, s.applied) && ResultsOk(s.results, s.byTask)
    requires id in s.results && MarkedApplied(r, s.results[id]) && r.result.taskId !in s.applied
    requires r.result.taskId in s.tasks && ActionOk(s.tasks[r.result.taskId], r, a)
    ensures ActionsOk(s.tasks, s.results[id := r], s.byTask, s.applied[r.result.taskId := a])
  {
    hide DeriveApplication, Named;
    forall t | t in s.applied
      ensures ActionOk(s.tasks[t], s.results[id := r][s.byTask[t]], s.applied[t]) {
      assert s.byTask[t] != id;
    }
  }

  lemma ApplyKeepsLog(s: Store, t: TaskId, a: AppliedAction, at: int)
    requires LogOk(s.events, s.tasks, s.byTask, s.applied) && t !in s.applied
    ensures LogOk(s.events + [Event(t, ResultApplied, at)], s.tasks, s.byTask, s.applied[t := a])
  {
    hide Tally;
    var e := Event(t, ResultApplied, at);
    forall u: TaskId, m: Milestone
      ensures Tally(s.events + [e], u, m) == Tally(s.events, u, m) + One(t == u && m == Applying) {
      TallyGrows(s.events, e, u, m);
    }
  }

  lemma PendingIsUnapplied(s: Store, id: ResultId)
    requires Inv(s) && id in s.results
    ensures s.results[id].result.taskId in s.tasks && s.results[id].id == id
    ensures s.results[id].applyStatus == Pending <==> s.results[id].result.taskId !in s.applied
    ensures s.results[id].applyStatus == Applied <==> s.results[id].result.taskId in s.applied
  {
    hide Timely, ActionsOk, LogOk, SlotsOk, TasksOk;
  }

  /**
   * Applying a stored result never meets the rejected or different-result branches: it
   * succeeds, and applies an action exactly when the task had none.
   */
  lemma ApplyKeepsInv(s: Store, id: ResultId, now: int)
    requires Inv(s)
    ensures Indexed(s) && Inv(ApplyResult(s, id, now).state)
    ensures ApplyResult(s, id, now).result.Ok? <==> id in s.results
    ensures id in s.results ==> (ApplyResult(s, id, now).result.value.Some? <==> s.results[id].result.taskId !in s.applied)
    ensures id in s.results ==> s.results[id].result.taskId in ApplyResult(s, id, now).state.applied
  {
    hide ResultsOk, TasksOk, TimesOk, SlotsOk, MarksOk, ActionsOk, LogOk, Indexed, DeriveApplication;
    InvIndexed(s);
    if id in s.results {
      PendingIsUnapplied(s, id);
      var was := s.results[id];
      var t := was.result.taskId;
      if was.applyStatus == Pending {
        var a := Derived(s, was);
        assert a.accepted by { ApplicationIsTotal(s.tasks[t].task.input, was.result.status, was.result.action); }
        var r := was.(applyStatus := Applied, appliedAt := Some(now), reason := a.reason);
        var action := Entered(was, a, now);
        ApplyKeepsResults(s.results, s.byTask, s.tasks, id, r);
        ApplyKeepsMarks(s.results, s.byTask, s.applied, id, r, action);
        ApplyKeepsActions(s, id, r, action);
        ApplyKeepsLog(s, t, action, now);
      }
    }
  }

  lemma EmptyIsOk()
    ensures Inv(EMPTY)
  {
  }
}
