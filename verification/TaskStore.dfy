/** Tasks, their terminal results and the actions applied from them (arena_core/repository.py):
    records and transitions. A digest is modelled by the value it is taken of. */
module TaskStore {
  import opened Wrappers
  import opened CandidateValidation

  datatype TaskId = TaskId(text: string)

  /** Runtime results and timeout defaults live in disjoint name spaces. */
  datatype ResultId = FromRuntime(id: string) | Default(task: TaskId)

  datatype Slot = Slot(agentId: string, idempotencyKey: string)

  datatype ArenaTask = ArenaTask(id: TaskId, slot: Slot, input: Input, inputHash: Input, deadline: int)

  datatype TaskStatus = Queued | Completed | Defaulted | CancelledTask

  predicate Terminal(s: TaskStatus) {
    s != Queued
  }

  datatype TaskRecord = TaskRecord(task: ArenaTask, configHash: string, status: TaskStatus, createdAt: int, completedAt: Option<int>)

  datatype RunResult = RunResult(id: string, taskId: TaskId, status: RunStatus, action: Option<Action>)

  /** A succeeded result carries one action, any other none. */
  type ResultV1 = r: RunResult | (r.status == Succeeded) == r.action.Some?
    witness RunResult("r", TaskId("t"), Failed, None)

  datatype ApplyStatus = Pending | Applied | Rejected

  datatype ResultRecord = ResultRecord(
    id: ResultId, result: RunResult, receivedAt: int, applyStatus: ApplyStatus,
    appliedAt: Option<int>, rejectedAt: Option<int>, reason: Option<Reason>)

  datatype AppliedAction = AppliedAction(
    taskId: TaskId, resultId: ResultId, outcome: AppliedKind, action: Option<Action>, enteredAt: int, appliedAt: int)

  datatype EventKind =
    | Created | ResultSubmitted | DefaultedEvent | ResultApplied | ResultRejected
    | ResultConflictEvent | DuplicateIgnored | LateIgnored

  datatype Event = Event(taskId: TaskId, kind: EventKind, at: int)

  datatype TaskError = TaskNotFound | IdempotencyConflict | ResultConflict

  datatype Disposition = Accepted | Duplicate | Late

  datatype Receipt = Receipt(
    taskId: TaskId, disposition: Disposition, authoritative: Option<ResultId>, status: TaskStatus, receivedAt: int)

  type Tasks = map<TaskId, TaskRecord>
  type Results = map<ResultId, ResultRecord>
  type ByTask = map<TaskId, ResultId>
  type AppliedMap = map<TaskId, AppliedAction>

  datatype Store = Store(
    tasks: Tasks, bySlot: map<Slot, TaskId>, results: Results, byTask: ByTask, events: seq<Event>, applied: AppliedMap)

  const EMPTY: Store := Store(map[], map[], map[], map[], [], map[])

  datatype Outcome<+T> = Outcome(state: Store, result: Result<T, TaskError>)

  ghost predicate Indexed(s: Store) {
    && (forall k | k in s.bySlot :: s.bySlot[k] in s.tasks)
    && (forall t | t in s.byTask :: s.byTask[t] in s.results)
    && (forall r | r in s.results :: s.results[r].result.taskId in s.tasks)
  }

  function Logged(s: Store, e: Event): Store {
    s.(events := s.events + [e])
  }

  // -------------------------------------------------------------- creating

  function CreateTask(s: Store, task: ArenaTask, config: string, configHash: string, createdAt: int): Outcome<TaskRecord>
    requires Indexed(s)
  {
    if task.input != task.inputHash || config != configHash then Outcome(s, Err(IdempotencyConflict))
    else if task.slot in s.bySlot then
      var existing := s.tasks[s.bySlot[task.slot]];
      if existing.task.inputHash != task.inputHash || existing.configHash != configHash then
        Outcome(s, Err(IdempotencyConflict))
      else Outcome(s, Ok(existing))
    else if task.id in s.tasks then Outcome(s, Err(IdempotencyConflict))
    else
      var record := TaskRecord(task, configHash, Queued, createdAt, None);
      Outcome(Logged(s.(tasks := s.tasks[task.id := record], bySlot := s.bySlot[task.slot := task.id]),
                     Event(task.id, Created, createdAt)), Ok(record))
  }

  // ------------------------------------------------------------ submitting

  function StatusAfter(status: RunStatus): TaskStatus {
    match status
    case Succeeded => Completed
    case Cancelled => CancelledTask
    case Failed => Defaulted
    case TimedOut => Defaulted
  }

  /** Store the one result of a task and close the task. */
  function Closed(s: Store, id: ResultId, result: RunResult, status: TaskStatus, at: int, kind: EventKind): Store
    requires result.taskId in s.tasks
  {
    var t := result.taskId;
    Logged(s.(results := s.results[id := ResultRecord(id, result, at, Pending, None, None, None)],
              byTask := s.byTask[t := id],
              tasks := s.tasks[t := s.tasks[t].(status := status, completedAt := Some(at))]),
           Event(t, kind, at))
  }

  function TimeoutResult(t: TaskId): RunResult {
    RunResult("default:" + t.text, t, TimedOut, None)
  }

  function TimedOutAt(s: Store, t: TaskId, at: int): Store
    requires t in s.tasks
  {
    Closed(s, Default(t), TimeoutResult(t), Defaulted, at, DefaultedEvent)
  }

  function Authoritative(s: Store, t: TaskId): Option<ResultId> {
    if t in s.byTask then Some(s.byTask[t]) else None
  }

  function SubmitResult(s: Store, result: ResultV1, at: int): Outcome<Receipt> {
    var t := result.taskId;
    var id := FromRuntime(result.id);
    if t !in s.tasks then Outcome(s, Err(TaskNotFound))
    else if id in s.results then
      if s.results[id].result != result then Outcome(Logged(s, Event(t, ResultConflictEvent, at)), Err(ResultConflict))
      else Outcome(Logged(s, Event(t, DuplicateIgnored, at)),
                   Ok(Receipt(t, Duplicate, Authoritative(s, t), s.tasks[t].status, s.results[id].receivedAt)))
    else if t in s.byTask || Terminal(s.tasks[t].status) then
      Outcome(Logged(s, Event(t, LateIgnored, at)), Ok(Receipt(t, Late, Authoritative(s, t), s.tasks[t].status, at)))
    else if at >= s.tasks[t].task.deadline then
      Outcome(Logged(TimedOutAt(s, t, at), Event(t, LateIgnored, at)), Ok(Receipt(t, Late, Some(Default(t)), Defaulted, at)))
    else
      Outcome(Closed(s, id, result, StatusAfter(result.status), at, ResultSubmitted),
              Ok(Receipt(t, Accepted, Some(id), StatusAfter(result.status), at)))
  }

  // ------------------------------------------------------------ finalizing

  predicate Eligible(s: Store, t: TaskId, now: int) {
    t in s.tasks && !Terminal(s.tasks[t].status) && s.tasks[t].task.deadline <= now && t !in s.byTask
  }

  /** One task of the finalizer's batch. */
  function FinalizeOne(s: Store, t: TaskId, now: int): Store {
    if Eligible(s, t, now) then TimedOutAt(s, t, now) else s
  }

  // -------------------------------------------------------------- applying

  function Derived(s: Store, r: ResultRecord): Application
    requires r.result.taskId in s.tasks
  {
    DeriveApplication(s.tasks[r.result.taskId].task.input, r.result.status, r.result.action)
  }

  function Entered(r: ResultRecord, a: Application, now: int): AppliedAction {
    AppliedAction(r.result.taskId, r.id, a.outcome, a.action, if a.outcome == Candidate then r.receivedAt else now, now)
  }

  function ApplyResult(s: Store, id: ResultId, now: int): Outcome<Option<AppliedAction>>
    requires Indexed(s)
  {
    if id !in s.results then Outcome(s, Err(ResultConflict))
    else
      var r := s.results[id];
      var t := r.result.taskId;
      if r.applyStatus != Pending then Outcome(s, Ok(None))
      else
        var a := Derived(s, r);
        if !a.accepted then
          Outcome(Logged(s.(results := s.results[id := r.(applyStatus := Rejected, rejectedAt := Some(now), reason := a.reason)]),
                         Event(t, ResultRejected, now)), Ok(None))
        else if t in s.applied then
          if s.applied[t].resultId != id then Outcome(s, Err(ResultConflict))
          else Outcome(s.(results := s.results[id := r.(applyStatus := Applied, appliedAt := Some(now))]), Ok(None))
        else
          var action := Entered(r.(id := id), a, now);
          Outcome(Logged(s.(applied := s.applied[t := action],
                            results := s.results[id := r.(applyStatus := Applied, appliedAt := Some(now), reason := a.reason)]),
                         Event(t, ResultApplied, now)), Ok(Some(action)))
  }
}
