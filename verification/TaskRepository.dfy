/** The in-memory task repository (arena_core/repository.py), the deadline finalizer and the result consumer. */
module TaskRepository {
  import opened Wrappers
  import opened Ordering
  import opened CandidateValidation
  import opened TaskStore
  import opened TaskInvariant
  import opened TaskRuns
  import opened TaskBatches

  type Answer<T> = Result<T, TaskError>

  class MemoryArenaCoreRepository {
    var tasks: Tasks
    var bySlot: map<Slot, TaskId>
    var results: Results
    var byTask: ByTask
    var events: seq<Event>
    var applied: AppliedMap

    ghost function View(): Store
      reads this
    {
      Store(tasks, bySlot, results, byTask, events, applied)
    }

    ghost predicate Valid()
      reads this
    {
      Inv(View())
    }

    constructor ()
      ensures Valid() && View() == EMPTY
    {
      tasks, bySlot, results, byTask, events, applied := map[], map[], map[], map[], [], map[];
      new;
      EmptyIsOk();
    }

    method AppendEvent(taskId: TaskId, kind: EventKind, at: int)
      modifies this`events
      ensures View() == Logged(old(View()), Event(taskId, kind, at))
    {
      events := events + [Event(taskId, kind, at)];
    }

    method CreateTask(task: ArenaTask, config: string, configHash: string, createdAt: int) returns (r: Answer<TaskRecord>)
      requires Valid()
      modifies this
      ensures Valid() && Indexed(old(View())) && Outcome(View(), r) == TaskStore.CreateTask(old(View()), task, config, configHash, createdAt)
    {
      hide Inv;
      InvIndexed(View());
      CreateKeepsInv(View(), task, config, configHash, createdAt);
      if task.input != task.inputHash || config != configHash {
        return Err(IdempotencyConflict);
      }
      if task.slot in bySlot {
        var existing := tasks[bySlot[task.slot]];
        if existing.task.inputHash != task.inputHash || existing.configHash != configHash {
          return Err(IdempotencyConflict);
        }
        return Ok(existing);
      }
      if task.id in tasks {
        return Err(IdempotencyConflict);
      }
      var record := TaskRecord(task, configHash, Queued, createdAt, None);
      tasks := tasks[task.id := record];
      bySlot := bySlot[task.slot := task.id];
      AppendEvent(task.id, Created, createdAt);
      return Ok(record);
    }

    method CreateTimeoutResult(t: TaskId, now: int) returns (r: ResultRecord)
      requires t in tasks
      modifies this
      ensures View() == TimedOutAt(old(View()), t, now) && r.id == Default(t) && r.result == TimeoutResult(t) && r.receivedAt == now
    {
      r := ResultRecord(Default(t), TimeoutResult(t), now, Pending, None, None, None);
      tasks := tasks[t := tasks[t].(status := Defaulted, completedAt := Some(now))];
      results := results[Default(t) := r];
      byTask := byTask[t := Default(t)];
      AppendEvent(t, DefaultedEvent, now);
    }

    method StoreRuntimeResult(result: ResultV1, at: int) returns (r: Receipt)
      requires result.taskId in tasks
      modifies this
      ensures View() == Closed(old(View()), FromRuntime(result.id), result, StatusAfter(result.status), at, ResultSubmitted)
      ensures r == Receipt(result.taskId, Accepted, Some(FromRuntime(result.id)), StatusAfter(result.status), at)
    {
      var t := result.taskId;
      var id := FromRuntime(result.id);
      results := results[id := ResultRecord(id, result, at, Pending, None, None, None)];
      byTask := byTask[t := id];
      var status := if result.status == Succeeded then Completed
                    else if result.status == Cancelled then CancelledTask else Defaulted;
      tasks := tasks[t := tasks[t].(completedAt := Some(at), status := status)];
      AppendEvent(t, ResultSubmitted, at);
      r := Receipt(t, Accepted, Some(id), status, at);
    }

    method SubmitResult(result: ResultV1, at: int) returns (r: Answer<Receipt>)
      requires Valid()
      modifies this
      ensures Valid() && Outcome(View(), r) == TaskStore.SubmitResult(old(View()), result, at)
    {
      hide Inv, Closed;
      SubmitKeepsInv(View(), result, at);
      var t := result.taskId;
      var id := FromRuntime(result.id);
      if t !in tasks {
        return Err(TaskNotFound);
      }
      if id in results {
        if results[id].result != result {
          AppendEvent(t, ResultConflictEvent, at);
          return Err(ResultConflict);
        }
        r := Ok(Receipt(t, Duplicate, if t in byTask then Some(byTask[t]) else None, tasks[t].status, results[id].receivedAt));
        AppendEvent(t, DuplicateIgnored, at);
        return;
      }
      if t in byTask || Terminal(tasks[t].status) {
        AppendEvent(t, LateIgnored, at);
        return Ok(Receipt(t, Late, if t in byTask then Some(byTask[t]) else None, tasks[t].status, at));
      }
      if at >= tasks[t].task.deadline {
        var timeout := CreateTimeoutResult(t, at);
        AppendEvent(t, LateIgnored, at);
        return Ok(Receipt(t, Late, Some(Default(t)), Defaulted, at));
      }
      var receipt := StoreRuntimeResult(result, at);
      return Ok(receipt);
    }

    // ---------------------------------------------------------- finalizer

    /** The expired open tasks, in no particular order. */
    method ExpiredTasks(now: int) returns (found: seq<TaskRecord>)
      requires Valid()
      ensures Distinct(found) && |found| <= |tasks|
      ensures forall i | 0 <= i < |found| :: OwnRecord(View(), found[i]) && Eligible(View(), found[i].task.id, now)
      ensures forall t | Eligible(View(), t, now) :: t in tasks && tasks[t] in found
    {
      hide Inv;
      IdsAreKeys(View());
      var todo := tasks.Keys;
      found := [];
      while todo != {}
        invariant todo <= tasks.Keys && |found| + |todo| <= |tasks|
        invariant Distinct(found)
        invariant forall i | 0 <= i < |found| ::
                    OwnRecord(View(), found[i]) && Eligible(View(), found[i].task.id, now) && found[i].task.id !in todo
        invariant forall t | t in tasks.Keys - todo && Eligible(View(), t, now) :: tasks[t] in found
        decreases |todo|
      {
        var t :| t in todo;
        var task := tasks[t];
        if !Terminal(task.status) && task.task.deadline <= now && task.task.id !in byTask {
          found := found + [task];
        }
        todo := todo - {t};
      }
    }

    /** Close the earliest expired tasks, at most `limit` of them. */
    method FinalizeExpired(now: int, limit: int) returns (batch: seq<TaskRecord>, records: seq<ResultRecord>)
      requires Valid()
      modifies this
      ensures Valid() && View() == After(old(View()), Finalizes(batch, now))
      ensures ExpiredBatch(old(View()), batch, now) && |batch| <= if limit <= 0 then 0 else limit
      ensures |records| == |batch| && forall i | 0 <= i < |batch| :: records[i].id == Default(batch[i].task.id)
      ensures |batch| < limit || |old(tasks)| <= limit ==> forall t :: !Eligible(View(), t, now)
      ensures ByDeadline(batch)
      ensures forall t, i | 0 <= i < |batch| && Eligible(View(), t, now) :: t in tasks && batch[i].task.deadline <= tasks[t].task.deadline
    {
      hide Inv, Eligible, OwnRecord, After, TimedOutAt, Less, ExpiredQueue;
      ghost var s := View();
      AfterNothing(s);
      if limit <= 0 {
        forall t | |tasks| <= limit ensures !Eligible(View(), t, now) {
          EligibleIsTask(View(), t, now);
        }
        return [], [];
      }
      var queue := ExpiredInOrder(now);
      batch := queue[..if limit < |queue| then limit else |queue|];
      QueueFront(s, queue, |batch|, now);
      SortedByDeadline(batch);
      records := CloseBatch(batch, now);
      forall t, i | 0 <= i < |batch| && Eligible(View(), t, now)
        ensures t in tasks && batch[i].task.deadline <= tasks[t].task.deadline {
        LeftIsLater(s, queue, |batch|, now, t, i);
        NotEarlier(tasks[t], batch[i]);
      }
      if |batch| < limit || |s.tasks| <= limit {
        assert batch == queue;
        forall t ensures !Eligible(View(), t, now) {
          WholeQueueClosesAll(s, queue, now, t);
        }
      }
    }

    method ExpiredInOrder(now: int) returns (queue: seq<TaskRecord>)
      requires Valid()
      ensures ExpiredQueue(View(), queue, now) && |queue| <= |tasks|
    {
      hide Inv, Eligible, OwnRecord, Less, Distinct, ExpiredQueue, SortBy;
      var found := ExpiredTasks(now);
      queue := SortBy(found, DeadlineKey);
      SortedIsQueue(View(), found, now);
    }

    /** The loop of the finalizer: no task is looked at again before it is closed. */
    method CloseBatch(batch: seq<TaskRecord>, now: int) returns (records: seq<ResultRecord>)
      requires Valid() && ExpiredBatch(View(), batch, now)
      modifies this
      ensures Valid() && View() == After(old(View()), Finalizes(batch, now))
      ensures |records| == |batch| && forall i | 0 <= i < |batch| :: records[i].id == Default(batch[i].task.id)
    {
      hide Inv, Eligible, After, TimedOutAt, Less, OwnRecord, ExpiredBatch;
      ghost var s := View();
      AfterNothing(s);
      records := [];
      var i := 0;
      while i < |batch|
        invariant 0 <= i <= |batch| && Valid() && View() == After(s, Finalizes(batch[..i], now))
        invariant |records| == i && forall j | 0 <= j < i :: records[j].id == Default(batch[j].task.id)
      {
        NextIsEligible(s, batch, i, now);
        assert batch[..i + 1][..i] == batch[..i];
        AfterOneMore(s, Finalizes(batch[..i], now), Finalize(batch[i].task.id, now));
        EligibleIsTask(View(), batch[i].task.id, now);
        FinalizeKeepsInv(View(), batch[i].task.id, now);
        var r := CreateTimeoutResult(batch[i].task.id, now);
        records := records + [r];
        i := i + 1;
      }
      assert batch[..i] == batch;
    }

    // ----------------------------------------------------------- consumer

    /** The pending results, in no particular order. */
    method FindPending() returns (found: seq<ResultRecord>)
      requires Valid()
      ensures Distinct(found) && |found| <= |results|
      ensures forall i | 0 <= i < |found| :: OwnResult(View(), found[i]) && found[i].applyStatus == Pending
      ensures forall r | r in results && results[r].applyStatus == Pending :: results[r] in found
    {
      hide Inv;
      ResultIdsAreKeys(View());
      var todo := results.Keys;
      found := [];
      while todo != {}
        invariant todo <= results.Keys && |found| + |todo| <= |results|
        invariant Distinct(found)
        invariant forall i | 0 <= i < |found| ::
                    OwnResult(View(), found[i]) && found[i].applyStatus == Pending && found[i].id !in todo
        invariant forall r | r in results.Keys - todo && results[r].applyStatus == Pending :: results[r] in found
        decreases |todo|
      {
        var r :| r in todo;
        if results[r].applyStatus == Pending {
          found := found + [results[r]];
        }
        todo := todo - {r};
      }
    }

    method PendingResults(limit: int) returns (batch: seq<ResultRecord>, ghost queue: seq<ResultRecord>)
      requires Valid()
      ensures PendingQueue(View(), queue) && batch <= queue && PendingBatch(View(), batch) && ByReceipt(batch)
      ensures |batch| == if limit <= 0 then 0 else if limit < |queue| then limit else |queue|
      ensures |queue| <= |results|
    {
      hide Inv, PendingQueue, SortBy, PendingBatch;
      var found := FindPending();
      SortedIsPending(View(), found);
      var sorted := SortBy(found, ReceivedKey);
      queue := sorted;
      var n := if limit <= 0 then 0 else if limit < |sorted| then limit else |sorted|;
      PendingFront(View(), sorted, n);
      PendingIsByReceipt(View(), sorted[..n]);
      batch := sorted[..n];
    }

    method ApplyResult(id: ResultId, now: int) returns (r: Answer<Option<AppliedAction>>)
      requires Valid()
      modifies this
      ensures Valid() && Indexed(old(View())) && Outcome(View(), r) == TaskStore.ApplyResult(old(View()), id, now)
      ensures r.Ok? <==> id in old(results)
      ensures id in old(results) ==> (r.value.Some? <==> old(results[id].applyStatus) == Pending)
    {
      hide Inv, DeriveApplication;
      InvIndexed(View());
      ApplyKeepsInv(View(), id, now);
      if id !in results {
        return Err(ResultConflict);
      }
      PendingIsUnapplied(View(), id);
      var record := results[id];
      if record.applyStatus == Applied {
        return Ok(None);
      }
      if record.applyStatus == Rejected {
        return Ok(None);
      }
      var t := record.result.taskId;
      var application := DeriveApplication(tasks[t].task.input, record.result.status, record.result.action);
      ApplicationIsTotal(tasks[t].task.input, record.result.status, record.result.action);
      r := EnterAction(record, application, now);
    }

    /** The branches below the status checks, the unreachable ones included. */
    method EnterAction(record: ResultRecord, application: Application, now: int) returns (r: Answer<Option<AppliedAction>>)
      requires record.id in results && results[record.id] == record && record.applyStatus == Pending
      requires record.result.taskId in tasks && application == Derived(View(), record) && Indexed(View())
      modifies this
      ensures Outcome(View(), r) == TaskStore.ApplyResult(old(View()), record.id, now)
    {
      hide DeriveApplication, Indexed;
      var id := record.id;
      var t := record.result.taskId;
      if !application.accepted {
        results := results[id := record.(applyStatus := Rejected, rejectedAt := Some(now), reason := application.reason)];
        AppendEvent(t, ResultRejected, now);
        return Ok(None);
      }
      if t in applied {
        if applied[t].resultId != id {
          return Err(ResultConflict);
        }
        results := results[id := record.(applyStatus := Applied, appliedAt := Some(now))];
        return Ok(None);
      }
      var enteredAt := if application.outcome == Candidate then record.receivedAt else now;
      var action := AppliedAction(t, id, application.outcome, application.action, enteredAt, now);
      applied := applied[t := action];
      results := results[id := record.(applyStatus := Applied, appliedAt := Some(now), reason := application.reason)];
      AppendEvent(t, ResultApplied, now);
      return Ok(Some(action));
    }
  }

  lemma PendingIsByReceipt(s: Store, batch: seq<ResultRecord>)
    requires PendingBatch(s, batch)
    ensures ByReceipt(batch)
  {
    hide Less, Distinct, OwnResult;
    SortedByReceipt(batch);
  }

  lemma ResultIdsAreKeys(s: Store)
    requires Inv(s)
    ensures forall r | r in s.results :: s.results[r].id == r
  {
    hide TasksOk, TimesOk, SlotsOk, MarksOk, ActionsOk, LogOk;
    forall r | r in s.results ensures s.results[r].id == r {
      assert Named(r, s.results[r]);
    }
  }

  // -------------------------------------------- finalizer and consumer loops

  class ArenaResultConsumer {
    const repository: MemoryArenaCoreRepository

    constructor (repository: MemoryArenaCoreRepository)
      ensures this.repository == repository
    {
      this.repository := repository;
    }

    /** Apply up to `limit` pending results: each of them yields exactly one new action. */
    method ConsumePending(now: int, limit: int) returns (actions: seq<AppliedAction>)
      requires repository.Valid()
      modifies repository
      ensures repository.Valid() && Grew(repository.View(), old(repository.View()))
      ensures |actions| <= if limit <= 0 then 0 else limit
      ensures forall i | 0 <= i < |actions| ::
                && actions[i].taskId in repository.applied && actions[i].taskId !in old(repository.applied)
                && repository.applied[actions[i].taskId] == actions[i]
      ensures limit >= |old(repository.results)| ==>
                forall t | t in old(repository.byTask) :: t in repository.applied
    {
      hide Inv, Grew, After, PendingQueue;
      ghost var s := repository.View();
      var batch;
      ghost var queue;
      batch, queue := repository.PendingResults(limit);
      actions := ApplyBatch(batch, now);
      RunsOnlyGrow(s, Applies(batch, now));
      if limit >= |s.results| {
        assert batch == queue;
        forall t | t in s.byTask ensures t in repository.applied {
          WholeQueueAppliesAll(s, queue, now, t);
        }
      }
    }

    method ApplyBatch(batch: seq<ResultRecord>, now: int) returns (actions: seq<AppliedAction>)
      requires repository.Valid() && PendingBatch(repository.View(), batch)
      modifies repository
      ensures repository.Valid() && repository.View() == After(old(repository.View()), Applies(batch, now))
      ensures |actions| == |batch|
      ensures forall i | 0 <= i < |actions| ::
                && actions[i].taskId in repository.applied && actions[i].taskId !in old(repository.applied)
                && repository.applied[actions[i].taskId] == actions[i]
    {
      hide Inv, After, ApplyResult, OwnResult, SortedBy;
      ghost var s := repository.View();
      AfterNothing(s);
      actions := [];
      var i := 0;
      while i < |batch|
        invariant 0 <= i <= |batch| && repository.Valid() && repository.View() == After(s, Applies(batch[..i], now))
        invariant |actions| == i
        invariant forall j | 0 <= j < i ::
                    && actions[j].taskId in repository.applied && actions[j].taskId !in s.applied
                    && repository.applied[actions[j].taskId] == actions[j]
      {
        ghost var before := repository.View();
        NextIsPending(s, batch, i, now, batch[i]);
        assert batch[..i + 1][..i] == batch[..i];
        AfterOneMore(s, Applies(batch[..i], now), Apply(batch[i].id, now));
        var r := repository.ApplyResult(batch[i].id, now);
        ApplyEnters(before, batch[i].id, now);
        RunsOnlyGrow(s, Applies(batch[..i], now));
        NotAppliedEarlier(before, s, r.value.value.taskId);
        actions := actions + [r.value.value];
        i := i + 1;
      }
      assert batch[..i] == batch;
    }
  }

  lemma NotAppliedEarlier(t: Store, s: Store, k: TaskId)
    requires Grew(t, s) && k !in t.applied
    ensures k !in s.applied
  {
  }

  lemma ApplyEnters(s: Store, id: ResultId, now: int)
    requires Inv(s) && id in s.results && s.results[id].applyStatus == Pending
    ensures Indexed(s)
    ensures var o := TaskStore.ApplyResult(s, id, now);
            && o.result.Ok? && o.result.value.Some?
            && o.result.value.value.taskId !in s.applied
            && o.state.applied == s.applied[o.result.value.value.taskId := o.result.value.value]
  {
    hide Inv, DeriveApplication, Indexed;
    InvIndexed(s);
    PendingIsUnapplied(s, id);
    ApplyKeepsInv(s, id, now);
  }

  /**
   * The finalizer and then the consumer, with limits no smaller than the number of tasks, leave
   * every task whose deadline has passed with one applied action, logged once.
   */
  method Converge(repository: MemoryArenaCoreRepository, consumer: ArenaResultConsumer, now: int, later: int, limit: int)
    requires repository.Valid() && consumer.repository == repository && limit >= |repository.tasks|
    modifies repository
    ensures repository.Valid() && Grew(repository.View(), old(repository.View()))
    ensures forall t | t in old(repository.tasks) && old(repository.tasks)[t].task.deadline <= now ::
              t in repository.applied && Tally(repository.events, t, Applying) == 1
  {
    hide Inv, Grew, Eligible, After, ExpiredBatch, Less, Tally;
    ghost var s := repository.View();
    var batch, _ := repository.FinalizeExpired(now, limit);
    ghost var mid := repository.View();
    RunsOnlyGrow(s, Finalizes(batch, now));
    FinalizesKeepTasks(s, batch, now);
    assert |mid.tasks| == |mid.tasks.Keys| == |s.tasks.Keys| == |s.tasks|;
    ResultsWithinTasks(mid);
    var _ := consumer.ConsumePending(later, limit);
    GrewIsTransitive(s, mid, repository.View());
    forall t | t in s.tasks && s.tasks[t].task.deadline <= now
      ensures t in repository.applied && Tally(repository.events, t, Applying) == 1 {
      SameContract(mid, s, t);
      ExpiredHasResult(mid, t, now);
      AppliedOnce(repository.View(), t);
    }
  }
}
