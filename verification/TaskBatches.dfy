/** Batches: the finalizer closes what has expired and the consumer applies what is pending, each
    in its own order and up to a limit. */
module TaskBatches {
  import opened Ordering
  import opened CandidateValidation
  import opened TaskStore
  import opened TaskInvariant
  import opened TaskRuns

  // --------------------------------------------------------------- batches

  function DeadlineKey(r: TaskRecord): Key {
    Key(r.task.deadline, r.task.id.text)
  }

  function NameOf(id: ResultId): string {
    match id
    case FromRuntime(text) => "runtime:" + text
    case Default(t) => "default:" + t.text
  }

  function ReceivedKey(r: ResultRecord): Key {
    Key(r.receivedAt, NameOf(r.id))
  }

  function Finalizes(batch: seq<TaskRecord>, now: int): seq<Call> {
    if batch == [] then [] else Finalizes(batch[..|batch| - 1], now) + [Finalize(batch[|batch| - 1].task.id, now)]
  }

  function Applies(batch: seq<ResultRecord>, now: int): seq<Call> {
    if batch == [] then [] else Applies(batch[..|batch| - 1], now) + [Apply(batch[|batch| - 1].id, now)]
  }

  lemma {:induction false} AfterOneMore(s: Store, calls: seq<Call>, c: Call)
    requires Inv(s)
    ensures Indexed(After(s, calls)) && After(s, calls + [c]) == Step(After(s, calls), c)
    decreases |calls|
  {
    hide Inv, Step;
    InvIndexed(After(s, calls));
    if calls == [] {
      assert [c][1..] == [];
    } else {
      StepKeepsInv(s, calls[0]);
      assert (calls + [c])[1..] == calls[1..] + [c];
      AfterOneMore(Step(s, calls[0]), calls[1..], c);
    }
  }

  /** Earliest deadline first, then by id. */
  ghost predicate ByDeadline(batch: seq<TaskRecord>) {
    forall i, j | 0 <= i < j < |batch| ::
      batch[i].task.deadline < batch[j].task.deadline
      || (batch[i].task.deadline == batch[j].task.deadline && !TextLess(batch[j].task.id.text, batch[i].task.id.text))
  }

  lemma SortedByDeadline(batch: seq<TaskRecord>)
    requires SortedBy(batch, DeadlineKey)
    ensures ByDeadline(batch)
  {
    hide TextLess;
  }

  lemma NotEarlier(a: TaskRecord, b: TaskRecord)
    requires !Less(DeadlineKey(a), DeadlineKey(b))
    ensures b.task.deadline <= a.task.deadline
  {
  }

  /** Earliest received first. */
  ghost predicate ByReceipt(batch: seq<ResultRecord>) {
    forall i, j | 0 <= i < j < |batch| :: batch[i].receivedAt <= batch[j].receivedAt
  }

  lemma SortedByReceipt(batch: seq<ResultRecord>)
    requires SortedBy(batch, ReceivedKey)
    ensures ByReceipt(batch)
  {
    hide TextLess;
  }

  /** What a batch of the finalizer is: distinct expired tasks, earliest deadlines first. */
  ghost predicate ExpiredBatch(s: Store, batch: seq<TaskRecord>, now: int) {
    && Distinct(batch) && SortedBy(batch, DeadlineKey)
    && (forall i | 0 <= i < |batch| :: OwnRecord(s, batch[i]) && Eligible(s, batch[i].task.id, now))
  }

  ghost predicate OwnRecord(s: Store, r: TaskRecord) {
    r.task.id in s.tasks && s.tasks[r.task.id] == r
  }

  lemma TimeoutLeavesOthers(s: Store, t: TaskId, u: TaskId, now: int)
    requires t in s.tasks
    ensures u != t ==> (Eligible(TimedOutAt(s, t, now), u, now) <==> Eligible(s, u, now))
    ensures !Eligible(TimedOutAt(s, t, now), t, now)
  {
  }

  /** After the batch exactly the expired tasks outside it are still open. */
  lemma {:induction false} BatchCloses(s: Store, batch: seq<TaskRecord>, now: int, u: TaskId)
    requires Inv(s)
    ensures Eligible(After(s, Finalizes(batch, now)), u, now) <==>
              Eligible(s, u, now) && forall i | 0 <= i < |batch| :: batch[i].task.id != u
  {
    hide Inv, Eligible, TimedOutAt, After, Indexed;
    if batch == [] {
      assert After(s, []) == s by { AfterNothing(s); }
    } else {
      var n := |batch| - 1;
      BatchCloses(s, batch[..n], now, u);
      var mid := After(s, Finalizes(batch[..n], now));
      AfterOneMore(s, Finalizes(batch[..n], now), Finalize(batch[n].task.id, now));
      EligibleIsTask(mid, batch[n].task.id, now);
      if Eligible(mid, batch[n].task.id, now) {
        TimeoutLeavesOthers(mid, batch[n].task.id, u, now);
      }
      assert (forall i | 0 <= i < |batch| :: batch[i].task.id != u) <==>
               (forall i | 0 <= i < n :: batch[..n][i].task.id != u) && batch[n].task.id != u;
    }
  }

  lemma {:induction false} FinalizesKeepTasks(s: Store, batch: seq<TaskRecord>, now: int)
    requires Inv(s)
    ensures After(s, Finalizes(batch, now)).tasks.Keys == s.tasks.Keys
  {
    hide Inv, After, Indexed;
    AfterNothing(s);
    if batch != [] {
      var n := |batch| - 1;
      FinalizesKeepTasks(s, batch[..n], now);
      AfterOneMore(s, Finalizes(batch[..n], now), Finalize(batch[n].task.id, now));
    }
  }

  lemma AppliedOnce(s: Store, t: TaskId)
    requires Inv(s) && t in s.applied
    ensures Tally(s.events, t, Applying) == 1
  {
    hide ResultsOk, TasksOk, TimesOk, SlotsOk, MarksOk, ActionsOk, Tally;
  }

  lemma AfterNothing(s: Store)
    requires Inv(s)
    ensures After(s, []) == s
  {
  }

  lemma EligibleIsTask(s: Store, t: TaskId, now: int)
    ensures Eligible(s, t, now) ==> t in s.tasks
  {
  }

  /** All expired open tasks, in the order the finalizer takes them. */
  ghost predicate ExpiredQueue(s: Store, queue: seq<TaskRecord>, now: int) {
    && ExpiredBatch(s, queue, now)
    && (forall t | Eligible(s, t, now) :: t in s.tasks && s.tasks[t] in queue)
  }

  lemma QueueFront(s: Store, queue: seq<TaskRecord>, n: nat, now: int)
    requires ExpiredQueue(s, queue, now) && n <= |queue|
    ensures ExpiredBatch(s, queue[..n], now)
  {
    hide Eligible, Less, OwnRecord;
  }

  lemma OwnIdsDiffer(s: Store, batch: seq<TaskRecord>, i: nat, j: nat)
    requires Distinct(batch) && i < j < |batch| && OwnRecord(s, batch[i]) && OwnRecord(s, batch[j])
    ensures batch[i].task.id != batch[j].task.id
  {
  }

  /** No task of a batch is closed by closing the ones before it. */
  lemma NextIsEligible(s: Store, batch: seq<TaskRecord>, n: nat, now: int)
    requires Inv(s) && ExpiredBatch(s, batch, now) && n < |batch|
    ensures Eligible(After(s, Finalizes(batch[..n], now)), batch[n].task.id, now)
  {
    hide Inv, Eligible, After, Less, OwnRecord;
    BatchCloses(s, batch[..n], now, batch[n].task.id);
    forall i | 0 <= i < |batch[..n]| ensures batch[..n][i].task.id != batch[n].task.id {
      OwnIdsDiffer(s, batch, i, n);
    }
  }

  /** What is left open after the front of the queue is closed lies behind it. */
  lemma LeftIsLater(s: Store, queue: seq<TaskRecord>, n: nat, now: int, t: TaskId, i: nat)
    requires Inv(s) && ExpiredQueue(s, queue, now) && i < n <= |queue|
    requires Eligible(After(s, Finalizes(queue[..n], now)), t, now)
    ensures t in After(s, Finalizes(queue[..n], now)).tasks
    ensures !Less(DeadlineKey(After(s, Finalizes(queue[..n], now)).tasks[t]), DeadlineKey(queue[i]))
  {
    hide Inv, Eligible, After, Less, ExpiredBatch;
    var u := After(s, Finalizes(queue[..n], now));
    BatchCloses(s, queue[..n], now, t);
    RunsOnlyGrow(s, Finalizes(queue[..n], now));
    SameContract(u, s, t);
    EligibleIsTask(u, t, now);
    EligibleIsTask(s, t, now);
    var j :| 0 <= j < |queue| && queue[j] == s.tasks[t];
    QueueFacts(s, queue, now, j);
  }

  lemma QueueFacts(s: Store, queue: seq<TaskRecord>, now: int, j: nat)
    requires Inv(s) && ExpiredQueue(s, queue, now) && j < |queue|
    ensures SortedBy(queue, DeadlineKey) && queue[j].task.id in s.tasks && s.tasks[queue[j].task.id] == queue[j]
    ensures forall t | t in s.tasks && queue[j] == s.tasks[t] :: queue[j].task.id == t
  {
    hide Less, Eligible, ResultsOk, TimesOk, SlotsOk, MarksOk, ActionsOk, LogOk;
    assert OwnRecord(s, queue[j]);
  }

  lemma SameContract(t: Store, s: Store, k: TaskId)
    requires Grew(t, s)
    ensures k in s.tasks ==> k in t.tasks && t.tasks[k].task == s.tasks[k].task
  {
  }

  lemma WholeQueueClosesAll(s: Store, queue: seq<TaskRecord>, now: int, t: TaskId)
    requires Inv(s) && ExpiredQueue(s, queue, now)
    ensures !Eligible(After(s, Finalizes(queue, now)), t, now)
  {
    hide Inv, Eligible, After, Less, ExpiredBatch;
    BatchCloses(s, queue, now, t);
    if Eligible(s, t, now) {
      var j :| 0 <= j < |queue| && queue[j] == s.tasks[t];
      QueueFacts(s, queue, now, j);
    }
  }

  /** Sorting the expired tasks found gives the queue. */
  lemma SortedIsQueue(s: Store, found: seq<TaskRecord>, now: int)
    requires Distinct(found)
    requires forall i | 0 <= i < |found| :: OwnRecord(s, found[i]) && Eligible(s, found[i].task.id, now)
    requires forall t | Eligible(s, t, now) :: t in s.tasks && s.tasks[t] in found
    ensures ExpiredQueue(s, SortBy(found, DeadlineKey), now) && |SortBy(found, DeadlineKey)| == |found|
  {
    hide Eligible, OwnRecord, Less, Distinct, SortBy;
    var queue := SortBy(found, DeadlineKey);
    SortBySorts(found, DeadlineKey);
    ReorderedStaysDistinct(found, queue);
    ReorderedHasTheSame(found, queue);
    forall i | 0 <= i < |queue| ensures OwnRecord(s, queue[i]) && Eligible(s, queue[i].task.id, now) {
      assert queue[i] in found;
    }
  }

  lemma IdsAreKeys(s: Store)
    requires Inv(s)
    ensures forall t | t in s.tasks :: s.tasks[t].task.id == t
  {
    hide ResultsOk, TimesOk, SlotsOk, MarksOk, ActionsOk, LogOk;
  }

  /** What a batch of the consumer is. */
  ghost predicate PendingBatch(s: Store, batch: seq<ResultRecord>) {
    && Distinct(batch) && SortedBy(batch, ReceivedKey)
    && (forall i | 0 <= i < |batch| :: OwnResult(s, batch[i]) && batch[i].applyStatus == Pending)
  }

  ghost predicate OwnResult(s: Store, r: ResultRecord) {
    r.id in s.results && s.results[r.id] == r
  }

  /** After the batch each of its tasks has an applied action. */
  lemma {:induction false} BatchApplies(s: Store, batch: seq<ResultRecord>, now: int, i: nat)
    requires Inv(s) && i < |batch| && OwnResult(s, batch[i])
    ensures batch[i].result.taskId in After(s, Applies(batch, now)).applied
  {
    hide Inv, After, Indexed, ApplyResult;
    var n := |batch| - 1;
    var mid := After(s, Applies(batch[..n], now));
    AfterOneMore(s, Applies(batch[..n], now), Apply(batch[n].id, now));
    if i < n {
      BatchApplies(s, batch[..n], now, i);
      StepGrows(mid, Apply(batch[n].id, now));
    } else {
      RunsOnlyGrow(s, Applies(batch[..n], now));
      ApplyKeepsInv(mid, batch[n].id, now);
    }
  }

  /** All pending results, in the order the consumer takes them. */
  ghost predicate PendingQueue(s: Store, queue: seq<ResultRecord>) {
    && PendingBatch(s, queue)
    && (forall r | r in s.results && s.results[r].applyStatus == Pending :: s.results[r] in queue)
  }

  lemma SortedIsPending(s: Store, found: seq<ResultRecord>)
    requires Distinct(found)
    requires forall i | 0 <= i < |found| :: OwnResult(s, found[i]) && found[i].applyStatus == Pending
    requires forall r | r in s.results && s.results[r].applyStatus == Pending :: s.results[r] in found
    ensures PendingQueue(s, SortBy(found, ReceivedKey)) && |SortBy(found, ReceivedKey)| == |found|
  {
    hide OwnResult, Less, Distinct, SortBy;
    var queue := SortBy(found, ReceivedKey);
    SortBySorts(found, ReceivedKey);
    ReorderedStaysDistinct(found, queue);
    ReorderedHasTheSame(found, queue);
    forall i | 0 <= i < |queue| ensures OwnResult(s, queue[i]) && queue[i].applyStatus == Pending {
      assert queue[i] in found;
    }
  }

  lemma PendingFront(s: Store, queue: seq<ResultRecord>, n: nat)
    requires PendingQueue(s, queue) && n <= |queue|
    ensures PendingBatch(s, queue[..n])
  {
    hide Less, OwnResult;
  }

  /** No result of a batch is applied by applying the ones before it. */
  lemma {:induction false} NextIsPending(s: Store, batch: seq<ResultRecord>, n: nat, now: int, r: ResultRecord)
    requires Inv(s) && n <= |batch| && OwnResult(s, r) && r.applyStatus == Pending
    requires forall i | 0 <= i < n :: OwnResult(s, batch[i]) && batch[i] != r
    ensures var u := After(s, Applies(batch[..n], now)); r.id in u.results && u.results[r.id] == r
  {
    hide Inv, After, Indexed, DeriveApplication;
    AfterNothing(s);
    if n > 0 {
      NextIsPending(s, batch, n - 1, now, r);
      assert batch[..n][..n - 1] == batch[..n - 1];
      AfterOneMore(s, Applies(batch[..n - 1], now), Apply(batch[n - 1].id, now));
      ApplyTouchesOne(After(s, Applies(batch[..n - 1], now)), batch[n - 1].id, now, r.id);
    }
  }

  lemma ApplyTouchesOne(s: Store, id: ResultId, now: int, other: ResultId)
    requires Indexed(s) && other in s.results && other != id
    ensures var u := ApplyResult(s, id, now).state; other in u.results && u.results[other] == s.results[other]
  {
    hide DeriveApplication, Indexed;
  }

  /** Applying the whole queue leaves no task with a result but without an action. */
  lemma WholeQueueAppliesAll(s: Store, queue: seq<ResultRecord>, now: int, t: TaskId)
    requires Inv(s) && PendingQueue(s, queue) && t in s.byTask
    ensures t in After(s, Applies(queue, now)).applied
  {
    hide Inv, After, PendingBatch;
    RunsOnlyGrow(s, Applies(queue, now));
    HasItsResult(s, t);
    var r := s.byTask[t];
    PendingIsUnapplied(s, r);
    if t !in s.applied {
      var j :| 0 <= j < |queue| && queue[j] == s.results[r];
      BatchApplies(s, queue, now, j);
    } else {
      StaysApplied(After(s, Applies(queue, now)), s, t);
    }
  }

  lemma StaysApplied(u: Store, s: Store, t: TaskId)
    requires Grew(u, s) && t in s.applied
    ensures t in u.applied && u.applied[t] == s.applied[t]
  {
  }

  lemma HasItsResult(s: Store, t: TaskId)
    requires Inv(s) && t in s.byTask
    ensures s.byTask[t] in s.results && s.results[s.byTask[t]].result.taskId == t
  {
    hide TasksOk, TimesOk, SlotsOk, MarksOk, ActionsOk, LogOk, Named;
  }

  /** An expired task that is no longer open has a result. */
  lemma ExpiredHasResult(s: Store, t: TaskId, now: int)
    requires Inv(s) && t in s.tasks && s.tasks[t].task.deadline <= now && !Eligible(s, t, now)
    ensures t in s.byTask
  {
    hide ResultsOk, TimesOk, SlotsOk, MarksOk, ActionsOk, LogOk;
  }

  /** There are no more results than tasks. */
  lemma {:induction false} FewerResults(results: Results, ids: set<TaskId>)
    requires forall q | q in results :: results[q].result.taskId in ids
    requires forall q, r | q in results && r in results && results[q].result.taskId == results[r].result.taskId :: q == r
    ensures |results| <= |ids|
    decreases |results|
  {
    if results != map[] {
      var r :| r in results;
      var t := results[r].result.taskId;
      FewerResults(results - {r}, ids - {t});
      assert |ids| == |ids - {t}| + 1;
    }
  }

  lemma ResultsWithinTasks(s: Store)
    requires Inv(s)
    ensures |s.results| <= |s.tasks|
  {
    hide SlotsOk, MarksOk, ActionsOk, LogOk, Timely, Named;
    FewerResults(s.results, s.tasks.Keys);
  }
}
