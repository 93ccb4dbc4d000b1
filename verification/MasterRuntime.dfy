/**
 * The master's mutable scheduler: the retry heap with its growing counter, the loops that skip stale
 * entries, and the loops over workers. Every locked section refines its counterpart in MasterSpec.
 */
module MasterScheduler {
  import opened Basics
  import opened Models
  import opened Generation
  import opened MasterSpec
  import opened MasterLaws
  import opened MasterRuns

  /** The ids of heap entries, in order. */
  function Second(entries: seq<(nat, TaskId)>): seq<TaskId> {
    seq(|entries|, i requires 0 <= i < |entries| => entries[i].1)
  }

  /** `fifo` lists the heap's entries by strictly growing number, none above the counter. */
  ghost predicate Sorted(heap: set<(nat, TaskId)>, fifo: seq<(nat, TaskId)>, order: nat) {
    && Elems(fifo) == heap
    && (forall i, j :: 0 <= i < j < |fifo| ==> fifo[i].0 < fifo[j].0)
    && (forall i :: 0 <= i < |fifo| ==> fifo[i].0 <= order)
  }

  /** Pushing with a fresh number appends. */
  lemma PushAppends(heap: set<(nat, TaskId)>, fifo: seq<(nat, TaskId)>, order: nat, id: TaskId)
    requires Sorted(heap, fifo, order)
    ensures Sorted(heap + {(order + 1, id)}, fifo + [(order + 1, id)], order + 1)
    ensures Second(fifo + [(order + 1, id)]) == Second(fifo) + [id]
  {
  }

  /** The head carries the smallest number, alone. */
  lemma HeadIsMinimum(heap: set<(nat, TaskId)>, fifo: seq<(nat, TaskId)>, order: nat)
    requires Sorted(heap, fifo, order) && fifo != []
    ensures fifo[0] in heap && forall f :: f in heap && f != fifo[0] ==> fifo[0].0 < f.0
  {
  }

  /** Taking the head out of the heap takes it off the front of the list. */
  lemma PopDrops(heap: set<(nat, TaskId)>, fifo: seq<(nat, TaskId)>, order: nat)
    requires Sorted(heap, fifo, order) && fifo != []
    ensures Sorted(heap - {fifo[0]}, fifo[1..], order)
    ensures Second(fifo[1..]) == Second(fifo)[1..] && Second(fifo)[0] == fifo[0].1
  {
  }

  /** The assignment_worker_id of a result message, the sender when the field is absent. */
  function Assignee(sender: WorkerId, field: Option<WorkerId>): WorkerId {
    if field.Some? then field.value else sender
  }

  datatype Outcome = Finished | NobodyLeft | Wait | Send(assignment: Assignment)

  // ---- the tables built from the generated tasks ----------------------------------------------

  function TaskTable(ts: seq<Task>): map<TaskId, Task> {
    if |ts| == 0 then map[] else TaskTable(ts[..|ts| - 1])[ts[|ts| - 1].id := ts[|ts| - 1]]
  }

  function AllPending(ts: seq<Task>): map<TaskId, Status> {
    if |ts| == 0 then map[] else AllPending(ts[..|ts| - 1])[ts[|ts| - 1].id := Pending]
  }

  lemma {:induction false} TableKeys(ts: seq<Task>)
    ensures TaskTable(ts).Keys == AllPending(ts).Keys == Elems(TaskIds(ts))
    ensures forall id :: id in AllPending(ts) ==> AllPending(ts)[id] == Pending
  {
    hide TaskIds;
    if |ts| == 0 {
      assert TaskIds(ts) == [];
    } else {
      var n := |ts| - 1;
      TableKeys(ts[..n]);
      TaskIdsLast(ts);
      assert Elems(TaskIds(ts)) == Elems(TaskIds(ts[..n])) + {ts[n].id};
    }
  }

  lemma {:induction false} TableEntries(ts: seq<Task>)
    ensures forall id :: id in TaskTable(ts) ==> TaskTable(ts)[id] in ts && TaskTable(ts)[id].id == id
  {
    if |ts| == 0 {
    } else {
      var n := |ts| - 1;
      TableEntries(ts[..n]);
      assert ts[n] in ts && forall t :: t in ts[..n] ==> t in ts;
    }
  }

  /** The id of the last of generated tasks is not among the others. */
  lemma LastIsNew(ts: seq<Task>)
    requires Generated(ts) && |ts| > 0
    ensures Generated(ts[..|ts| - 1]) && ts[|ts| - 1].id !in TaskTable(ts[..|ts| - 1])
  {
    var n := |ts| - 1;
    var front := ts[..n];
    TableEntries(front);
    forall t | t in front ensures t.id != ts[n].id {
      var i :| 0 <= i < n && front[i] == t;
      assert ts[i] == t;
    }
  }

  lemma {:induction false} TableAt(ts: seq<Task>, i: nat)
    requires Generated(ts) && i < |ts|
    ensures ts[i].id in TaskTable(ts) && TaskTable(ts)[ts[i].id] == ts[i]
  {
    var n := |ts| - 1;
    if i < n {
      TableAt(ts[..n], i);
      assert ts[i].id != ts[n].id;
    }
  }

  lemma {:induction false} TableIds(ts: seq<Task>)
    requires Generated(ts)
    ensures NoDup(TaskIds(ts)) && |TaskTable(ts)| == |ts|
  {
    hide TaskIds, Generated, AllPending;
    if |ts| == 0 {
    } else {
      var n := |ts| - 1;
      LastIsNew(ts);
      TableIds(ts[..n]);
      TaskIdsLast(ts);
      TableKeys(ts[..n]);
      assert ts[n].id !in Elems(TaskIds(ts[..n]));
      assert TaskTable(ts).Keys == TaskTable(ts[..n]).Keys + {ts[n].id};
      assert |TaskTable(ts)| == |TaskTable(ts).Keys|;
    }
  }

  lemma PreparedInitial(ts: seq<Task>, workers: map<WorkerId, Conn>)
    requires Generated(ts)
    requires forall w :: w in workers ==> workers[w] == Conn(true, 0, QUEUE_CAPACITY, {})
    ensures Initial(Master(TaskTable(ts), AllPending(ts), TaskIds(ts), [], map[], workers))
  {
    TableKeys(ts);
    TableEntries(ts);
    TableIds(ts);
    var tasks := TaskTable(ts);
    forall a, b | a in tasks && b in tasks && tasks[a].key == tasks[b].key ensures a == b {
      var i :| 0 <= i < |ts| && ts[i] == tasks[a];
      var j :| 0 <= j < |ts| && ts[j] == tasks[b];
    }
    assert AllPending(ts) == (map id | id in tasks :: Pending);
  }

  class MasterRuntime {
    const taskCount: nat
    var tasks: map<TaskId, Task>
    var taskState: map<TaskId, Status>
    var normalTasks: seq<TaskId>
    var retryTasks: set<(nat, TaskId)>
    var retryOrder: nat
    var store: map<string, int>
    var workers: map<WorkerId, Conn>
    ghost var fifo: seq<(nat, TaskId)>

    ghost function Abs(): Master
      reads this
    {
      Master(tasks, taskState, normalTasks, Second(fifo), store, workers)
    }

    ghost predicate Valid()
      reads this
    {
      Sorted(retryTasks, fifo, retryOrder) && Inv(Abs()) && taskCount == |tasks|
    }

    /** Nothing prepared yet; the registered workers are connected and empty. */
    constructor (count: nat, workerIds: set<WorkerId>)
      ensures taskCount == count && tasks == map[] && taskState == map[] && normalTasks == [] && store == map[]
      ensures retryTasks == {} && fifo == [] && retryOrder == 0
      ensures workers == (map w | w in workerIds :: Conn(true, 0, QUEUE_CAPACITY, {}))
    {
      taskCount := count;
      tasks, taskState, normalTasks, store := map[], map[], [], map[];
      retryTasks, retryOrder := {}, 0;
      workers := map w | w in workerIds :: Conn(true, 0, QUEUE_CAPACITY, {});
      fifo := [];
    }

    method PrepareTasks(generated: seq<Task>)
      requires tasks == map[] && taskState == map[] && normalTasks == []
      requires Generated(generated)
      modifies this`tasks, this`taskState, this`normalTasks
      ensures tasks == TaskTable(generated) && taskState == AllPending(generated) && normalTasks == TaskIds(generated)
      ensures |tasks| == |generated| && taskState.Keys == tasks.Keys
      ensures forall i :: 0 <= i < |generated| ==>
                && generated[i].id in tasks && tasks[generated[i].id] == generated[i]
                && taskState[generated[i].id] == Pending
      ensures |normalTasks| == |generated| && forall i :: 0 <= i < |generated| ==> normalTasks[i] == generated[i].id
    {
      for i := 0 to |generated|
        invariant tasks == TaskTable(generated[..i])
        invariant taskState == AllPending(generated[..i])
        invariant normalTasks == TaskIds(generated[..i])
      {
        var task := generated[i];
        assert generated[..i + 1][..i] == generated[..i];
        TaskIdsLast(generated[..i + 1]);
        tasks := tasks[task.id := task];
        taskState := taskState[task.id := Pending];
        normalTasks := normalTasks + [task.id];
      }
      assert generated[..|generated|] == generated;
      TableIds(generated);
      TableKeys(generated);
      forall i | 0 <= i < |generated|
        ensures generated[i].id in tasks && tasks[generated[i].id] == generated[i] && normalTasks[i] == generated[i].id
      {
        TableAt(generated, i);
        TaskIdsAt(generated, i);
      }
    }

    /** A constructed and prepared master starts every run of MasterRuns. */
    lemma Prepared(generated: seq<Task>)
      requires Generated(generated) && |generated| == taskCount
      requires tasks == TaskTable(generated) && taskState == AllPending(generated) && normalTasks == TaskIds(generated)
      requires retryTasks == {} && fifo == [] && store == map[]
      requires forall w :: w in workers ==> workers[w] == Conn(true, 0, QUEUE_CAPACITY, {})
      ensures Valid() && Initial(Abs())
    {
      hide Inv, Initial, Generated, TaskTable, AllPending, TaskIds;
      TableIds(generated);
      PreparedInitial(generated, workers);
      InitialInv(Abs());
    }

    // ---- helpers called under the lock --------------------------------------------------------

    method ClearAssignmentLocked(id: TaskId)
      modifies this`workers
      ensures workers == ClearAssignment(old(workers), id)
      ensures workers.Keys == old(workers).Keys
      ensures forall w :: w in workers ==> workers[w] == old(workers)[w].(held := old(workers)[w].held - {id})
    {
      var todo := workers.Keys;
      while todo != {}
        invariant todo <= workers.Keys == old(workers).Keys
        invariant forall w :: w in workers ==>
                    workers[w] == if w in todo then old(workers)[w] else ClearAssignment(old(workers), id)[w]
        decreases |todo|
      {
        var w :| w in todo;
        workers := workers[w := workers[w].(held := workers[w].held - {id})];
        todo := todo - {w};
      }
    }

    method QueueRetryLocked(id: TaskId)
      requires Sorted(retryTasks, fifo, retryOrder)
      modifies this`taskState, this`retryTasks, this`retryOrder, this`fifo
      ensures Sorted(retryTasks, fifo, retryOrder)
      ensures taskState == old(taskState)[id := Retry]
      ensures Second(fifo) == Second(old(fifo)) +
              (if id in old(taskState) && old(taskState)[id] == Retry then [] else [id])
      ensures if id in old(taskState) && old(taskState)[id] == Retry
              then retryTasks == old(retryTasks) && retryOrder == old(retryOrder)
              else retryOrder == old(retryOrder) + 1 && retryTasks == old(retryTasks) + {(retryOrder, id)}
    {
      if id in taskState && taskState[id] == Retry {
        assert taskState == taskState[id := Retry];
        return;
      }
      PushAppends(retryTasks, fifo, retryOrder, id);
      retryOrder := retryOrder + 1;
      taskState := taskState[id := Retry];
      retryTasks := retryTasks + {(retryOrder, id)};
      fifo := fifo + [(retryOrder, id)];
    }

    method HeapPop() returns (entry: (nat, TaskId))
      requires Sorted(retryTasks, fifo, retryOrder) && retryTasks != {}
      modifies this`retryTasks, this`fifo
      ensures Sorted(retryTasks, fifo, retryOrder)
      ensures old(fifo) != [] && entry == old(fifo)[0] && fifo == old(fifo)[1..]
      ensures |retryTasks| < old(|retryTasks|)
    {
      NonEmpty(fifo);
      HeadIsMinimum(retryTasks, fifo, retryOrder);
      PopDrops(retryTasks, fifo, retryOrder);
      entry :| entry in retryTasks && forall f :: f in retryTasks ==> entry.0 <= f.0;
      retryTasks := retryTasks - {entry};
      fifo := fifo[1..];
    }

    predicate InStatus(id: TaskId, s: Status)
      reads this`taskState
    {
      id in taskState && taskState[id] == s
    }

    /** Pops retry entries until one is not stale; `skipped` counts the stale ones. */
    method NextRetryLocked() returns (id: Option<TaskId>, ghost skipped: nat)
      requires Sorted(retryTasks, fifo, retryOrder)
      modifies this`retryTasks, this`fifo
      ensures Sorted(retryTasks, fifo, retryOrder)
      ensures skipped <= |old(fifo)| && forall j :: 0 <= j < skipped ==> !InStatus(old(fifo)[j].1, Retry)
      ensures id.Some? ==> skipped < |old(fifo)| && id == Some(old(fifo)[skipped].1) && InStatus(id.value, Retry)
      ensures id.Some? ==> fifo == old(fifo)[skipped + 1..]
      ensures id.None? ==> fifo == [] && skipped == |old(fifo)|
    {
      ghost var entries := fifo;
      skipped := 0;
      while retryTasks != {}
        invariant Sorted(retryTasks, fifo, retryOrder)
        invariant skipped <= |entries| && fifo == entries[skipped..]
        invariant forall j :: 0 <= j < skipped ==> !InStatus(entries[j].1, Retry)
        decreases |retryTasks|
      {
        hide Sorted;
        var entry := HeapPop();
        assert entry == entries[skipped] && fifo == entries[skipped + 1..];
        if entry.1 in taskState && taskState[entry.1] == Retry {
          return Some(entry.1), skipped;
        }
        skipped := skipped + 1;
      }
      NonEmpty(fifo);
      id := None;
    }

    /** The same for the deque of normal tasks. */
    method NextNormalLocked() returns (id: Option<TaskId>, ghost skipped: nat)
      modifies this`normalTasks
      ensures skipped <= |old(normalTasks)| && forall j :: 0 <= j < skipped ==> !InStatus(old(normalTasks)[j], Pending)
      ensures id.Some? ==>
              skipped < |old(normalTasks)| && id == Some(old(normalTasks)[skipped]) && InStatus(id.value, Pending)
      ensures id.Some? ==> normalTasks == old(normalTasks)[skipped + 1..]
      ensures id.None? ==> normalTasks == [] && skipped == |old(normalTasks)|
    {
      skipped := 0;
      while |normalTasks| > 0
        invariant skipped <= |old(normalTasks)| && normalTasks == old(normalTasks)[skipped..]
        invariant forall j :: 0 <= j < skipped ==> !InStatus(old(normalTasks)[j], Pending)
        decreases |normalTasks|
      {
        var next := normalTasks[0];
        normalTasks := normalTasks[1..];
        if next in taskState && taskState[next] == Pending {
          return Some(next), skipped;
        }
        skipped := skipped + 1;
      }
      id := None;
    }

    /** The head of the retry queue, else of the deque: in a valid state neither loop skips an entry. */
    method NextTaskLocked() returns (id: Option<TaskId>, priority: bool)
      requires Valid()
      modifies this`normalTasks, this`retryTasks, this`fifo
      ensures Sorted(retryTasks, fifo, retryOrder)
      ensures priority == (old(fifo) != [])
      ensures priority ==>
              && id == Some(Second(old(fifo))[0])
              && Second(fifo) == Second(old(fifo))[1..]
              && normalTasks == old(normalTasks)
      ensures !priority ==> fifo == old(fifo)
      ensures !priority && old(normalTasks) != [] ==>
              id == Some(old(normalTasks)[0]) && normalTasks == old(normalTasks)[1..]
      ensures !priority && old(normalTasks) == [] ==> id.None? && normalTasks == old(normalTasks)
    {
      NothingStale();
      if fifo != [] { PopDrops(retryTasks, fifo, retryOrder); }
      hide Inv, Sorted;
      ghost var skipped;
      id, skipped := NextRetryLocked();
      assert skipped == 0;
      if id.Some? {
        return id, true;
      }
      id, skipped := NextNormalLocked();
      return id, false;
    }

    /** The heads of the two queues are tasks in the matching state. */
    lemma Waiting(id: TaskId)
      requires Valid()
      ensures id in Second(fifo) ==> id in tasks && id in taskState && taskState[id] == Retry
      ensures id in normalTasks ==> id in tasks && id in taskState && taskState[id] == Pending
      ensures fifo != [] ==> fifo[0].1 in Second(fifo)
    {
      hide Owned, Stored;
      if fifo != [] { assert Second(fifo)[0] == fifo[0].1; }
      assert id in Second(fifo) ==> id in Elems(Second(fifo));
      assert id in normalTasks ==> id in Elems(normalTasks);
    }

    /**
     * In a valid state no queue entry is stale, so the skip loops take the head of the retry queue, else of the
     * deque.
     */
    lemma NothingStale()
      requires Valid()
      ensures forall j :: 0 <= j < |fifo| ==> InStatus(fifo[j].1, Retry)
      ensures forall j :: 0 <= j < |normalTasks| ==> InStatus(normalTasks[j], Pending)
    {
      hide Inv;
      forall j | 0 <= j < |fifo| ensures InStatus(fifo[j].1, Retry) {
        assert Second(fifo)[j] == fifo[j].1;
        Waiting(fifo[j].1);
      }
      forall j | 0 <= j < |normalTasks| ensures InStatus(normalTasks[j], Pending) {
        Waiting(normalTasks[j]);
      }
    }

    /** The first candidate in the order of most room, then smallest id. */
    method ChooseWorkerLocked(task: Task) returns (choice: Option<WorkerId>)
      ensures choice == Choose(workers, task)
      ensures choice.None? <==>
              forall v :: v in workers && workers[v].connected && workers[v].size < workers[v].capacity ==>
                task.previous == Some(v)
      ensures choice.Some? ==>
                var w := choice.value;
                && w in workers && workers[w].connected && workers[w].size < workers[w].capacity
                && task.previous != Some(w)
                && forall v :: v in workers && workers[v].connected && workers[v].size < workers[v].capacity
                               && task.previous != Some(v) ==>
                     && workers[w].capacity - workers[w].size >= workers[v].capacity - workers[v].size
                     && (workers[w].capacity - workers[w].size == workers[v].capacity - workers[v].size ==> LexLe(w, v))
    {
      choice := None;
      var todo := workers.Keys;
      while todo != {}
        invariant todo <= workers.Keys
        invariant choice.Some? ==> Eligible(workers, task, choice.value)
        invariant forall v :: v in workers.Keys - todo && Eligible(workers, task, v) ==>
                    choice.Some? && Precedes(workers, choice.value, v)
        decreases |todo|
      {
        var w :| w in todo;
        if Eligible(workers, task, w) && (choice.None? || !Precedes(workers, choice.value, w)) {
          PrefersTo(task, choice, w, workers.Keys - todo);
          choice := Some(w);
        }
        todo := todo - {w};
      }
      ChooseLaw(workers, task);
      assert choice.Some? ==> IsBest(workers, task, choice.value);
    }

    /** A candidate that beats the best so far beats everything the best so far beat. */
    lemma PrefersTo(task: Task, best: Option<WorkerId>, w: WorkerId, seen: set<WorkerId>)
      requires w in workers && seen <= workers.Keys
      requires best.Some? ==> best.value in workers && !Precedes(workers, best.value, w)
      requires forall v :: v in seen && Eligible(workers, task, v) ==> best.Some? && Precedes(workers, best.value, v)
      ensures forall v :: v in seen && Eligible(workers, task, v) ==> Precedes(workers, w, v)
      ensures Precedes(workers, w, w)
    {
      LexTotal(w, w);
      forall v | v in seen && Eligible(workers, task, v) ensures Precedes(workers, w, v) {
        LexTotal(best.value, w);
        PrecedesTransitive(workers, w, best.value, v);
      }
    }

    method PutTaskBackLocked(id: TaskId, priority: bool)
      requires Sorted(retryTasks, fifo, retryOrder)
      modifies this`normalTasks, this`retryTasks, this`retryOrder, this`taskState, this`fifo
      ensures Sorted(retryTasks, fifo, retryOrder)
      ensures priority ==> Second(fifo) == Second(old(fifo)) + [id] && normalTasks == old(normalTasks)
      ensures !priority ==> fifo == old(fifo) && normalTasks == [id] + old(normalTasks)
      ensures taskState == old(taskState)[id := if priority then Retry else Pending]
    {
      if priority {
        PushAppends(retryTasks, fifo, retryOrder, id);
        retryOrder := retryOrder + 1;
        retryTasks := retryTasks + {(retryOrder, id)};
        fifo := fifo + [(retryOrder, id)];
        taskState := taskState[id := Retry];
      } else {
        normalTasks := [id] + normalTasks;
        taskState := taskState[id := Pending];
      }
    }

    // ---- the locked sections ------------------------------------------------------------------

    /** Does the named assignee still hold the task? */
    predicate StillHeld(id: TaskId, assignee: WorkerId)
      reads this
      ensures StillHeld(id, assignee) <==> Accepts(Abs(), id, assignee)
    {
      !(id !in tasks || id !in taskState || taskState[id] != Assigned || assignee !in workers ||
          id !in workers[assignee].held)
    }

    method HandleSuccess(sender: WorkerId, id: TaskId, field: Option<WorkerId>)
      requires Valid()
      modifies this
      ensures Valid()
      ensures Abs() == Succeed(old(Abs()), id, Assignee(sender, field))
      ensures Abs() == Step(old(Abs()), Success(id, if field.Some? then field.value else sender))
      ensures var a := if field.Some? then field.value else sender;
              if id in old(tasks) && id in old(taskState) && old(taskState)[id] == Assigned
                 && a in old(workers) && id in old(workers)[a].held
              then
                && store == old(store)[old(tasks)[id].key := old(tasks)[id].value]
                && taskState == old(taskState)[id := Done]
                && workers.Keys == old(workers).Keys
                && (forall w :: w in workers ==> workers[w] == old(workers)[w].(held := old(workers)[w].held - {id}))
              else store == old(store) && taskState == old(taskState) && workers == old(workers)
      ensures tasks == old(tasks) && normalTasks == old(normalTasks)
      ensures retryTasks == old(retryTasks) && retryOrder == old(retryOrder)
    {
      hide Inv, Sorted, ClearAssignment;
      var assignee := Assignee(sender, field);
      ghost var m := Abs();
      ghost var r := Succeed(m, id, assignee);
      SucceedInv(m, id, assignee);
      if !StillHeld(id, assignee) {
        return;
      }
      var task := tasks[id];
      ClearAssignmentLocked(id);
      store := store[task.key := task.value];
      taskState := taskState[id := Done];
      assert Abs() == r;
    }

    method HandleFailure(sender: WorkerId, id: TaskId, field: Option<WorkerId>, overflow: bool)
      requires Valid()
      modifies this
      ensures Valid()
      ensures Abs() == Fail(old(Abs()), sender, id, Assignee(sender, field), overflow)
      ensures Abs() == Step(old(Abs()), Failure(sender, id, if field.Some? then field.value else sender, overflow))
      ensures var a := if field.Some? then field.value else sender;
              if id in old(tasks) && id in old(taskState) && old(taskState)[id] == Assigned
                 && a in old(workers) && id in old(workers)[a].held
              then
                var t := old(tasks)[id];
                && tasks == old(tasks)[id := t.(attempt := if overflow then t.attempt else t.attempt + 1,
                                                previous := Some(sender))]
                && taskState == old(taskState)[id := Retry]
                && retryOrder == old(retryOrder) + 1 && retryTasks == old(retryTasks) + {(retryOrder, id)}
                && workers.Keys == old(workers).Keys
                && (forall w :: w in workers ==> workers[w] == old(workers)[w].(held := old(workers)[w].held - {id}))
              else
                && tasks == old(tasks) && taskState == old(taskState) && workers == old(workers)
                && retryTasks == old(retryTasks) && retryOrder == old(retryOrder)
      ensures store == old(store) && normalTasks == old(normalTasks)
    {
      hide Inv, Sorted, ClearAssignment, Fail;
      var assignee := Assignee(sender, field);
      ghost var m := Abs();
      ghost var r := Fail(m, sender, id, assignee, overflow);
      FailInv(m, sender, id, assignee, overflow);
      FailFields(m, sender, id, assignee, overflow);
      if !StillHeld(id, assignee) {
        return;
      }
      ClearAssignmentLocked(id);
      MarkFailedLocked(sender, id, overflow);
      SameCount(m.tasks, tasks);
      assert Abs() == r;
    }

    /** An attempt more unless it was an overflow, the failing worker noted, and the task queued for a retry. */
    method MarkFailedLocked(sender: WorkerId, id: TaskId, overflow: bool)
      requires Sorted(retryTasks, fifo, retryOrder)
      requires id in tasks && id in taskState && taskState[id] == Assigned
      modifies this`tasks, this`taskState, this`retryTasks, this`retryOrder, this`fifo
      ensures Sorted(retryTasks, fifo, retryOrder)
      ensures var t := old(tasks)[id];
              tasks == old(tasks)[id := t.(attempt := if overflow then t.attempt else t.attempt + 1,
                                           previous := Some(sender))]
      ensures taskState == old(taskState)[id := Retry] && Second(fifo) == Second(old(fifo)) + [id]
      ensures retryOrder == old(retryOrder) + 1 && retryTasks == old(retryTasks) + {(retryOrder, id)}
    {
      hide Sorted;
      if !overflow {
        tasks := tasks[id := tasks[id].(attempt := tasks[id].attempt + 1)];
      }
      tasks := tasks[id := tasks[id].(previous := Some(sender))];
      QueueRetryLocked(id);
    }

    static lemma SameCount(a: map<TaskId, Task>, b: map<TaskId, Task>)
      requires a.Keys == b.Keys
      ensures |a| == |b|
    {
    }

    /** A QUEUE_STATUS on the connection of `w`: refused unless it is well-formed and names `w` itself. */
    method UpdateStatus(w: WorkerId, c: Coercions, payload: map<string, Json>) returns (r: Result<(), Error>)
      requires Valid() && w in workers
      modifies this
      ensures Valid()
      ensures var parsed := StatusFromDict(c, payload);
              && (r.Ok? <==> parsed.Ok? && parsed.value.worker == w)
              && Abs() == if r.Ok? then Report(old(Abs()), w, parsed.value.size, parsed.value.capacity) else old(Abs())
      ensures r.Ok? ==>
                var status := StatusFromDict(c, payload).value;
                && workers == old(workers)[w := old(workers)[w].(size := status.size, capacity := status.capacity)]
                && 0 <= workers[w].size <= workers[w].capacity == 10
      ensures r.Err? ==> workers == old(workers)
      ensures tasks == old(tasks) && taskState == old(taskState) && store == old(store)
      ensures normalTasks == old(normalTasks) && retryTasks == old(retryTasks) && retryOrder == old(retryOrder)
    {
      hide Inv, Sorted;
      var parsed := StatusFromDict(c, payload);
      if parsed.Err? {
        return Err(parsed.error);
      }
      var status := parsed.value;
      if status.worker != w {
        return Err(Invalid);
      }
      ReportInv(Abs(), w, status.size, status.capacity);
      workers := workers[w := workers[w].(size := status.size, capacity := status.capacity)];
      r := Ok(());
    }

    /** Requeues what the worker held, in the order its set happens to be visited. */
    method DisconnectWorker(w: WorkerId) returns (ghost order: seq<TaskId>)
      requires Valid() && w in workers
      modifies this
      ensures Valid()
      ensures old(workers)[w].connected ==> Lists(order, old(workers)[w].held)
      ensures Abs() == Disconnect(old(Abs()), w, order)
      ensures tasks.Keys == old(tasks).Keys && taskState.Keys == old(taskState).Keys
      ensures old(workers)[w].connected ==>
                var held := old(workers)[w].held;
                && workers == old(workers)[w := old(workers)[w].(connected := false, held := {})]
                && (forall id :: id in tasks ==>
                      tasks[id] == if id in held then old(tasks)[id].(previous := Some(w)) else old(tasks)[id])
                && (forall id :: id in taskState ==>
                      taskState[id] == if id in held then Retry else old(taskState)[id])
                && Second(fifo) == Second(old(fifo)) + order
      ensures !old(workers)[w].connected ==>
                && workers == old(workers) && tasks == old(tasks) && taskState == old(taskState)
                && fifo == old(fifo) && retryTasks == old(retryTasks)
      ensures store == old(store) && normalTasks == old(normalTasks)
    {
      hide Inv, Sorted;
      ghost var m := Abs();
      order := [];
      if !workers[w].connected {
        return;
      }
      HeldTasks(m, w);
      var held := workers[w].held;
      workers := workers[w := workers[w].(connected := false)];
      order := RequeueAll(held, w);
      workers := workers[w := workers[w].(held := {})];
      assert Abs() == Disconnect(m, w, order);
      SameCount(m.tasks, tasks);
      DisconnectInv(m, w, order);
    }

    static lemma HeldTasks(m: Master, w: WorkerId)
      requires Inv(m) && w in m.workers
      ensures forall id :: id in m.workers[w].held ==> id in m.tasks && id in m.state && m.state[id] == Assigned
    {
    }

    /** One turn of the loop over list(assigned_task_ids). */
    method RequeueOne(id: TaskId, w: WorkerId) returns (ghost moved: bool)
      requires Sorted(retryTasks, fifo, retryOrder) && id in tasks
      modifies this`tasks, this`taskState, this`retryTasks, this`retryOrder, this`fifo
      ensures Sorted(retryTasks, fifo, retryOrder)
      ensures moved == (id in old(taskState) && old(taskState)[id] == Assigned)
      ensures moved ==>
              && tasks == old(tasks)[id := old(tasks)[id].(previous := Some(w))]
              && taskState == old(taskState)[id := Retry]
                        && Second(fifo) == Second(old(fifo)) + [id]
      ensures !moved ==> tasks == old(tasks) && taskState == old(taskState) && fifo == old(fifo)
    {
      hide Sorted;
      moved := false;
      if id in taskState && taskState[id] == Assigned {
        tasks := tasks[id := tasks[id].(previous := Some(w))];
        QueueRetryLocked(id);
        moved := true;
      }
    }

    /** The loop over list(assigned_task_ids). */
    method RequeueAll(held: set<TaskId>, w: WorkerId) returns (ghost order: seq<TaskId>)
      requires Sorted(retryTasks, fifo, retryOrder)
      requires forall id :: id in held ==> id in tasks && id in taskState && taskState[id] == Assigned
      modifies this`tasks, this`taskState, this`retryTasks, this`retryOrder, this`fifo
      ensures Sorted(retryTasks, fifo, retryOrder) && Lists(order, held)
      ensures tasks == Requeue(old(tasks), held, w) && taskState == MarkRetry(old(taskState), held)
      ensures Second(fifo) == Second(old(fifo)) + order
    {
      hide Sorted, Requeue, MarkRetry, Lists, Second;
      order := [];
      NoneRequeued(tasks, taskState, w);
      var todo := held;
      assert held - todo == {};
      while todo != {}
        invariant todo <= held && Lists(order, held - todo)
        invariant Sorted(retryTasks, fifo, retryOrder)
        invariant tasks == Requeue(old(tasks), held - todo, w)
        invariant taskState == MarkRetry(old(taskState), held - todo)
        invariant Second(fifo) == Second(old(fifo)) + order
        decreases |todo|
      {
        var id :| id in todo;
        OneRequeued(old(tasks), old(taskState), held - todo, id, w);
        assert held - (todo - {id}) == held - todo + {id};
        ghost var moved := RequeueOne(id, w);
        ListsOneMore(order, held - todo, id);
        order := order + [id];
        todo := todo - {id};
      }
      assert held - todo == held;
    }

    static lemma ListsOneMore(order: seq<TaskId>, ids: set<TaskId>, id: TaskId)
      requires Lists(order, ids) && id !in ids
      ensures Lists(order + [id], ids + {id})
    {
    }

    static lemma NoneRequeued(tasks: map<TaskId, Task>, state: map<TaskId, Status>, w: WorkerId)
      ensures Requeue(tasks, {}, w) == tasks && MarkRetry(state, {}) == state && Lists([], {})
    {
    }

    static lemma OneRequeued(tasks: map<TaskId, Task>, state: map<TaskId, Status>, done: set<TaskId>, id: TaskId,
        w: WorkerId)
      requires id in tasks && id in state && id !in done
      ensures id in Requeue(tasks, done, w) && id in MarkRetry(state, done)
      ensures MarkRetry(state, done)[id] == state[id] && Requeue(tasks, done, w)[id] == tasks[id]
      ensures Requeue(tasks, done, w)[id := tasks[id].(previous := Some(w))] == Requeue(tasks, done + {id}, w)
      ensures MarkRetry(state, done)[id := Retry] == MarkRetry(state, done + {id})
    {
    }

    /** The distribution step under the lock, over the real heap, deque and tables. */
    method NextAssignmentLocked(now: real) returns (assignment: Option<Assignment>)
      requires Valid()
      modifies this
      ensures Valid()
      ensures Abs() == NextAssignment(old(Abs()), now).0
      ensures assignment == NextAssignment(old(Abs()), now).1
      ensures store == old(store)
      ensures old(fifo) == [] && old(normalTasks) == [] ==> assignment.None? && fifo == []
      ensures old(fifo) != [] || old(normalTasks) != [] ==>
                var id := if old(fifo) != [] then old(fifo)[0].1 else old(normalTasks)[0];
                && id in old(tasks)
                && (assignment.None? <==>
                      forall v :: v in old(workers) && old(workers)[v].connected
                                  && old(workers)[v].size < old(workers)[v].capacity ==>
                        old(tasks)[id].previous == Some(v))
                && (assignment.Some? ==> assignment.value.id == id && assignment.value.priority == (old(fifo) != []))
                && Second(fifo) == (if old(fifo) == [] then []
                                    else if assignment.None? then Second(old(fifo))[1..] + [id]
                                    else Second(old(fifo))[1..])
                && normalTasks == (if old(fifo) != [] || assignment.None? then old(normalTasks)
                                   else old(normalTasks)[1..])
      ensures assignment.None? ==>
                && tasks == old(tasks) && taskState == old(taskState) && workers == old(workers)
                && normalTasks == old(normalTasks)
      ensures assignment.Some? ==>
                var id, w := assignment.value.id, assignment.value.worker;
                && id in old(tasks) && w in old(workers)
                && tasks == old(tasks)[id := old(tasks)[id].(enqueuedAt := now, assignment := Some(w))]
                && taskState == old(taskState)[id := Assigned]
                && workers == old(workers)[w := old(workers)[w].(held := old(workers)[w].held + {id},
                                                                size := old(workers)[w].size + 1)]
      ensures assignment.Some? ==>
                var t, w, ws := old(tasks)[assignment.value.id], assignment.value.worker, old(workers);
                && ws[w].connected && ws[w].size < ws[w].capacity && t.previous != Some(w)
                && forall v :: v in ws && ws[v].connected && ws[v].size < ws[v].capacity && t.previous != Some(v) ==>
                     && ws[w].capacity - ws[w].size >= ws[v].capacity - ws[v].size
                     && (ws[w].capacity - ws[w].size == ws[v].capacity - ws[v].size ==> LexLe(w, v))
    {
      hide Inv, Sorted, NextAssignment;
      NextFields(Abs(), now);
      HeadEntry(fifo);
      assignment := TakeAndAssignLocked(now);
      HeadEntry(fifo);
    }

    /** The step as a whole, against the step on queues. */
    method TakeAndAssignLocked(now: real) returns (assignment: Option<Assignment>)
      requires Valid()
      modifies this
      ensures Valid()
      ensures Abs() == NextAssignment(old(Abs()), now).0
      ensures assignment == NextAssignment(old(Abs()), now).1
    {
      hide Inv, Sorted, NextAssignment, Choose;
      ghost var m := Abs();
      NextInv(m, now);
      Heads(m);
      var id, priority := NextTaskLocked();
      if id.None? {
        NothingWaits(m, now);
        return None;
      }
      var choice := Chosen(tasks[id.value]);
      if choice.None? {
        NobodyMay(m, now, id.value);
        PutTaskBackLocked(id.value, priority);
        return None;
      }
      var w := choice.value;
      Assigns(m, now, id.value, w);
      tasks := tasks[id.value := tasks[id.value].(enqueuedAt := now, assignment := Some(w))];
      taskState := taskState[id.value := Assigned];
      workers := workers[w := workers[w].(held := workers[w].held + {id.value}, size := workers[w].size + 1)];
      SameCount(m.tasks, tasks);
      assignment := Some(Assignment(id.value, w, priority));
    }

    method Chosen(task: Task) returns (choice: Option<WorkerId>)
      ensures choice == Choose(workers, task)
    {
      choice := ChooseWorkerLocked(task);
    }

    static lemma HeadEntry(fifo: seq<(nat, TaskId)>)
      ensures fifo != [] ==> Second(fifo) != [] && Second(fifo)[0] == fifo[0].1
      ensures fifo == [] <==> Second(fifo) == []
    {
    }

    static ghost predicate IsHead(m: Master, id: TaskId) {
      if m.retry != [] then id == m.retry[0] else m.normal != [] && id == m.normal[0]
    }

    static lemma NothingWaits(m: Master, now: real)
      requires m.retry == [] && m.normal == []
      ensures NextAssignment(m, now) == (m, None)
    {
    }

    static lemma NobodyMay(m: Master, now: real, id: TaskId)
      requires IsHead(m, id) && id in m.tasks && id in m.state && Choose(m.workers, m.tasks[id]).None?
      requires m.state[id] == if m.retry != [] then Retry else Pending
      ensures NextAssignment(m, now) == (if m.retry != [] then m.(retry := m.retry[1..] + [id]) else m, None)
      ensures m.state[id := m.state[id]] == m.state
      ensures m.retry == [] ==> [id] + m.normal[1..] == m.normal
    {
    }

    static lemma Assigns(m: Master, now: real, id: TaskId, w: WorkerId)
      requires IsHead(m, id) && id in m.tasks && Choose(m.workers, m.tasks[id]) == Some(w) && w in m.workers
      ensures NextAssignment(m, now) ==
              (Master(m.tasks[id := m.tasks[id].(enqueuedAt := now, assignment := Some(w))], m.state[id := Assigned],
                      if m.retry != [] then m.normal else m.normal[1..],
                      if m.retry != [] then m.retry[1..] else m.retry, m.store,
                      m.workers[w := m.workers[w].(held := m.workers[w].held + {id}, size := m.workers[w].size + 1)]),
               Some(Assignment(id, w, m.retry != [])))
    {
    }

    static lemma Heads(m: Master)
      requires Inv(m)
      ensures m.retry != [] ==> m.retry[0] in m.tasks && m.retry[0] in m.state && m.state[m.retry[0]] == Retry
      ensures m.normal != [] ==> m.normal[0] in m.tasks && m.normal[0] in m.state && m.state[m.normal[0]] == Pending
      ensures forall id, w :: id in m.tasks && Choose(m.workers, m.tasks[id]) == Some(w) ==> w in m.workers
    {
      if m.retry != [] { assert m.retry[0] in Elems(m.retry); }
      if m.normal != [] { assert m.normal[0] in Elems(m.normal); }
    }

    /**
     * One turn of the distribution loop: stop when the store is full, give up when nobody is left, else assign or
     * wait.
     */
    method DistributeOnce(now: real) returns (outcome: Outcome)
      requires Valid()
      modifies this
      ensures Valid()
      ensures outcome == Finished <==> forall id :: id in old(tasks) ==> old(taskState)[id] == Done
      ensures outcome == Finished ==> old(normalTasks) == [] && old(retryTasks) == {}
      ensures outcome == Finished ==> forall w :: w in old(workers) ==> old(workers)[w].held == {}
      ensures outcome != Finished ==>
              (outcome == NobodyLeft <==> forall w :: w in old(workers) ==> !old(workers)[w].connected)
      ensures outcome == Finished || outcome == NobodyLeft ==> Abs() == old(Abs())
      ensures outcome == Wait ==> Abs() == NextAssignment(old(Abs()), now).0 && NextAssignment(old(Abs()), now).1.None?
      ensures outcome.Send? ==>
              && Abs() == NextAssignment(old(Abs()), now).0
              && NextAssignment(old(Abs()), now).1 == Some(outcome.assignment)
    {
      hide Inv, Sorted;
      DoneOrNot(Abs());
      EmptyHeap();
      if |store| == taskCount {
        return Finished;
      }
      if forall w :: w in workers ==> !workers[w].connected {
        return NobodyLeft;
      }
      hide NextAssignment;
      var assignment := NextAssignmentLocked(now);
      outcome := if assignment.Some? then Send(assignment.value) else Wait;
    }

    static lemma DoneOrNot(m: Master)
      requires Inv(m)
      ensures m.state.Keys == m.tasks.Keys
      ensures |m.store| == |m.tasks| <==> forall id :: id in m.tasks ==> m.state[id] == Done
      ensures |m.store| == |m.tasks| ==>
              m.normal == [] && m.retry == [] && forall w :: w in m.workers ==> m.workers[w].held == {}
    {
      Completion(m);
    }

    lemma EmptyHeap()
      requires Sorted(retryTasks, fifo, retryOrder)
      ensures Second(fifo) == [] ==> retryTasks == {}
    {
    }
  }
}
