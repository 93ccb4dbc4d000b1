/** The worker's ready queue as the source has it: fields updated in place, one locked section per method. */
module WorkerQueue {
  import opened Basics
  import opened Models
  import opened QueueSpec
  import opened QueueLaws

  /** What every section that may change the queue reports. */
  datatype QueueChange = QueueChange(accepted: bool, size: nat, capacity: int, warn: bool, reason: Option<Reason>)

  ghost function Change(q: Queue, accepted: bool, reason: Option<Reason>): QueueChange {
    QueueChange(accepted, q.Size(), q.capacity, q.Warn(), reason)
  }

  /** A refusal names its reason. */
  ghost function Verdict(q: Queue, why: Reason): QueueChange {
    Change(q, why == Admitted, if why == Admitted then None else Some(why))
  }

  /** deque.remove: takes out the first task equal to `t`. */
  function RemoveFirst(ts: seq<Task>, t: Task): seq<Task> {
    if |ts| == 0 then [] else if ts[0] == t then ts[1..] else [ts[0]] + RemoveFirst(ts[1..], t)
  }

  /** Removing the first equal task takes out the very one that was found by its id. */
  lemma {:induction false} RemoveFound(ts: seq<Task>, i: nat)
    requires i < |ts| && forall j :: 0 <= j < i ==> ts[j].id != ts[i].id
    ensures RemoveFirst(ts, ts[i]) == Without(ts, i)
  {
    if i == 0 {
      assert Without(ts, 0) == ts[1..];
    } else {
      assert ts[0] != ts[i];
      RemoveFound(ts[1..], i - 1);
      assert Without(ts, i) == [ts[0]] + Without(ts[1..], i - 1);
    }
  }

  /** The first task with its id, and nothing else, is gone. */
  ghost predicate TakenOut(before: seq<Task>, after: seq<Task>, t: Task) {
    exists i :: 0 <= i < |before| && before[i] == t && (forall j :: 0 <= j < i ==> before[j].id != t.id)
                && after == before[..i] + before[i + 1..]
  }

  lemma FindUnique(ts: seq<Task>, id: TaskId, i: nat)
    requires i <= |ts| && (forall j :: 0 <= j < i ==> ts[j].id != id) && (i < |ts| ==> ts[i].id == id)
    ensures Find(ts, id) == i
  {
  }

  class ReadyQueue {
    const capacity: int
    var normal: seq<Task>
    var priority: seq<Task>
    var reserved: map<TaskId, Held>
    var active: set<TaskId>
    var processing: Option<TaskId>

    ghost function State(): Queue
      reads this
    {
      Queue(capacity, normal, priority, reserved, active, processing)
    }

    constructor (capacity: int)
      requires capacity > 0
      ensures State() == Empty(capacity) && Inv(State())
    {
      this.capacity := capacity;
      normal, priority, reserved, active, processing := [], [], map[], {}, None;
    }

    /** The source's constructor raises unless the capacity is positive. */
    static method Create(capacity: int) returns (r: Result<ReadyQueue, Error>)
      ensures r.Ok? <==> capacity > 0
      ensures r.Ok? ==> fresh(r.value) && r.value.State() == Empty(capacity) && Inv(r.value.State())
    {
      if capacity <= 0 {
        return Err(Invalid);
      }
      var queue := new ReadyQueue(capacity);
      r := Ok(queue);
    }

    function SizeLocked(): nat
      reads this
    {
      |normal| + |priority| + |reserved|
    }

    method ResultLocked(accepted: bool, reason: Option<Reason>) returns (r: QueueChange)
      ensures r == Change(State(), accepted, reason)
      ensures r.accepted == accepted && r.reason == reason && r.size == |normal| + |priority| + |reserved|
      ensures r.capacity == capacity && (r.warn <==> 10 * r.size > 7 * r.capacity)
    {
      r := QueueChange(accepted, SizeLocked(), capacity, 10 * SizeLocked() > 7 * capacity, reason);
    }

    method TryEnqueue(task: Task, priority: bool) returns (r: QueueChange)
      modifies this
      ensures State() == QueueSpec.TryEnqueue(old(State()), task, priority).0
      ensures r == Verdict(State(), QueueSpec.TryEnqueue(old(State()), task, priority).1)
      ensures task.id in old(active) ==> State() == old(State()) && !r.accepted && r.reason == Some(Duplicate)
      ensures task.id !in old(active) && |old(normal)| + |old(this.priority)| + |old(reserved)| >= capacity ==>
                State() == old(State()) && !r.accepted && r.reason == Some(Full)
      ensures task.id !in old(active) && |old(normal)| + |old(this.priority)| + |old(reserved)| < capacity ==>
                && r.accepted && r.reason.None?
                && this.priority == (if priority then old(this.priority) + [task] else old(this.priority))
                && normal == (if priority then old(normal) else old(normal) + [task])
                && active == old(active) + {task.id} && reserved == old(reserved) && processing == old(processing)
      ensures r.size == |normal| + |this.priority| + |reserved| && r.capacity == capacity
      ensures r.warn <==> 10 * r.size > 7 * capacity
    {
      if task.id in active {
        r := ResultLocked(false, Some(Duplicate));
        return;
      }
      if SizeLocked() >= capacity {
        r := ResultLocked(false, Some(Full));
        return;
      }
      if priority {
        this.priority := this.priority + [task];
      } else {
        normal := normal + [task];
      }
      active := active + {task.id};
      r := ResultLocked(true, None);
    }

    method TryEnqueueMany(tasks: seq<Task>) returns (r: QueueChange)
      modifies this
      ensures State() == QueueSpec.TryEnqueueMany(old(State()), tasks).0
      ensures r == Verdict(State(), QueueSpec.TryEnqueueMany(old(State()), tasks).1)
      ensures var repeated := exists i, j :: 0 <= i < j < |tasks| && tasks[i].id == tasks[j].id;
              var known := exists t <- tasks :: t.id in old(active);
              var fits := |old(normal)| + |old(priority)| + |old(reserved)| + |tasks| <= capacity;
              && r.reason == (if repeated || known then Some(Duplicate) else if fits then None else Some(Full))
              && r.accepted == r.reason.None?
      ensures !r.accepted ==> State() == old(State())
      ensures r.accepted ==>
                && normal == old(normal) + tasks && priority == old(priority)
                && active == old(active) + (set t <- tasks :: t.id)
                && reserved == old(reserved) && processing == old(processing)
    {
      ManyVerdict(State(), tasks);
      IdsSet(tasks);
      hide Ids;
      var ids := Ids(tasks);
      if |tasks| != |ids| {
        r := ResultLocked(false, Some(Duplicate));
        return;
      }
      if ids * active != {} {
        r := ResultLocked(false, Some(Duplicate));
        return;
      }
      if SizeLocked() + |tasks| > capacity {
        r := ResultLocked(false, Some(Full));
        return;
      }
      normal := normal + tasks;
      active := active + ids;
      r := ResultLocked(true, None);
    }

    method DequeueForProcessing() returns (task: Option<Task>)
      modifies this
      ensures State() == Dequeue(old(State())).0 && task == Dequeue(old(State())).1
      ensures task == if |old(priority)| > 0 then Some(old(priority)[0])
                      else if |old(normal)| > 0 then Some(old(normal)[0]) else None
      ensures priority == if |old(priority)| > 0 then old(priority)[1..] else old(priority)
      ensures normal == if |old(priority)| == 0 && |old(normal)| > 0 then old(normal)[1..] else old(normal)
      ensures processing == if task.Some? then Some(task.value.id) else old(processing)
      ensures active == old(active) && reserved == old(reserved)
    {
      task := None;
      if |priority| > 0 {
        task, priority := Some(priority[0]), priority[1..];
      } else if |normal| > 0 {
        task, normal := Some(normal[0]), normal[1..];
      }
      if task.Some? {
        processing := Some(task.value.id);
      }
    }

    method MarkProcessingDone() returns (r: QueueChange)
      modifies this
      ensures State() == MarkDone(old(State())) && r == Change(State(), true, None)
      ensures active == (if old(processing).Some? then old(active) - {old(processing).value} else old(active))
      ensures processing.None? && r.accepted
      ensures normal == old(normal) && priority == old(priority) && reserved == old(reserved)
    {
      if processing.Some? {
        active := active - {processing.value};
      }
      processing := None;
      r := ResultLocked(true, None);
    }

    /** Under the joint invariant a status can be built whenever the capacity is the prescribed one. */
    method SnapshotStatus(worker: WorkerId) returns (r: Result<WorkerStatus, Error>)
      ensures r == MakeStatus(WorkerStatus(worker, State().Size(), capacity, processing))
      ensures Inv(State()) ==> (r.Ok? <==> worker != "" && capacity == QUEUE_CAPACITY)
      ensures Inv(State()) && r.Ok? ==> r.value.AvailableCapacity() == capacity - State().Size() >= 0
      ensures r.Ok? ==> r.value == WorkerStatus(worker, |normal| + |priority| + |reserved|, capacity, processing)
    {
      r := MakeStatus(WorkerStatus(worker, SizeLocked(), capacity, processing));
    }

    method PeekTransferCandidates(count: int) returns (r: Result<seq<Task>, Error>)
      ensures r.Ok? <==> count > 0
      ensures r.Ok? ==> r.value == Peek(State(), count)
      ensures r.Ok? ==>
                var n := if |normal| < count then |normal| else count;
                var p := if |priority| < count - n then |priority| else count - n;
                r.value == normal[|normal| - n..] + priority[|priority| - p..]
    {
      if count <= 0 {
        return Err(Invalid);
      }
      PeekFields(State(), count);
      hide Peek;
      var candidates := if |normal| < count then normal else normal[|normal| - count..];
      if |candidates| < count {
        var needed := count - |candidates|;
        candidates := candidates + (if |priority| < needed then priority else priority[|priority| - needed..]);
      }
      r := Ok(candidates);
    }

    /** Walks the normal class, then the priority class, and moves the first task of that id into the reserved map. */
    method ReserveForTransfer(id: TaskId) returns (task: Option<Task>)
      modifies this
      ensures State() == Reserve(old(State()), id).0 && task == Reserve(old(State()), id).1
      ensures task.None? <==> (forall t <- old(normal) :: t.id != id) && (forall t <- old(priority) :: t.id != id)
      ensures task.None? ==> State() == old(State())
      ensures task.Some? ==>
                var late := forall t <- old(normal) :: t.id != id;
                && task.value.id == id && active == old(active) && processing == old(processing)
                && reserved == old(reserved)[id := Held(task.value, late)]
                && (if late then TakenOut(old(priority), priority, task.value) && normal == old(normal)
                    else TakenOut(old(normal), normal, task.value) && priority == old(priority))
    {
      for i := 0 to |normal|
        invariant forall j :: 0 <= j < i ==> normal[j].id != id
        invariant State() == old(State())
      {
        if normal[i].id == id {
          FindUnique(normal, id, i);
          RemoveFound(normal, i);
          assert normal[i] in normal;
          task, normal, reserved := Some(normal[i]), RemoveFirst(normal, normal[i]),
              reserved[id := Held(normal[i], false)];
          return;
        }
      }
      FindUnique(normal, id, |normal|);
      for i := 0 to |priority|
        invariant forall j :: 0 <= j < i ==> priority[j].id != id
        invariant State() == old(State())
      {
        if priority[i].id == id {
          FindUnique(priority, id, i);
          RemoveFound(priority, i);
          assert priority[i] in priority;
          task, priority, reserved := Some(priority[i]), RemoveFirst(priority, priority[i]),
              reserved[id := Held(priority[i], true)];
          return;
        }
      }
      FindUnique(priority, id, |priority|);
      task := None;
    }

    method ConfirmRemoved(id: TaskId) returns (r: QueueChange)
      modifies this
      ensures State() == Confirm(old(State()), id).0 && r == Change(State(), Confirm(old(State()), id).1, None)
      ensures r.accepted <==> id in old(reserved)
      ensures reserved == old(reserved) - {id}
      ensures active == if id in old(reserved) then old(active) - {id} else old(active)
      ensures normal == old(normal) && priority == old(priority) && processing == old(processing)
    {
      var found := id in reserved;
      if found {
        reserved := reserved - {id};
        active := active - {id};
      }
      r := ResultLocked(found, None);
    }

    /** Back to the front of its own class. */
    method ReleaseReservation(id: TaskId) returns (r: QueueChange)
      modifies this
      ensures State() == Release(old(State()), id).0 && r == Change(State(), Release(old(State()), id).1, None)
      ensures r.accepted <==> id in old(reserved)
      ensures reserved == old(reserved) - {id} && active == old(active) && processing == old(processing)
      ensures id in old(reserved) ==>
                var held := old(reserved)[id];
                && priority == (if held.priority then [held.task] + old(priority) else old(priority))
                && normal == (if held.priority then old(normal) else [held.task] + old(normal))
      ensures id !in old(reserved) ==> normal == old(normal) && priority == old(priority)
    {
      var found := id in reserved;
      if found {
        var held := reserved[id];
        reserved := reserved - {id};
        if held.priority {
          priority := [held.task] + priority;
        } else {
          normal := [held.task] + normal;
        }
      }
      r := ResultLocked(found, None);
    }
  }
}
