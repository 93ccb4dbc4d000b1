/**
 * Queueing times: a task is stamped with the worker's clock before it is queued and its wait is read off when
 * it leaves the queue (src/kvstore/worker/runtime.py, src/kvstore/worker/p2p.py). The clock never runs back,
 * so the wait is never negative.
 */
module Timing {
  import opened Basics
  import opened Models
  import opened QueueSpec
  import opened QueueLaws
  import Clock

  ghost predicate Stamped(ts: seq<Task>, now: real) {
    forall t <- ts :: t.enqueuedAt <= now
  }

  ghost predicate ReservedStamped(reserved: map<TaskId, Held>, now: real) {
    forall id <- reserved :: reserved[id].task.enqueuedAt <= now
  }

  ghost predicate Timely(q: Queue, now: real) {
    Stamped(q.normal, now) && Stamped(q.priority, now) && ReservedStamped(q.reserved, now)
  }

  datatype Timed = Timed(queue: Queue, now: real)

  datatype TimedOp = Ticks(tick: Clock.Tick) | Queues(op: Op)

  function Apply(s: Timed, o: TimedOp): Timed {
    match o
    case Ticks(tick) => s.(now := Clock.After(s.now, tick))
    case Queues(op) => s.(queue := QueueLaws.Apply(s.queue, op))
  }

  /** What is queued was stamped earlier. */
  ghost predicate Allowed(s: Timed, o: TimedOp) {
    && (o.Queues? && o.op.OpEnqueue? ==> o.op.task.enqueuedAt <= s.now)
    && (o.Queues? && o.op.OpEnqueueMany? ==> Stamped(o.op.tasks, s.now))
  }

  ghost predicate AllAllowed(s: Timed, os: seq<TimedOp>)
    decreases |os|
  {
    |os| == 0 || (Allowed(s, os[0]) && AllAllowed(Apply(s, os[0]), os[1..]))
  }

  function Run(s: Timed, os: seq<TimedOp>): Timed
    decreases |os|
  {
    if |os| == 0 then s else Run(Apply(s, os[0]), os[1..])
  }

  /** wait_seconds as the process loop computes it. */
  function Wait(now: real, t: Task): real {
    Clock.Max(0.0, now - t.enqueuedAt)
  }

  lemma Later(q: Queue, now: real, later: real)
    requires Timely(q, now) && now <= later
    ensures Timely(q, later)
  {
  }

  lemma EnqueueTimely(q: Queue, t: Task, priority: bool, now: real)
    requires Timely(q, now) && t.enqueuedAt <= now
    ensures Timely(TryEnqueue(q, t, priority).0, now)
  {
  }

  lemma EnqueueManyTimely(q: Queue, ts: seq<Task>, now: real)
    requires Timely(q, now) && Stamped(ts, now)
    ensures Timely(TryEnqueueMany(q, ts).0, now)
  {
  }

  lemma DequeueTimely(q: Queue, now: real)
    requires Timely(q, now)
    ensures Timely(Dequeue(q).0, now)
    ensures Dequeue(q).1.Some? ==> Wait(now, Dequeue(q).1.value) == now - Dequeue(q).1.value.enqueuedAt >= 0.0
  {
  }

  lemma ReserveTimely(q: Queue, id: TaskId, now: real)
    requires Timely(q, now)
    ensures Timely(Reserve(q, id).0, now)
  {
  }

  lemma ReleaseTimely(q: Queue, id: TaskId, now: real)
    requires Timely(q, now)
    ensures Timely(Release(q, id).0, now) && Timely(Confirm(q, id).0, now)
  {
  }

  lemma StepTimely(s: Timed, o: TimedOp)
    requires Timely(s.queue, s.now) && Allowed(s, o)
    ensures Timely(Apply(s, o).queue, Apply(s, o).now)
  {
    hide Timely;
    match o
    case Ticks(tick) => Later(s.queue, s.now, Clock.After(s.now, tick));
    case Queues(op) =>
      match op
      case OpEnqueue(t, p) => EnqueueTimely(s.queue, t, p, s.now);
      case OpEnqueueMany(ts) => EnqueueManyTimely(s.queue, ts, s.now);
      case OpDequeue => DequeueTimely(s.queue, s.now);
      case OpMarkDone => MarkDoneTimely(s.queue, s.now);
      case OpReserve(id) => ReserveTimely(s.queue, id, s.now);
      case OpConfirm(id) => ReleaseTimely(s.queue, id, s.now);
      case OpRelease(id) => ReleaseTimely(s.queue, id, s.now);
  }

  lemma MarkDoneTimely(q: Queue, now: real)
    requires Timely(q, now)
    ensures Timely(MarkDone(q), now)
  {
  }

  /** After any run, the task that leaves the queue next waited now - enqueuedAt: the max(0, ...) never bites. */
  lemma {:induction false} WaitNeverClipped(s: Timed, os: seq<TimedOp>)
    requires Timely(s.queue, s.now) && AllAllowed(s, os)
    ensures var r := Run(s, os);
            && Timely(r.queue, r.now)
            && (Dequeue(r.queue).1.Some? ==>
                  Wait(r.now, Dequeue(r.queue).1.value) == r.now - Dequeue(r.queue).1.value.enqueuedAt)
    decreases |os|
  {
    hide Timely, Apply, Allowed, Wait;
    if |os| == 0 {
      DequeueTimely(s.queue, s.now);
    } else {
      StepTimely(s, os[0]);
      WaitNeverClipped(Apply(s, os[0]), os[1..]);
    }
  }
}
