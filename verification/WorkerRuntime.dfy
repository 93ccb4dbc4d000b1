/**
 * The worker's two loops as the source has them (src/kvstore/worker/runtime.py): the receiver handles one TASK
 * message, the processor takes, reports and finishes one task. Both share queue, clock and statistics with
 * the P2P service. Messages to the master are appended to `outbox`; random draws are parameters.
 */
module Worker {
  import opened Basics
  import opened Models
  import opened Generation
  import opened QueueSpec
  import opened QueueLaws
  import opened NodeSpec
  import opened NodeLaws
  import opened WorkerQueue
  import opened Timing
  import Clock
  import P2P
  import Statistics
  import SystemSpec
  import MasterRuns

  datatype Content =
    | QueueStatus(status: WorkerStatus, counters: Statistics.Snapshot)
    | ResultSuccess(id: TaskId, key: string, value: int, assignee: WorkerId, wait: real)
    | ResultFail(id: TaskId, assignee: WorkerId, reason: string, wait: real)

  datatype Outgoing = Outgoing(stamp: real, content: Content)

  /** task.assignment_worker_id or self.config.worker_id */
  function Assignee(t: Task, w: WorkerId): WorkerId {
    if t.assignment.Some? && t.assignment.value != "" then t.assignment.value else w
  }

  /** What of a message the master's scheduler reads. */
  function Wire(c: Content): SystemSpec.Report {
    match c
    case QueueStatus(status, _) => SystemSpec.StatusMsg(status.size, status.capacity)
    case ResultSuccess(id, _, _, assignee, _) => SystemSpec.ResultMsg(id, assignee, SystemSpec.Good)
    case ResultFail(id, assignee, reason, _) =>
      SystemSpec.ResultMsg(id, assignee, if reason == "queue overflow" then SystemSpec.Overflow else SystemSpec.Bad)
  }

  function Wires(out: seq<Outgoing>): seq<SystemSpec.Report> {
    seq(|out|, i requires 0 <= i < |out| => Wire(out[i].content))
  }

  /** str() of an integer. */
  function Decimal(n: int): string {
    if n < 0 then "-" + Numeral(-n, 10, 1) else Numeral(n, 10, 1)
  }

  function Counters(ws: Statistics.WorkerStats): Statistics.Snapshot {
    Statistics.Snapshot(ws.sentEvents, ws.sentTasks, ws.receivedEvents, ws.receivedTasks)
  }

  function StatusOf(q: Queue, w: WorkerId): WorkerStatus {
    WorkerStatus(w, q.Size(), q.capacity, q.processing)
  }

  /** A status message: the queue as it is, and the worker's running P2P counts. */
  function StatusNow(q: Queue, stats: Statistics.Stats, w: WorkerId): Content {
    QueueStatus(StatusOf(q, w), Counters(Statistics.Of(stats, w)))
  }

  /** A worker's answer to one TASK, as the master's scheduler sees it. */
  function Reaction(t: Task, why: Reason, after: Queue, w: WorkerId): SystemSpec.Report {
    if why == Full then SystemSpec.ResultMsg(t.id, Assignee(t, w), SystemSpec.Overflow)
    else SystemSpec.StatusMsg(after.Size(), after.capacity)
  }

  /**
   * For a task with a proper label, a worker answers a TASK, and reports a result, with the very messages that the
   * system model puts on its connection.
   */
  lemma SendsAsModelled(t: Task, w: WorkerId, good: bool, wait: real, why: Reason, after: Queue)
    requires t.assignment != Some("")
    ensures Wire(WorkerRuntime.Result(t, w, good, wait)) ==
            SystemSpec.ResultMsg(t.id, SystemSpec.AssigneeOf(t, w), if good then SystemSpec.Good else SystemSpec.Bad)
    ensures why == Full ==>
              Reaction(t, why, after, w) == SystemSpec.ResultMsg(t.id, SystemSpec.AssigneeOf(t, w), SystemSpec.Overflow)
    ensures SystemSpec.MasterEvent(w, Wire(WorkerRuntime.Result(t, w, good, wait))) ==
            var a := if t.assignment.Some? then t.assignment.value else w;
            if good then MasterRuns.Success(t.id, a) else MasterRuns.Failure(w, t.id, a, false)
    ensures forall name, reason :: SystemSpec.MasterEvent(w, Wire(ResultFail(t.id, name, reason, wait))) ==
              MasterRuns.Failure(w, t.id, name, reason == "queue overflow")
    ensures forall status, counters :: SystemSpec.MasterEvent(w, Wire(QueueStatus(status, counters))) ==
              MasterRuns.QueueStatus(w, status.size, status.capacity)
  {
  }

  /** str() of different integers differs, so each attempt of a task has its own event. */
  lemma DecimalApart(a: int, b: int)
    requires a != b
    ensures Decimal(a) != Decimal(b)
    ensures forall id: TaskId :: "fail:" + id + ":" + Decimal(a) != "fail:" + id + ":" + Decimal(b)
  {
    DecimalReads(a);
    DecimalReads(b);
    hide Decimal, NumeralValue;
    forall id: TaskId ensures "fail:" + id + ":" + Decimal(a) != "fail:" + id + ":" + Decimal(b) {
      var front := "fail:" + id + ":";
      assert (front + Decimal(a))[|front|..] == Decimal(a) && (front + Decimal(b))[|front|..] == Decimal(b);
    }
  }

  /** It is the decimal numeral, after a sign if the number is negative. */
  lemma DecimalReads(n: int)
    ensures |Decimal(n)| > 0 && (Decimal(n)[0] == '-' <==> n < 0)
    ensures if n < 0 then -n == NumeralValue(Decimal(n)[1..], 10) else n == NumeralValue(Decimal(n), 10)
  {
    var m: nat := if n < 0 then -n else n;
    NumeralDigits(m, 10, 1);
    NumeralRoundTrip(m, 10, 1);
    hide Numeral, NumeralValue;
    assert Numeral(m, 10, 1)[0] in Numeral(m, 10, 1);
    if n < 0 { assert Decimal(n)[1..] == Numeral(m, 10, 1); }
  }

  /** Reading a worker's counters creates them. */
  ghost function Looks(s: Statistics.Stats, w: WorkerId): Statistics.Stats {
    Statistics.Note(s, Statistics.Looked(w))
  }

  /** A worker counts each success of a task once, and each failure once per attempt. */
  function Processed(s: Statistics.Stats, t: Task, w: WorkerId, wait: real, succeeded: bool): Statistics.Stats {
    if succeeded then Statistics.TaskSuccess(s, w, wait, Some("success:" + t.id))
    else Statistics.TaskFail(s, w, wait, Some("fail:" + t.id + ":" + Decimal(t.attempt)))
  }

  class WorkerRuntime {
    const workerId: WorkerId
    const queue: ReadyQueue
    const clock: Clock.LogicalClock
    const stats: Statistics.StatsCollector
    const p2p: P2P.P2PService
    var outbox: seq<Outgoing>
    var checkRequested: bool
    ghost var working: Option<Task>
    ghost var reported: bool

    ghost function View(): Node
      reads this, queue, p2p
    {
      Node(queue.State(), working, reported, p2p.phase, p2p.handled)
    }

    ghost predicate Valid()
      reads this, queue, clock, p2p
    {
      && p2p.queue == queue && p2p.clock == clock && p2p.stats == stats && p2p.workerId == workerId
      && p2p.Valid() && Works(View())
    }

    constructor (p2p: P2P.P2PService)
      requires p2p.Valid() && p2p.queue.State() == Empty(QUEUE_CAPACITY)
      ensures Valid() && outbox == [] && working.None? && this.p2p == p2p
    {
      workerId, queue, clock, stats := p2p.workerId, p2p.queue, p2p.clock, p2p.stats;
      this.p2p := p2p;
      outbox, checkRequested := [], false;
      working, reported := None, false;
    }

    method Send(content: Content)
      requires clock.value >= 0.0
      modifies clock, this`outbox
      ensures clock.value == old(clock.value) + Clock.COMMUNICATION_DELAY
      ensures outbox == old(outbox) + [Outgoing(clock.value, content)]
    {
      var _ := clock.Advance(Clock.COMMUNICATION_DELAY);
      outbox := outbox + [Outgoing(clock.value, content)];
    }

    /** Reports size and running P2P counts; looking at the counts creates them. */
    method SendQueueStatus()
      requires Valid()
      modifies clock, stats, this`outbox
      ensures Valid() && clock.value == old(clock.value) + Clock.COMMUNICATION_DELAY
      ensures stats.State() == Looks(old(stats.State()), workerId)
      ensures outbox == old(outbox) + [Outgoing(clock.value, StatusNow(queue.State(), old(stats.State()), workerId))]
      ensures var size := |queue.normal| + |queue.priority| + |queue.reserved|;
              var ws := if workerId in old(stats.workers) then old(stats.workers)[workerId]
                        else Statistics.WorkerStats(0, 0, 0, 0, 0.0, 0, 0, 0, 0, 0);
              outbox == old(outbox) + [Outgoing(clock.value,
                          QueueStatus(WorkerStatus(workerId, size, 10, queue.processing),
                                      Statistics.Snapshot(ws.sentEvents, ws.sentTasks, ws.receivedEvents,
                                                          ws.receivedTasks)))]
    {
      hide Inv, Timely;
      var status := queue.SnapshotStatus(workerId);
      var ws := stats.GetWorkerStats(workerId);
      Later(queue.State(), clock.value, clock.value + Clock.COMMUNICATION_DELAY);
      Send(QueueStatus(status.value, Counters(ws)));
    }

    /**
     * One TASK message: a malformed one is dropped; otherwise the task is stamped and offered to the queue, and
     * the master gets a queue status if it was queued or ignored as a duplicate, a failure if it overflowed.
     */
    method HandleTask(c: Coercions, payload: map<string, Json>, priority: bool)
      requires Valid()
      modifies queue, clock, stats, this`outbox, this`checkRequested
      ensures Valid()
      ensures var parsed := TaskFromDict(c, payload);
              if parsed.Err? then
                && View() == old(View()) && outbox == old(outbox) && clock.value == old(clock.value)
                && checkRequested == old(checkRequested)
                && stats.State() == old(stats.State())
              else
                var t := parsed.value.(enqueuedAt := old(clock.value));
                var why := QueueSpec.TryEnqueue(old(queue.State()), t, priority).1;
                && View() == Admit(old(View()), t, priority)
                && Wires(outbox) == Wires(old(outbox)) + [Reaction(t, why, queue.State(), workerId)]
                && clock.value == old(clock.value) + Clock.COMMUNICATION_DELAY
                && checkRequested ==
                     (old(checkRequested) || (why == Admitted && queue.State().Warn() && 2 * queue.State().Size() > 15))
                && stats.State() == if why == Full then Statistics.Overflow(old(stats.State()), workerId)
                                    else Looks(old(stats.State()), workerId)
      ensures TaskFromDict(c, payload).Ok? ==>
                var t := TaskFromDict(c, payload).value.(enqueuedAt := old(clock.value));
                var known := t.id in old(queue.active);
                var full := |old(queue.normal)| + |old(queue.priority)| + |old(queue.reserved)| >= 10;
                var size := |queue.normal| + |queue.priority| + |queue.reserved|;
                && (known || full ==> queue.State() == old(queue.State()))
                && (!known && !full ==>
                      && queue.priority == (if priority then old(queue.priority) + [t] else old(queue.priority))
                      && queue.normal == (if priority then old(queue.normal) else old(queue.normal) + [t])
                      && queue.active == old(queue.active) + {t.id})
                && |outbox| == |old(outbox)| + 1 && outbox[..|old(outbox)|] == old(outbox)
                && (var sent := outbox[|old(outbox)|];
                    && sent.stamp == clock.value
                    && (!known && full ==>
                          sent.content == ResultFail(t.id,
                            if t.assignment.Some? && t.assignment.value != "" then t.assignment.value else workerId,
                            "queue overflow", 0.0))
                    && (known || !full ==>
                          && sent.content.QueueStatus?
                          && sent.content.status == WorkerStatus(workerId, size, 10, queue.processing)))
                && checkRequested == (old(checkRequested) || (!known && !full && 10 * size > 7 * 10 && 2 * size > 15))
    {
      hide Inv, Timely, TaskFromDict, QueueSpec.TryEnqueue, Statistics.Of, Looks, StatusNow;
      ghost var before := queue.State();
      if TaskFromDict(c, payload).Ok? {
        EnqueueLaw(before, TaskFromDict(c, payload).value.(enqueuedAt := clock.value), priority);
      }
      ReactTo(c, payload, priority);
      if TaskFromDict(c, payload).Ok? {
        StatusMeans(queue.State(), old(stats.State()), workerId);
        assert Wires(outbox) == Wires(old(outbox)) + [Wire(outbox[|old(outbox)|].content)];
      }
    }

    static lemma StatusMeans(q: Queue, s: Statistics.Stats, w: WorkerId)
      ensures StatusNow(q, s, w).QueueStatus?
      ensures StatusNow(q, s, w).status ==
              WorkerStatus(w, |q.normal| + |q.priority| + |q.reserved|, q.capacity, q.processing)
    {
    }

    /** The same, against the operation on queues. */
    method ReactTo(c: Coercions, payload: map<string, Json>, priority: bool)
      requires Valid()
      modifies queue, clock, stats, this`outbox, this`checkRequested
      ensures Valid()
      ensures var parsed := TaskFromDict(c, payload);
              if parsed.Err? then
                && View() == old(View()) && outbox == old(outbox) && clock.value == old(clock.value)
                && checkRequested == old(checkRequested)
                && stats.State() == old(stats.State())
              else
                var t := parsed.value.(enqueuedAt := old(clock.value));
                var why := QueueSpec.TryEnqueue(old(queue.State()), t, priority).1;
                && View() == Admit(old(View()), t, priority)
                && outbox == old(outbox) + [Outgoing(clock.value,
                     if why == Full then ResultFail(t.id, Assignee(t, workerId), "queue overflow", 0.0)
                     else StatusNow(queue.State(), old(stats.State()), workerId))]
                && clock.value == old(clock.value) + Clock.COMMUNICATION_DELAY
                && checkRequested ==
                     (old(checkRequested) || (why == Admitted && queue.State().Warn() && 2 * queue.State().Size() > 15))
                && stats.State() == if why == Full then Statistics.Overflow(old(stats.State()), workerId)
                                    else Looks(old(stats.State()), workerId)
    {
      hide Inv, Timely, TaskFromDict, QueueSpec.TryEnqueue, Statistics.Of;
      var parsed := TaskFromDict(c, payload);
      if parsed.Err? {
        return;
      }
      var now := clock.Read();
      var task := parsed.value.(enqueuedAt := now);
      EnqueueInv(queue.State(), task, priority);
      EnqueueTimely(queue.State(), task, priority, now);
      EnqueueKeeps(queue.State(), task, priority);
      var result := Offer(task, priority);
      Later(queue.State(), now, now + Clock.COMMUNICATION_DELAY);
      if !result.accepted {
        if result.reason == Some(Duplicate) {
          SendQueueStatus();
          return;
        }
        CountOverflow();
        Send(ResultFail(task.id, Assignee(task, workerId), "queue overflow", 0.0));
        return;
      }
      if result.warn {
        if result.size * 2 > 15 {
          checkRequested := true;
        }
      }
      SendQueueStatus();
    }

    method Offer(task: Task, priority: bool) returns (r: QueueChange)
      modifies queue
      ensures queue.State() == QueueSpec.TryEnqueue(old(queue.State()), task, priority).0
      ensures r == Verdict(queue.State(), QueueSpec.TryEnqueue(old(queue.State()), task, priority).1)
    {
      r := queue.TryEnqueue(task, priority);
    }

    method CountOverflow()
      modifies stats
      ensures stats.State() == Statistics.Overflow(old(stats.State()), workerId)
    {
      stats.RecordQueueOverflow(workerId);
    }

    static lemma EnqueueKeeps(q: Queue, t: Task, priority: bool)
      ensures var r := QueueSpec.TryEnqueue(q, t, priority);
              r.0.capacity == q.capacity && r.0.processing == q.processing
    {
    }

    /**
     * One turn of the process loop: take a task, report its result, mark it done. The wait it reports is the
     * full time since the task was stamped.
     */
    method ProcessOnce(seconds: real, succeeded: bool) returns (taken: Option<Task>)
      requires Valid() && working.None? && seconds >= 0.0
      modifies queue, clock, stats, this`outbox, this`working, this`reported
      ensures Valid() && working.None?
      ensures taken == Dequeue(old(queue.State())).1
      ensures taken.None? ==> View() == old(View()) && outbox == old(outbox) && clock.value == old(clock.value)
                              && stats.State() == old(stats.State())
      ensures taken.Some? ==>
                var t := taken.value;
                var wait := old(clock.value) - t.enqueuedAt;
                var counted := Processed(Looks(old(stats.State()), workerId), t, workerId, wait, succeeded);
                && View() == Finish(Report(Take(old(View()))))
                && wait >= 0.0
                && |outbox| == |old(outbox)| + 3 && outbox[..|old(outbox)|] == old(outbox)
                && outbox[|old(outbox)|].content ==
                     StatusNow(Dequeue(old(queue.State())).0, old(stats.State()), workerId)
                && outbox[|old(outbox)| + 1].content == Result(t, workerId, succeeded, wait)
                && outbox[|old(outbox)| + 2].content ==
                     StatusNow(queue.State(), counted, workerId)
                && clock.value == old(clock.value) + seconds + 3.0 * Clock.COMMUNICATION_DELAY
                && stats.State() == Looks(counted, workerId)
    {
      hide Inv, Timely, Dequeue, Take, Report, Finish, Works, Looks, Processed, Result, StatusNow;
      var wait;
      taken, wait := TakeTask();
      if taken.Some? {
        Complete(taken.value, wait, seconds, succeeded);
      }
    }

    /** The first half, up to the status that follows a task out of the queue. */
    method TakeTask() returns (taken: Option<Task>, wait: real)
      requires Valid() && working.None?
      modifies queue, clock, stats, this`outbox, this`working, this`reported
      ensures Valid() && View() == Take(old(View()))
      ensures working == taken == Dequeue(old(queue.State())).1 && queue.State() == Dequeue(old(queue.State())).0
      ensures taken == if |old(queue.priority)| > 0 then Some(old(queue.priority)[0])
                       else if |old(queue.normal)| > 0 then Some(old(queue.normal)[0]) else None
      ensures taken.None? ==> View() == old(View()) && outbox == old(outbox) && clock.value == old(clock.value)
                              && stats.State() == old(stats.State())
      ensures taken.Some? ==>
                && wait == old(clock.value) - taken.value.enqueuedAt >= 0.0
                && !reported && |outbox| == |old(outbox)| + 1 && outbox[..|old(outbox)|] == old(outbox)
                && outbox[|old(outbox)|].content == StatusNow(queue.State(), old(stats.State()), workerId)
                && clock.value == old(clock.value) + Clock.COMMUNICATION_DELAY
                && stats.State() == Looks(old(stats.State()), workerId)
    {
      hide Inv, Timely, Dequeue, Statistics.Of;
      ghost var start := View();
      NotWorking(start);
      DequeueInv(queue.State());
      DequeueTimely(queue.State(), clock.value);
      wait := 0.0;
      taken := queue.DequeueForProcessing();
      if taken.None? {
        DequeueNothing(start.q);
        return;
      }
      DequeueKeeps(start.q);
      working, reported := taken, false;
      var now := clock.Read();
      wait := if now - taken.value.enqueuedAt < 0.0 then 0.0 else now - taken.value.enqueuedAt;
      SendQueueStatus();
    }

    /** The second half: report, mark done, send the status once more. */
    method Complete(task: Task, wait: real, seconds: real, succeeded: bool)
      requires Valid() && working == Some(task) && !reported && seconds >= 0.0
      modifies queue, clock, stats, this`outbox, this`working, this`reported
      ensures Valid() && working.None? && View() == Finish(Report(old(View())))
      ensures |outbox| == |old(outbox)| + 2 && outbox[..|old(outbox)|] == old(outbox)
      ensures outbox[|old(outbox)|].content == Result(task, workerId, succeeded, wait)
      ensures outbox[|old(outbox)| + 1].content ==
              StatusNow(queue.State(), Processed(old(stats.State()), task, workerId, wait, succeeded), workerId)
      ensures clock.value == old(clock.value) + seconds + 2.0 * Clock.COMMUNICATION_DELAY
      ensures stats.State() == Looks(Processed(old(stats.State()), task, workerId, wait, succeeded), workerId)
    {
      hide Inv, Timely, Processed, Result, Statistics.Of;
      SendResult(task, wait, seconds, succeeded);
      reported := true;
      MarkDoneInv(queue.State());
      MarkDoneTimely(queue.State(), clock.value);
      var _ := queue.MarkProcessingDone();
      working, reported := None, false;
      SendQueueStatus();
    }

    /** The clock moves once by the processing time, then the result goes out and is counted. */
    method SendResult(task: Task, wait: real, seconds: real, succeeded: bool)
      requires Valid() && seconds >= 0.0
      modifies clock, stats, this`outbox
      ensures Valid() && clock.value == old(clock.value) + seconds + Clock.COMMUNICATION_DELAY
      ensures outbox == old(outbox) + [Outgoing(clock.value, Result(task, workerId, succeeded, wait))]
      ensures stats.State() == Processed(old(stats.State()), task, workerId, wait, succeeded)
      ensures var named := if task.assignment.Some? && task.assignment.value != "" then task.assignment.value
                           else workerId;
              outbox == old(outbox) + [Outgoing(clock.value,
                          if succeeded then ResultSuccess(task.id, task.key, task.value, named, wait)
                          else ResultFail(task.id, named, "20% rule", wait))]
      ensures var event := if succeeded then "success:" + task.id else "fail:" + task.id + ":" + Decimal(task.attempt);
              && stats.seenEventIds == old(stats.seenEventIds) + {event}
              && (event in old(stats.seenEventIds) ==> stats.State() == old(stats.State()))
              && (event !in old(stats.seenEventIds) ==>
                    var ws := if workerId in old(stats.workers) then old(stats.workers)[workerId]
                              else Statistics.WorkerStats(0, 0, 0, 0, 0.0, 0, 0, 0, 0, 0);
                    && workerId in stats.workers
                    && stats.workers[workerId].successCount == ws.successCount + (if succeeded then 1 else 0)
                    && stats.workers[workerId].failCount == ws.failCount + (if succeeded then 0 else 1)
                    && stats.workers[workerId].processedCount == ws.processedCount + 1)
    {
      hide Inv, Timely;
      Later(queue.State(), clock.value, clock.value + seconds + Clock.COMMUNICATION_DELAY);
      var _ := clock.Advance(seconds);
      if succeeded {
        Send(ResultSuccess(task.id, task.key, task.value, Assignee(task, workerId), wait));
        var _ := stats.RecordTaskSuccess(workerId, wait, Some("success:" + task.id));
      } else {
        Send(ResultFail(task.id, Assignee(task, workerId), "20% rule", wait));
        var _ := stats.RecordTaskFail(workerId, wait, Some("fail:" + task.id + ":" + Decimal(task.attempt)));
      }
    }

    static function Result(t: Task, w: WorkerId, succeeded: bool, wait: real): Content {
      if succeeded then ResultSuccess(t.id, t.key, t.value, Assignee(t, w), wait)
      else ResultFail(t.id, Assignee(t, w), "20% rule", wait)
    }

    static lemma NotWorking(n: Node)
      requires Works(n) && n.working.None?
      ensures n.q.processing.None? && !n.reported
    {
    }

    static lemma DequeueNothing(q: Queue)
      requires Dequeue(q).1.None?
      ensures Dequeue(q).0 == q
    {
    }

    static lemma DequeueKeeps(q: Queue)
      requires Dequeue(q).1.Some?
      ensures Dequeue(q).0.capacity == q.capacity && Dequeue(q).0.processing == Some(Dequeue(q).1.value.id)
    {
    }
  }
}
