/**
 * Master, workers and the channels between them (src/kvstore/master/runtime.py, src/kvstore/worker/runtime.py).
 * Each connection is a FIFO in both directions. A worker may end at any time, and takes no step after that; the
 * master reads what the worker had sent until the end of the stream, wherever that comes.
 */
module SystemSpec {
  import opened Basics
  import opened Models
  import opened QueueSpec
  import NodeSpec
  import opened ClusterSpec
  import MS = MasterSpec
  import MR = MasterRuns

  /** A TASK message. The serial number, one per assignment, is a history variable: no step reads it. */
  datatype Order = Order(task: Task, priority: bool, serial: nat)

  datatype Kind = Good | Bad | Overflow

  datatype Report =
    | ResultMsg(id: TaskId, assignee: WorkerId, kind: Kind)
    | StatusMsg(size: int, capacity: int)

  /**
   * `gone` are the workers that have ended, `current` is the serial of a task's latest assignment, `refused` the
   * serials of TASKs refused as duplicates.
   */
  datatype System = System(
    master: MS.Master,
    cluster: Cluster,
    down: map<WorkerId, seq<Order>>,
    up: map<WorkerId, seq<Report>>,
    gone: set<WorkerId>,
    serial: nat,
    current: map<TaskId, nat>,
    refused: set<nat>)

  /**
   * `Disconnect` is _disconnect_worker, after a failed send or a failed receive, `Hangup` the end of the receive
   * loop after a failed receive, and `Stop` the end of a worker.
   */
  datatype Action =
    | Distribute(now: real)
    | MasterReads(w: WorkerId)
    | Disconnect(w: WorkerId, order: seq<TaskId>)
    | Hangup(w: WorkerId)
    | Stop(w: WorkerId)
    | WorkerReads(w: WorkerId, now: real)
    | WorkerReports(w: WorkerId, good: bool)
    | WorkerStatus(w: WorkerId, size: nat)
    | Internal(move: Move)

  /** The assignee a result names: the task's, or the worker itself when the task carries none. */
  function AssigneeOf(t: Task, w: WorkerId): WorkerId {
    if t.assignment.Some? then t.assignment.value else w
  }

  function MasterEvent(w: WorkerId, m: Report): MR.Event {
    match m
    case ResultMsg(id, a, kind) => if kind.Good? then MR.Success(id, a) else MR.Failure(w, id, a, kind.Overflow?)
    case StatusMsg(size, capacity) => MR.QueueStatus(w, size, capacity)
  }

  /** Assign under the lock, then send TASK to the chosen worker. */
  ghost function Assign(s: System, now: real): System {
    var (m, got) := MS.NextAssignment(s.master, now);
    if got.None? then s.(master := m)
    else if got.value.worker !in s.down || got.value.id !in m.tasks then s.(master := m)
    else s.(master := m,
            down := s.down[got.value.worker := s.down[got.value.worker] +
                [Order(m.tasks[got.value.id], got.value.priority, s.serial)]],
            serial := s.serial + 1,
            current := s.current[got.value.id := s.serial])
  }

  /** A worker takes the next TASK: it queues it, ignores it as a duplicate, or answers that its queue is full. */
  function ReadOrder(s: System, w: WorkerId, now: real): System {
    if w !in s.down || w !in s.up || w !in s.cluster.nodes || |s.down[w]| == 0 then s else
      var o := s.down[w][0];
      var t := o.task.(enqueuedAt := now);
      var why := TryEnqueue(s.cluster.nodes[w].q, t, o.priority).1;
      var r := s.(down := s.down[w := s.down[w][1..]], cluster := After(s.cluster, MAdmit(w, t, o.priority)));
      match why
      case Admitted => r
      case Duplicate => r.(refused := s.refused + {o.serial})
      case Full => r.(up := s.up[w := s.up[w] + [ResultMsg(t.id, AssigneeOf(t, w), Overflow)]])
  }

  function SendResult(s: System, w: WorkerId, good: bool): System {
    if w !in s.up || w !in s.cluster.nodes then s
    else if s.cluster.nodes[w].working.None? || s.cluster.nodes[w].reported then s
    else
      var t := s.cluster.nodes[w].working.value;
      s.(cluster := After(s.cluster, MReport(w)),
         up := s.up[w := s.up[w] + [ResultMsg(t.id, AssigneeOf(t, w), if good then Good else Bad)]])
  }

  /** The size may be an older one: it is read before the message is sent, by either of two threads. */
  function SendStatus(s: System, w: WorkerId, size: nat): System {
    if w !in s.up || w !in s.cluster.nodes then s else
      s.(up := s.up[w := s.up[w] + [StatusMsg(size, s.cluster.nodes[w].q.capacity)]])
  }

  ghost function ReadReport(s: System, w: WorkerId): System {
    if w !in s.up || |s.up[w]| == 0 then s else
      s.(master := MR.Step(s.master, MasterEvent(w, s.up[w][0])), up := s.up[w := s.up[w][1..]])
  }

  ghost function Do(s: System, act: Action): System {
    match act
    case Distribute(now) => Assign(s, now)
    case MasterReads(w) => ReadReport(s, w)
    case Disconnect(w, order) => s.(master := MR.Step(s.master, MR.Lost(w, order)))
    case Hangup(w) => if w in s.up then s.(up := s.up[w := []]) else s
    case Stop(w) => s.(gone := s.gone + {w})
    case WorkerReads(w, now) => if w in s.gone then s else ReadOrder(s, w, now)
    case WorkerReports(w, good) => if w in s.gone then s else SendResult(s, w, good)
    case WorkerStatus(w, size) => if w in s.gone then s else SendStatus(s, w, size)
    case Internal(move) =>
      if move.MAdmit? || move.MReport? || !Runs(s.cluster, s.gone, move) then s
      else s.(cluster := After(s.cluster, move))
  }

  /**
   * A disconnect visits the worker's tasks each once. The master stops reading after it has disconnected a worker
   * that has ended: it is the end of a worker that closes its connection. Nothing else restricts an action.
   */
  ghost predicate Can(s: System, act: Action) {
    && (act.Disconnect? ==> MR.Possible(s.master, MR.Lost(act.w, act.order)))
    && (act.Hangup? ==> act.w in s.gone && (act.w in s.master.workers ==> !s.master.workers[act.w].connected))
  }

  ghost predicate AllCan(s: System, acts: seq<Action>)
    decreases |acts|
  {
    |acts| == 0 || (Can(s, acts[0]) && AllCan(Do(s, acts[0]), acts[1..]))
  }

  ghost function Execute(s: System, acts: seq<Action>): System
    decreases |acts|
  {
    if |acts| == 0 then s else Execute(Do(s, acts[0]), acts[1..])
  }

  /** Tasks prepared, workers registered with empty queues of the one size the protocol allows, nothing sent. */
  ghost predicate Begin(s: System) {
    && MS.Initial(s.master)
    && Quiet(s.cluster) && (forall w :: w in s.cluster.nodes ==> s.cluster.nodes[w].q.capacity == QUEUE_CAPACITY)
    && s.cluster.nodes.Keys == s.master.workers.Keys == s.down.Keys == s.up.Keys
    && (forall w :: w in s.down ==> s.down[w] == []) && (forall w :: w in s.up ==> s.up[w] == [])
    && s.gone == {} && s.serial == 0 && s.current == map[] && s.refused == {}
  }
}
