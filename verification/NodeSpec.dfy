/**
 * One worker of the P2P layer: its ready queue, what its process loop is doing, how far its one outstanding
 * transfer is, and the answers it has given (src/kvstore/worker/p2p.py, src/kvstore/worker/runtime.py).
 * Each function is one section the source runs under a lock or on a single thread.
 */
module NodeSpec {
  import opened Basics
  import opened Models
  import opened QueueSpec

  const MAX_TRANSFER: nat := 3

  datatype Ack = Ack(accepted: bool, ids: seq<TaskId>)

  /** balance_once: choosing a batch, waiting for the answer, then confirming or taking back task by task. */
  datatype Phase =
    | Idle
    | Picking(peer: WorkerId, todo: seq<TaskId>, picked: seq<Task>)
    | Waiting(rid: RequestId, peer: WorkerId, batch: seq<Task>)
    | Confirming(rid: RequestId, left: seq<Task>)
    | Releasing(rid: RequestId, left: seq<Task>)

  datatype Node = Node(
    q: Queue,
    working: Option<Task>,
    reported: bool,
    phase: Phase,
    handled: map<RequestId, Ack>)

  /** The tasks the transfer still keeps reserved. */
  function PhaseTasks(p: Phase): seq<Task> {
    match p
    case Idle => []
    case Picking(_, _, picked) => picked
    case Waiting(_, _, batch) => batch
    case Confirming(_, left) => left
    case Releasing(_, left) => left
  }

  function PhaseRid(p: Phase): Option<RequestId> {
    match p
    case Idle => None
    case Picking(_, _, _) => None
    case Waiting(rid, _, _) => Some(rid)
    case Confirming(rid, _) => Some(rid)
    case Releasing(rid, _) => Some(rid)
  }

  function Fresh(capacity: int): Node {
    Node(Empty(capacity), None, false, Idle, map[])
  }

  // ---- the sections ---------------------------------------------------------------------------

  function Admit(n: Node, t: Task, priority: bool): Node {
    n.(q := TryEnqueue(n.q, t, priority).0)
  }

  function Take(n: Node): Node {
    if n.working.Some? || Dequeue(n.q).1.None? then n
    else n.(q := Dequeue(n.q).0, working := Dequeue(n.q).1, reported := false)
  }

  function Report(n: Node): Node {
    if n.working.None? then n else n.(reported := true)
  }

  function Finish(n: Node): Node {
    if n.working.None? || !n.reported then n
    else n.(q := MarkDone(n.q), working := None, reported := false)
  }

  function StartPick(n: Node, peer: WorkerId, count: nat): Node {
    if !n.phase.Idle? || !(1 <= count <= MAX_TRANSFER) then n
    else n.(phase := Picking(peer, TaskIds(Peek(n.q, count)), []))
  }

  function Pick(n: Node): Node {
    if !n.phase.Picking? || |n.phase.todo| == 0 then n else
      var (q, got) := Reserve(n.q, n.phase.todo[0]);
      n.(q := q, phase := Picking(n.phase.peer, n.phase.todo[1..],
                                  if got.Some? then n.phase.picked + [got.value] else n.phase.picked))
  }

  predicate ReadyToSend(n: Node) {
    n.phase.Picking? && |n.phase.todo| == 0 && |n.phase.picked| > 0
  }

  function Send(n: Node, rid: RequestId): Node {
    if !ReadyToSend(n) then n else n.(phase := Waiting(rid, n.phase.peer, n.phase.picked))
  }

  /** The sender's test of an answer: accepted, and naming the ids it reserved. */
  predicate Matches(a: Ack, batch: seq<Task>) {
    a.accepted && Elems(a.ids) == Ids(batch)
  }

  function AckArrives(n: Node, a: Ack): Node {
    if !n.phase.Waiting? || !Matches(a, n.phase.batch) then n else n.(phase := Confirming(n.phase.rid, n.phase.batch))
  }

  /** A refusal, a timeout, a broken connection, a wrong answer. */
  function GiveUp(n: Node): Node {
    if !n.phase.Waiting? then n else n.(phase := Releasing(n.phase.rid, n.phase.batch))
  }

  function ConfirmOne(n: Node): Node {
    if !n.phase.Confirming? || |n.phase.left| == 0 then n
    else n.(q := Confirm(n.q, n.phase.left[0].id).0, phase := Confirming(n.phase.rid, n.phase.left[1..]))
  }

  function ReleaseOne(n: Node): Node {
    if !n.phase.Releasing? || |n.phase.left| == 0 then n
    else n.(q := Release(n.q, n.phase.left[0].id).0, phase := Releasing(n.phase.rid, n.phase.left[1..]))
  }

  /** balance_once returns: nothing was picked, or everything is confirmed or back in the queue. */
  function Settle(n: Node): Node {
    if n.phase.Idle? || n.phase.Waiting? || |PhaseTasks(n.phase)| > 0 then n
    else if n.phase.Picking? && |n.phase.todo| > 0 then n
    else n.(phase := Idle)
  }

  function Stamp(ts: seq<Task>, now: real): seq<Task> {
    if |ts| == 0 then [] else [ts[0].(enqueuedAt := now)] + Stamp(ts[1..], now)
  }

  /** A transfer arrives: a known request is answered from memory, a new one is taken whole or refused. */
  function Receive(n: Node, rid: RequestId, ts: seq<Task>, now: real): Node {
    if rid in n.handled || !(1 <= |ts| <= MAX_TRANSFER) then n else
      var (q, why) := TryEnqueueMany(n.q, Stamp(ts, now));
      n.(q := q, handled := n.handled[rid := Ack(why == Admitted, if why == Admitted then TaskIds(ts) else [])])
  }

  // ---- the invariant --------------------------------------------------------------------------

  /** What is reserved is exactly what the transfer still has to settle. */
  ghost predicate Reserves(q: Queue, ts: seq<Task>) {
    && Distinct(ts)
    && q.reserved.Keys == Ids(ts)
    && (forall x :: x in ts ==> x.id in q.reserved && q.reserved[x.id].task == x)
  }

  /** What is being processed is the task in the process loop's hands. */
  ghost predicate Works(n: Node) {
    && ProcessingIds(n.q) == (if n.working.Some? then {n.working.value.id} else {})
    && (n.working.None? ==> !n.reported)
  }

  ghost predicate NodeInv(n: Node) {
    && Inv(n.q)
    && Works(n)
    && Reserves(n.q, PhaseTasks(n.phase))
    && (n.phase.Picking? ==> |n.phase.picked| + |n.phase.todo| <= MAX_TRANSFER)
  }

  // ---- firm copies ----------------------------------------------------------------------------

  /**
   * The ids of the worker's firm copies: queued, in processing with no result sent yet, or reserved for a
   * transfer whose receiver has not taken the batch (`taken` says whether it has).
   */
  function FirmIds(n: Node, taken: bool): set<TaskId> {
    Ids(n.q.normal) + Ids(n.q.priority)
    + (if n.working.Some? && !n.reported then {n.working.value.id} else {})
    + (if taken then {} else Ids(PhaseTasks(n.phase)))
  }

  /** The copies themselves. */
  function FirmTasks(n: Node, taken: bool): set<Task> {
    Queued(n.q)
    + (if n.working.Some? && !n.reported then {n.working.value} else {})
    + (if taken then {} else Elems(PhaseTasks(n.phase)))
  }
}
