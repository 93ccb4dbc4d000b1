/**
 * The workers' P2P layer as a whole (src/kvstore/worker/p2p.py): any number of workers, and a network that may
 * lose, delay or redeliver any message. Requests are kept for ever, so a request can arrive at any later
 * time, any number of times, or never; an answer can arrive whenever the receiver has one to give.
 */
module ClusterSpec {
  import opened Basics
  import opened Models
  import opened QueueSpec
  import opened NodeSpec

  datatype Request = Request(from: WorkerId, to: WorkerId, tasks: seq<Task>)

  /** `admitted`, `reported`, `released` and `confirmed` only record what happened; no move reads them. */
  datatype Cluster = Cluster(
    nodes: map<WorkerId, Node>,
    net: map<RequestId, Request>,
    admitted: multiset<TaskId>,
    reported: multiset<TaskId>,
    released: set<(RequestId, TaskId)>,
    confirmed: set<(RequestId, TaskId)>)

  datatype Move =
    | MAdmit(w: WorkerId, task: Task, priority: bool)
    | MTake(w: WorkerId)
    | MReport(w: WorkerId)
    | MFinish(w: WorkerId)
    | MStart(w: WorkerId, peer: WorkerId, count: nat)
    | MPick(w: WorkerId)
    | MSend(w: WorkerId, rid: RequestId)
    | MDeliver(rid: RequestId, now: real)
    | MAck(w: WorkerId)
    | MGiveUp(w: WorkerId)
    | MConfirm(w: WorkerId)
    | MRelease(w: WorkerId)
    | MSettle(w: WorkerId)

  /** The receiver of this request has taken its batch. */
  predicate Accepted(c: Cluster, rid: RequestId) {
    && rid in c.net && c.net[rid].to in c.nodes
    && rid in c.nodes[c.net[rid].to].handled && c.nodes[c.net[rid].to].handled[rid].accepted
  }

  function Put(c: Cluster, w: WorkerId, n: Node): Cluster {
    c.(nodes := c.nodes[w := n])
  }

  /** The worker a move happens at, if the move can happen at all. */
  function At(c: Cluster, mv: Move): Option<WorkerId> {
    if mv.MDeliver? then (if mv.rid in c.net && c.net[mv.rid].to in c.nodes then Some(c.net[mv.rid].to) else None)
    else if mv.w in c.nodes then Some(mv.w) else None
  }

  /** The move is not one of a worker that has ended. */
  predicate Runs(c: Cluster, gone: set<WorkerId>, mv: Move) {
    At(c, mv).Some? ==> At(c, mv).value !in gone
  }

  /** The answer the peer holds for the request `n` is waiting on. */
  function AnswerFor(c: Cluster, n: Node): Ack {
    if n.phase.Waiting? && n.phase.peer in c.nodes && n.phase.rid in c.nodes[n.phase.peer].handled
    then c.nodes[n.phase.peer].handled[n.phase.rid] else Ack(false, [])
  }

  /** The new local state of the worker a move happens at. */
  function Local(c: Cluster, mv: Move, w: WorkerId): Node
    requires w in c.nodes && At(c, mv) == Some(w)
  {
    var n := c.nodes[w];
    match mv
    case MAdmit(_, t, priority) => Admit(n, t, priority)
    case MTake(_) => Take(n)
    case MReport(_) => Report(n)
    case MFinish(_) => Finish(n)
    case MStart(_, peer, count) => if peer in c.nodes && peer != w then StartPick(n, peer, count) else n
    case MPick(_) => Pick(n)
    case MSend(_, rid) => if rid in c.net then n else Send(n, rid)
    case MDeliver(rid, now) => Receive(n, rid, c.net[rid].tasks, now)
    case MAck(_) => AckArrives(n, AnswerFor(c, n))
    case MGiveUp(_) => GiveUp(n)
    case MConfirm(_) => ConfirmOne(n)
    case MRelease(_) => ReleaseOne(n)
    case MSettle(_) => Settle(n)
  }

  function After(c: Cluster, mv: Move): Cluster {
    if At(c, mv).None? then c else
      var w := At(c, mv).value;
      var n := c.nodes[w];
      var d := Put(c, w, Local(c, mv, w));
      match mv
      case MAdmit(_, t, priority) =>
        if TryEnqueue(n.q, t, priority).1 == Admitted then d.(admitted := c.admitted + multiset{t.id}) else d
      case MReport(_) =>
        if n.working.Some? && !n.reported then d.(reported := c.reported + multiset{n.working.value.id}) else d
      case MSend(_, rid) =>
        if rid !in c.net && ReadyToSend(n) then d.(net := c.net[rid := Request(w, n.phase.peer, n.phase.picked)]) else d
      case MConfirm(_) =>
        if n.phase.Confirming? && |n.phase.left| > 0
        then d.(confirmed := c.confirmed + {(n.phase.rid, n.phase.left[0].id)}) else d
      case MRelease(_) =>
        if n.phase.Releasing? && |n.phase.left| > 0
        then d.(released := c.released + {(n.phase.rid, n.phase.left[0].id)}) else d
      case _ => d
  }

  function RunMoves(c: Cluster, moves: seq<Move>): Cluster
    decreases |moves|
  {
    if |moves| == 0 then c else RunMoves(After(c, moves[0]), moves[1..])
  }

  // ---- the invariant --------------------------------------------------------------------------

  ghost predicate NodesOk(c: Cluster) {
    forall w :: w in c.nodes ==> NodeInv(c.nodes[w])
  }

  ghost predicate PartOf(left: seq<Task>, batch: seq<Task>) {
    Ids(left) <= Ids(batch) && Elems(left) <= Elems(batch)
  }

  /** A transfer under way matches the request that was sent for it. */
  ghost predicate Linked(c: Cluster, w: WorkerId, p: Phase) {
    match p
    case Idle => true
    case Picking(peer, _, _) => peer in c.nodes && peer != w
    case Waiting(rid, peer, batch) => rid in c.net && c.net[rid] == Request(w, peer, batch)
    case Confirming(rid, left) =>
      rid in c.net && c.net[rid].from == w && Accepted(c, rid) && PartOf(left, c.net[rid].tasks)
    case Releasing(rid, left) => rid in c.net && c.net[rid].from == w && PartOf(left, c.net[rid].tasks)
  }

  ghost predicate LinksOk(c: Cluster) {
    forall w :: w in c.nodes ==> Linked(c, w, c.nodes[w].phase)
  }

  /** Answers are about requests to the answering worker, and a yes names exactly the tasks of its request. */
  ghost predicate AnswerOk(c: Cluster, w: WorkerId, rid: RequestId, a: Ack) {
    rid in c.net && c.net[rid].to == w && (a.accepted ==> Elems(a.ids) == Ids(c.net[rid].tasks))
  }

  ghost predicate AnswersOk(c: Cluster) {
    forall w, rid :: w in c.nodes && rid in c.nodes[w].handled ==> AnswerOk(c, w, rid, c.nodes[w].handled[rid])
  }

  ghost predicate RequestOk(c: Cluster, r: Request) {
    r.from in c.nodes && r.to in c.nodes && r.from != r.to && 1 <= |r.tasks| <= MAX_TRANSFER && Distinct(r.tasks)
  }

  ghost predicate RequestsOk(c: Cluster) {
    forall rid :: rid in c.net ==> RequestOk(c, c.net[rid])
  }

  /** The sender of the request still keeps this task reserved for it. */
  ghost predicate Holding(c: Cluster, rid: RequestId, id: TaskId) {
    && rid in c.net && c.net[rid].from in c.nodes
    && PhaseRid(c.nodes[c.net[rid].from].phase) == Some(rid)
    && id in Ids(PhaseTasks(c.nodes[c.net[rid].from].phase))
  }

  /** Each task of a request is still reserved, or was taken back or given up, never both. */
  ghost predicate FateOk(c: Cluster, rid: RequestId, id: TaskId) {
    Holding(c, rid, id) <==> (rid, id) !in c.released && (rid, id) !in c.confirmed
  }

  ghost predicate FatesOk(c: Cluster) {
    forall rid, id :: rid in c.net && id in Ids(c.net[rid].tasks) ==> FateOk(c, rid, id)
  }

  /** Only tasks of accepted requests were ever confirmed. */
  ghost predicate HistoryOk(c: Cluster) {
    && (forall e :: e in c.confirmed ==> Accepted(c, e.0))
    && (forall e :: e in c.released + c.confirmed ==> e.0 in c.net && e.1 in Ids(c.net[e.0].tasks))
  }

  ghost predicate ClusterInv(c: Cluster) {
    NodesOk(c) && LinksOk(c) && AnswersOk(c) && RequestsOk(c) && FatesOk(c) && HistoryOk(c)
  }

  // ---- counting copies ------------------------------------------------------------------------

  /** Has the batch this worker still keeps reserved been taken by its receiver? */
  predicate Taken(c: Cluster, w: WorkerId)
    requires w in c.nodes
  {
    PhaseRid(c.nodes[w].phase).Some? && Accepted(c, PhaseRid(c.nodes[w].phase).value)
  }

  function FirmAt(c: Cluster, w: WorkerId): set<TaskId>
    requires w in c.nodes
  {
    FirmIds(c.nodes[w], Taken(c, w))
  }

  /** The workers with a firm copy of the task. */
  function Holders(c: Cluster, id: TaskId): set<WorkerId> {
    set w | w in c.nodes && id in FirmAt(c, w)
  }

  /** The transfers of the task that its receiver took although its sender had taken it back, or did later. */
  function Doubled(c: Cluster, id: TaskId): set<RequestId> {
    set rid | rid in c.net && Accepted(c, rid) && (rid, id) in c.released
  }

  ghost predicate Conserved(c: Cluster) {
    forall id :: |Holders(c, id)| + c.reported[id] == c.admitted[id] + |Doubled(c, id)|
  }

  /** Workers with empty queues, nothing sent, nothing recorded. */
  ghost predicate Quiet(c: Cluster) {
    && (forall w :: w in c.nodes ==> c.nodes[w].q.capacity >= 0 && c.nodes[w] == Fresh(c.nodes[w].q.capacity))
    && c.net == map[] && c.admitted == multiset{} && c.reported == multiset{} && c.released == {} && c.confirmed == {}
  }
}
