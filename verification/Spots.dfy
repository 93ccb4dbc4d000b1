/**
 * Where the traces of an assignment are: copies that their workers may still report, and batches on their way. A
 * trace vanishes when an answer gives the copy away or when its batch is refused, and in no other move.
 */
module Spots {
  import opened Basics
  import opened Models
  import opened QueueSpec
  import opened QueueLaws
  import opened NodeSpec
  import opened NodeLaws
  import opened ClusterSpec
  import opened ClusterLaws
  import opened ClusterCopies
  import opened ClusterWitness
  import opened ClusterTrace

  datatype Spot = Copy(w: WorkerId, task: Task) | Batch(rid: RequestId)

  ghost predicate IsSpot(c: Cluster, gone: set<WorkerId>, p: Spot, id: TaskId, a: Option<WorkerId>) {
    match p
    case Copy(w, x) => w in c.nodes && w !in gone && x in Alive(c.nodes[w]) && Labelled(x, id, a)
    case Batch(rid) => OnItsWay(c, gone, rid, id, a)
  }

  ghost predicate OnlySpot(c: Cluster, gone: set<WorkerId>, p: Spot, id: TaskId, a: Option<WorkerId>) {
    IsSpot(c, gone, p, id, a) && forall q :: IsSpot(c, gone, q, id, a) ==> q == p
  }

  /** The worker a spot depends on. */
  function SpotAt(c: Cluster, p: Spot): Option<WorkerId> {
    match p
    case Copy(w, _) => Some(w)
    case Batch(rid) => if rid in c.net then Some(c.net[rid].to) else None
  }

  ghost predicate SpotsOnlyAt(c: Cluster, gone: set<WorkerId>, w: WorkerId, id: TaskId, a: Option<WorkerId>) {
    forall p :: IsSpot(c, gone, p, id, a) ==> SpotAt(c, p) == Some(w)
  }

  /** The answer that arrives at `w` accepts its batch. */
  predicate Agreed(c: Cluster, w: WorkerId) {
    w in c.nodes && c.nodes[w].phase.Waiting? && Matches(AnswerFor(c, c.nodes[w]), c.nodes[w].phase.batch)
  }

  /** The move gives this copy away, by reading the answer for its batch, or has this batch refused. */
  predicate Vanishes(c: Cluster, mv: Move, p: Spot) {
    match p
    case Copy(w, x) => mv == MAck(w) && Agreed(c, w) && x in c.nodes[w].phase.batch
    case Batch(rid) => mv.MDeliver? && mv.rid == rid && !TookNow(c, rid, mv.now)
  }

  lemma SpotsAreTraces(c: Cluster, gone: set<WorkerId>, id: TaskId, a: Option<WorkerId>)
    ensures Trace(c, gone, id, a) <==> exists p :: IsSpot(c, gone, p, id, a)
  {
    hide FirmTasks, OnItsWay, Labelled;
    if w :| w in c.nodes && w !in gone && Keeps(c.nodes[w], id, a) {
      var x :| x in Alive(c.nodes[w]) && Labelled(x, id, a);
      assert IsSpot(c, gone, Copy(w, x), id, a);
    }
    if rid :| OnItsWay(c, gone, rid, id, a) { assert IsSpot(c, gone, Batch(rid), id, a); }
    if p :| IsSpot(c, gone, p, id, a) {
      if p.Copy? { assert Keeps(c.nodes[p.w], id, a); }
    }
  }

  // ---- what an answer and a refusal remove ------------------------------------------------------

  /** What is reserved is neither queued nor in processing. */
  lemma BatchApart(n: Node, x: Task)
    requires NodeInv(n) && x in PhaseTasks(n.phase)
    ensures x !in FirmTasks(n, true)
  {
    hide Ids, Distinct, Keyed;
    NotQueued(n.q, x);
    NotWorkedOn(n, x);
  }

  lemma NotWorkedOn(n: Node, x: Task)
    requires NodeInv(n) && x.id in n.q.reserved
    ensures n.working.Some? ==> n.working.value != x
  {
    hide Ids, Distinct, Keyed;
  }

  lemma RefusedUnchanged(c: Cluster, rid: RequestId, now: real)
    requires RequestsOk(c) && rid in c.net && c.net[rid].to in c.nodes && !TookNow(c, rid, now)
    ensures var n := c.nodes[c.net[rid].to];
            var r := Receive(n, rid, c.net[rid].tasks, now);
            rid in r.handled && r.q == n.q && r.working == n.working && r.reported == n.reported && r.phase == n.phase
  {
    hide TryEnqueueMany, Stamp, TaskIds, Distinct, Took;
    assert RequestOk(c, c.net[rid]);
    ReceiveQueued(c.nodes[c.net[rid].to], rid, c.net[rid].tasks, now);
  }

  lemma SameAlive(n: Node, n': Node)
    requires n'.q == n.q && n'.working == n.working && n'.reported == n.reported && n'.phase == n.phase
    ensures Alive(n') == Alive(n)
  {
  }

  // ---- traces stay ------------------------------------------------------------------------------

  lemma LocalStays(c: Cluster, mv: Move, w: WorkerId)
    requires w in c.nodes && At(c, mv) == Some(w) && NodeInv(c.nodes[w]) && !mv.MReport? && !mv.MAck?
    ensures Alive(c.nodes[w]) <= Alive(Local(c, mv, w))
  {
    hide NodeInv, FirmTasks, TryEnqueue, TryEnqueueMany, Dequeue, Reserve, Release, Confirm, MarkDone, Peek;
    var n := c.nodes[w];
    var b := n.phase.Confirming?;
    match mv
    case MAdmit(_, t, priority) => AdmitFirm(n, t, priority, b);
    case MTake(_) => TakeFirm(n, b);
    case MFinish(_) => PhaseFirm(n, "", 0, "", Ack(false, []), b);
    case MStart(_, peer, count) => PhaseFirm(n, peer, count, "", Ack(false, []), b);
    case MPick(_) => PickFirm(n);
    case MSend(_, rid) => PhaseFirm(n, "", 0, rid, Ack(false, []), b);
    case MDeliver(rid, now) => ReceiveFirm(n, rid, c.net[rid].tasks, now, b);
    case MGiveUp(_) => PhaseFirm(n, "", 0, "", Ack(false, []), b);
    case MConfirm(_) => PhaseFirm(n, "", 0, "", Ack(false, []), b);
    case MRelease(_) => ReleaseFirm(n, b);
    case MSettle(_) => PhaseFirm(n, "", 0, "", Ack(false, []), b);
  }

  /** The answer leaves what was not in its batch. */
  lemma AckLocal(c: Cluster, w: WorkerId)
    requires w in c.nodes
    ensures At(c, MAck(w)) == Some(w)
    ensures var n := Local(c, MAck(w), w);
            if Agreed(c, w) then Alive(n) == FirmTasks(c.nodes[w], true) else n == c.nodes[w]
  {
    PhaseFirm(c.nodes[w], "", 0, "", AnswerFor(c, c.nodes[w]), true);
    hide FirmTasks;
  }

  lemma BatchOrNot(n: Node, x: Task)
    requires n.phase.Waiting? && x in Alive(n)
    ensures x in FirmTasks(n, true) || x in n.phase.batch
  {
  }

  lemma CopyStays(c: Cluster, gone: set<WorkerId>, mv: Move, w: WorkerId, x: Task, id: TaskId, a: Option<WorkerId>)
    requires ClusterInv(c) && IsSpot(c, gone, Copy(w, x), id, a) && !mv.MReport? && !Vanishes(c, mv, Copy(w, x))
    ensures IsSpot(After(c, mv), gone, Copy(w, x), id, a)
  {
    hide ClusterInv, NodeInv, Alive, After, Labelled, Local, Agreed;
    AfterNodes(c, mv);
    InvAt(c, w);
    if At(c, mv) == Some(w) {
      if mv.MAck? {
        AckLocal(c, w);
        if Agreed(c, w) { AgreedWaits(c, w); BatchOrNot(c.nodes[w], x); }
      } else {
        LocalStays(c, mv, w);
      }
    }
  }

  lemma AgreedWaits(c: Cluster, w: WorkerId)
    requires Agreed(c, w)
    ensures c.nodes[w].phase.Waiting?
  {
  }

  /** A batch on its way stays so, or its receiver has the copies now. */
  lemma BatchStays(c: Cluster, gone: set<WorkerId>, mv: Move, rid: RequestId, id: TaskId, a: Option<WorkerId>)
    requires ClusterInv(c) && OnItsWay(c, gone, rid, id, a) && !Vanishes(c, mv, Batch(rid))
    ensures Trace(After(c, mv), gone, id, a)
  {
    hide ClusterInv, FirmTasks, Labelled, Local, After, Took, Receive;
    var d := After(c, mv);
    AfterNodes(c, mv);
    AfterExtends(c, mv);
    var x :| x in c.net[rid].tasks && Labelled(x, id, a);
    var to := c.net[rid].to;
    if mv.MDeliver? && mv.rid == rid {
      LocalIs(c, mv, to);
      NowTaken(c, rid, mv.now, x, d.nodes[to].phase.Confirming?);
      SameLabel(x, mv.now, id, a);
      HasOne(d.nodes[to], d.nodes[to].phase.Confirming?, x.(enqueuedAt := mv.now), id, a);
      assert Keeps(d.nodes[to], id, a);
    } else {
      StillUnhandled(c, mv, rid);
      assert OnItsWay(d, gone, rid, id, a);
    }
  }

  lemma StillUnhandled(c: Cluster, mv: Move, rid: RequestId)
    requires rid in c.net && c.net[rid].to in c.nodes && rid !in c.nodes[c.net[rid].to].handled
    requires !(mv.MDeliver? && mv.rid == rid)
    ensures var d := After(c, mv);
            && rid in d.net && d.net[rid] == c.net[rid] && d.net[rid].to in d.nodes
            && rid !in d.nodes[d.net[rid].to].handled
  {
    hide Local, After;
    AfterNodes(c, mv);
    AfterExtends(c, mv);
    if At(c, mv).Some? { LocalHandled(c, mv, At(c, mv).value); }
  }

  lemma SpotStays(c: Cluster, gone: set<WorkerId>, mv: Move, p: Spot, id: TaskId, a: Option<WorkerId>)
    requires ClusterInv(c) && IsSpot(c, gone, p, id, a) && !mv.MReport? && !Vanishes(c, mv, p)
    ensures Trace(After(c, mv), gone, id, a)
  {
    hide ClusterInv, After, Alive, OnItsWay, Vanishes, Trace, Labelled;
    match p
    case Copy(w, x) =>
      CopyStays(c, gone, mv, w, x, id, a);
      SpotsAreTraces(After(c, mv), gone, id, a);
    case Batch(rid) => BatchStays(c, gone, mv, rid, id, a);
  }

  // ---- the last trace vanishes ------------------------------------------------------------------

  lemma LastGivenAway(c: Cluster, gone: set<WorkerId>, w: WorkerId, x: Task, id: TaskId, a: Option<WorkerId>)
    requires ClusterInv(c) && OnlySpot(c, gone, Copy(w, x), id, a) && Vanishes(c, MAck(w), Copy(w, x))
    ensures !Trace(After(c, MAck(w)), gone, id, a)
  {
    hide ClusterInv, NodeInv, Alive, After, Labelled, Local, AnswerFor, Matches, OnItsWay;
    var mv := MAck(w);
    var d := After(c, mv);
    AfterNodes(c, mv);
    InvAt(c, w);
    AckLocal(c, w);
    BatchApart(c.nodes[w], x);
    AckLess(c.nodes[w]);
    SpotsAreTraces(d, gone, id, a);
    forall q ensures !IsSpot(d, gone, q, id, a) {
      match q
      case Copy(v, y) => assert IsSpot(d, gone, q, id, a) ==> IsSpot(c, gone, q, id, a);
      case Batch(rid) =>
        AckNet(c, gone, w, rid, id, a);
        assert IsSpot(d, gone, q, id, a) ==> IsSpot(c, gone, q, id, a);
    }
  }

  lemma AckLess(n: Node)
    requires n.phase.Waiting?
    ensures FirmTasks(n, true) <= Alive(n)
  {
  }

  lemma AckNet(c: Cluster, gone: set<WorkerId>, w: WorkerId, rid: RequestId, id: TaskId, a: Option<WorkerId>)
    ensures OnItsWay(After(c, MAck(w)), gone, rid, id, a) ==> OnItsWay(c, gone, rid, id, a)
  {
    hide Labelled, AckArrives;
    AfterExtends(c, MAck(w));
  }

  lemma LastRefused(c: Cluster, gone: set<WorkerId>, rid: RequestId, now: real, id: TaskId, a: Option<WorkerId>)
    requires ClusterInv(c) && OnlySpot(c, gone, Batch(rid), id, a) && !TookNow(c, rid, now)
    ensures !Trace(After(c, MDeliver(rid, now)), gone, id, a)
  {
    hide ClusterInv, Alive, After, Labelled, Local, TookNow, Receive, OnItsWay;
    var mv := MDeliver(rid, now);
    var d := After(c, mv);
    AfterNodes(c, mv);
    WayTo(c, gone, rid, id, a);
    var to := c.net[rid].to;
    LocalIs(c, mv, to);
    InvRequests(c);
    RefusedUnchanged(c, rid, now);
    SameAlive(c.nodes[to], d.nodes[to]);
    SpotsAreTraces(d, gone, id, a);
    forall q ensures !IsSpot(d, gone, q, id, a) {
      match q
      case Copy(v, y) => assert IsSpot(d, gone, q, id, a) ==> IsSpot(c, gone, q, id, a);
      case Batch(r) =>
        RefusedNet(c, gone, rid, now, r, id, a);
        assert IsSpot(d, gone, q, id, a) ==> r != rid && IsSpot(c, gone, q, id, a);
    }
  }

  lemma InvRequests(c: Cluster)
    requires ClusterInv(c)
    ensures RequestsOk(c)
  {
  }

  lemma WayTo(c: Cluster, gone: set<WorkerId>, rid: RequestId, id: TaskId, a: Option<WorkerId>)
    requires OnItsWay(c, gone, rid, id, a)
    ensures rid in c.net && c.net[rid].to in c.nodes && rid !in c.nodes[c.net[rid].to].handled
    ensures At(c, MDeliver(rid, 0.0)) == Some(c.net[rid].to)
  {
  }

  /** What is on its way after a delivery is another batch, on its way before. */
  lemma RefusedNet(c: Cluster, gone: set<WorkerId>, rid: RequestId, now: real, r: RequestId, id: TaskId,
                   a: Option<WorkerId>)
    requires rid in c.net && c.net[rid].to in c.nodes
    requires rid in Receive(c.nodes[c.net[rid].to], rid, c.net[rid].tasks, now).handled
    ensures OnItsWay(After(c, MDeliver(rid, now)), gone, r, id, a) ==> r != rid && OnItsWay(c, gone, r, id, a)
  {
    hide Labelled, Receive;
    var mv := MDeliver(rid, now);
    AfterNodes(c, mv);
    AfterExtends(c, mv);
    LocalIs(c, mv, c.net[rid].to);
    assert After(c, mv).net == c.net;
  }

  /** Within the workers, a trace vanishes exactly when the last spot is given away or refused. */
  lemma TraceVanishes(c: Cluster, gone: set<WorkerId>, mv: Move, id: TaskId, a: Option<WorkerId>)
    requires ClusterInv(c) && Trace(c, gone, id, a) && !mv.MReport?
    ensures !Trace(After(c, mv), gone, id, a) <==> exists p :: OnlySpot(c, gone, p, id, a) && Vanishes(c, mv, p)
  {
    hide ClusterInv, Trace, After, Alive, OnItsWay, Labelled, TookNow, Agreed;
    SpotsAreTraces(c, gone, id, a);
    if p :| OnlySpot(c, gone, p, id, a) && Vanishes(c, mv, p) {
      match p
      case Copy(w, x) => LastGivenAway(c, gone, w, x, id, a);
      case Batch(rid) => LastRefused(c, gone, rid, mv.now, id, a);
    }
    if !Trace(After(c, mv), gone, id, a) {
      hide IsSpot, Vanishes;
      var p :| IsSpot(c, gone, p, id, a);
      forall q | IsSpot(c, gone, q, id, a) ensures Vanishes(c, mv, q) {
        if !Vanishes(c, mv, q) { SpotStays(c, gone, mv, q, id, a); }
      }
      forall q | IsSpot(c, gone, q, id, a) ensures q == p { VanishesOne(c, gone, mv, p, q, id, a); }
      assert OnlySpot(c, gone, p, id, a) && Vanishes(c, mv, p);
    }
  }

  /** A move makes at most one spot of a task vanish. */
  lemma VanishesOne(c: Cluster, gone: set<WorkerId>, mv: Move, p: Spot, q: Spot, id: TaskId, a: Option<WorkerId>)
    requires ClusterInv(c) && Vanishes(c, mv, p) && Vanishes(c, mv, q)
    requires IsSpot(c, gone, p, id, a) && IsSpot(c, gone, q, id, a)
    ensures p == q
  {
    hide ClusterInv, Alive, OnItsWay, TookNow, AnswerFor, Matches;
    if p.Copy? {
      InvAt(c, p.w);
      BatchDistinct(c.nodes[p.w], p.task, q.task);
    }
  }

  lemma BatchDistinct(n: Node, x: Task, y: Task)
    requires NodeInv(n) && x in PhaseTasks(n.phase) && y in PhaseTasks(n.phase) && x.id == y.id
    ensures x == y
  {
    hide Inv, Works, Distinct;
  }
}
