/**
 * Copies by the assignment they carry. A firm copy labelled with an assignee stays firm at some worker until its
 * result is reported, as long as its worker runs.
 */
module ClusterWitness {
  import opened Basics
  import opened Models
  import opened QueueSpec
  import opened QueueLaws
  import opened NodeSpec
  import opened NodeLaws
  import opened ClusterSpec
  import opened ClusterLaws
  import opened ClusterCopies

  predicate Labelled(x: Task, id: TaskId, a: Option<WorkerId>) {
    x.id == id && x.assignment == a
  }

  ghost predicate HasFirm(n: Node, taken: bool, id: TaskId, a: Option<WorkerId>) {
    exists x :: x in FirmTasks(n, taken) && Labelled(x, id, a)
  }

  /** Some worker that has not ended has a firm copy of the task with this label. */
  ghost predicate Witness(c: Cluster, gone: set<WorkerId>, id: TaskId, a: Option<WorkerId>) {
    exists w :: w in c.nodes && w !in gone && HasFirm(c.nodes[w], Taken(c, w), id, a)
  }

  // ---- a firm copy stays until it is reported -------------------------------------------------

  lemma TakeFirm(n: Node, taken: bool)
    requires NodeInv(n)
    ensures FirmTasks(n, taken) <= FirmTasks(Take(n), taken)
  {
    hide Inv, Works, Reserves, Dequeue;
    DequeueTasks(n.q);
  }

  lemma PickFirm(n: Node)
    requires NodeInv(n)
    ensures FirmTasks(n, false) <= FirmTasks(Pick(n), false)
  {
    hide Works, Reserves, Inv;
    if n.phase.Picking? && |n.phase.todo| > 0 && Reserve(n.q, n.phase.todo[0]).1.Some? {
      ReserveTasks(n.q, n.phase.todo[0]);
      ElemsConcat(n.phase.picked, [Reserve(n.q, n.phase.todo[0]).1.value]);
      hide Reserve;
    }
  }

  lemma HeadAndTail(ts: seq<Task>)
    requires |ts| > 0
    ensures Elems(ts) == {ts[0]} + Elems(ts[1..])
  {
  }

  lemma ReleaseFirm(n: Node, taken: bool)
    requires NodeInv(n)
    ensures FirmTasks(n, taken) <= FirmTasks(ReleaseOne(n), taken)
  {
    hide Inv, Works, Reserves, Release, Elems;
    if n.phase.Releasing? && |n.phase.left| > 0 {
      HeadHeld(n);
      ReleaseTasks(n.q, n.phase.left[0].id);
      HeadAndTail(n.phase.left);
    }
  }

  lemma AdmitFirm(n: Node, t: Task, priority: bool, taken: bool)
    requires NodeInv(n)
    ensures FirmTasks(n, taken) <= FirmTasks(Admit(n, t, priority), taken)
    ensures TryEnqueue(n.q, t, priority).1 == Admitted ==> t in FirmTasks(Admit(n, t, priority), taken)
  {
    hide Inv, Works, Reserves;
    if TryEnqueue(n.q, t, priority).1 == Admitted { EnqueueTasks(n.q, t, priority); }
  }

  lemma ReceiveFirm(n: Node, rid: RequestId, ts: seq<Task>, now: real, taken: bool)
    ensures FirmTasks(n, taken) <= FirmTasks(Receive(n, rid, ts, now), taken)
    ensures Took(n, rid, ts, now) ==> Elems(Stamp(ts, now)) <= FirmTasks(Receive(n, rid, ts, now), taken)
  {
    hide Receive, Took, Queued, Elems, Stamp;
    ReceiveQueued(n, rid, ts, now);
  }

  lemma PhaseFirm(n: Node, peer: WorkerId, count: nat, rid: RequestId, a: Ack, taken: bool)
    ensures FirmTasks(StartPick(n, peer, count), taken) == FirmTasks(n, taken)
    ensures FirmTasks(Send(n, rid), taken) == FirmTasks(n, taken)
    ensures FirmTasks(AckArrives(n, a), taken) == FirmTasks(n, taken)
    ensures FirmTasks(GiveUp(n), taken) == FirmTasks(n, taken)
    ensures FirmTasks(Finish(n), taken) == FirmTasks(n, taken)
    ensures FirmTasks(ConfirmOne(n), true) == FirmTasks(n, true)
    ensures Settle(n) != n ==> FirmTasks(Settle(n), false) == FirmTasks(n, taken)
  {
  }

  /** Which copy a report ends. */
  predicate Reports(c: Cluster, mv: Move, id: TaskId, a: Option<WorkerId>) {
    mv.MReport? && mv.w in c.nodes && c.nodes[mv.w].working.Some? && !c.nodes[mv.w].reported
    && Labelled(c.nodes[mv.w].working.value, id, a)
  }

  lemma LocalFirm(c: Cluster, mv: Move, w: WorkerId)
    requires ClusterInv(c) && w in c.nodes && At(c, mv) == Some(w) && !mv.MDeliver? && !mv.MReport?
    ensures w in After(c, mv).nodes
    ensures FirmTasks(c.nodes[w], Taken(c, w)) <= FirmTasks(After(c, mv).nodes[w], Taken(After(c, mv), w))
  {
    hide ClusterInv, NodeInv, FirmTasks, After, Taken;
    AfterNodes(c, mv);
    InvAt(c, w);
    TakenAfter(c, mv, w);
    PhaseRidKept(c, mv, w);
    ConfirmingTaken(c, w);
    hide Linked;
    var n := c.nodes[w];
    var b := Taken(c, w);
    match mv
    case MAdmit(_, t, priority) => AdmitFirm(n, t, priority, b);
    case MTake(_) => TakeFirm(n, b);
    case MFinish(_) => PhaseFirm(n, "", 0, "", Ack(false, []), b);
    case MStart(_, peer, count) => PhaseFirm(n, peer, count, "", Ack(false, []), b);
    case MPick(_) => PickFirm(n);
    case MSend(_, rid) => PhaseFirm(n, "", 0, rid, Ack(false, []), b);
    case MAck(_) => PhaseFirm(n, "", 0, "", AnswerFor(c, n), b);
    case MGiveUp(_) => PhaseFirm(n, "", 0, "", Ack(false, []), b);
    case MConfirm(_) => PhaseFirm(n, "", 0, "", Ack(false, []), b);
    case MRelease(_) => ReleaseFirm(n, b);
    case MSettle(_) => PhaseFirm(n, "", 0, "", Ack(false, []), b);
  }

  lemma ReportFirm(n: Node, taken: bool, id: TaskId, a: Option<WorkerId>)
    requires HasFirm(n, taken, id, a)
    ensures HasFirm(Report(n), taken, id, a) || (n.working.Some? && !n.reported && Labelled(n.working.value, id, a))
  {
  }

  lemma FirmMore(n: Node, taken: bool, n': Node, taken': bool, id: TaskId, a: Option<WorkerId>)
    requires HasFirm(n, taken, id, a) && FirmTasks(n, taken) <= FirmTasks(n', taken')
    ensures HasFirm(n', taken', id, a)
  {
  }

  lemma WitnessAt(c: Cluster, gone: set<WorkerId>, w: WorkerId, id: TaskId, a: Option<WorkerId>)
    requires w in c.nodes && w !in gone && HasFirm(c.nodes[w], Taken(c, w), id, a)
    ensures Witness(c, gone, id, a)
  {
  }

  /** A worker the move does not concern keeps its firm copies as they are. */
  lemma ElsewhereFirm(c: Cluster, mv: Move, v: WorkerId)
    requires ClusterInv(c) && v in c.nodes && At(c, mv) != Some(v)
    requires mv.MDeliver? ==> PhaseRid(c.nodes[v].phase) != Some(mv.rid)
    ensures var d := After(c, mv); v in d.nodes && d.nodes[v] == c.nodes[v] && Taken(d, v) == Taken(c, v)
  {
    hide NodesOk, LinksOk, RequestsOk, FatesOk, HistoryOk, Accepted, Local;
    AfterNodes(c, mv);
    hide After;
    if PhaseRid(c.nodes[v].phase).Some? { AcceptedSame(c, mv, PhaseRid(c.nodes[v].phase).value); }
  }

  lemma StampLabels(ts: seq<Task>, now: real, x: Task)
    requires x in ts
    ensures x.(enqueuedAt := now) in Stamp(ts, now)
  {
  }

  /** A delivery moves the witness along: what the sender no longer counts, the receiver now has. */
  lemma DeliverWitness(c: Cluster, gone: set<WorkerId>, rid: RequestId, now: real, v: WorkerId, id: TaskId,
                       a: Option<WorkerId>)
    requires ClusterInv(c) && rid in c.net && v in c.nodes && HasFirm(c.nodes[v], Taken(c, v), id, a)
    requires v !in gone && c.net[rid].to !in gone
    ensures Witness(After(c, MDeliver(rid, now)), gone, id, a)
  {
    hide ClusterInv, HasFirm, After, Taken, FirmTasks, Receive, TookNow;
    var mv := MDeliver(rid, now);
    AfterNodes(c, mv);
    ReceiverKnown(c, rid);
    var d := After(c, mv);
    var to := c.net[rid].to;
    var ts := c.net[rid].tasks;
    SamePhase(c.nodes[to], rid, ts, now);
    if v == to {
      OtherTransfer(c, rid, now, to);
      ReceiveFirm(c.nodes[to], rid, ts, now, Taken(c, to));
      FirmMore(c.nodes[to], Taken(c, to), d.nodes[to], Taken(d, to), id, a);
      WitnessAt(d, gone, to, id, a);
    } else if PhaseRid(c.nodes[v].phase) != Some(rid) {
      ElsewhereFirm(c, mv, v);
      WitnessAt(d, gone, v, id, a);
    } else {
      SenderWitness(c, gone, rid, now, v, id, a);
    }
  }

  lemma ReceiverKnown(c: Cluster, rid: RequestId)
    requires ClusterInv(c) && rid in c.net
    ensures c.net[rid].to in c.nodes && PhaseRid(c.nodes[c.net[rid].to].phase) != Some(rid)
  {
    hide NodesOk, AnswersOk, FatesOk, HistoryOk;
    assert RequestOk(c, c.net[rid]);
    assert Linked(c, c.net[rid].to, c.nodes[c.net[rid].to].phase);
    NotToSelf(c, c.net[rid].to, rid);
  }

  lemma SenderWitness(c: Cluster, gone: set<WorkerId>, rid: RequestId, now: real, v: WorkerId, id: TaskId,
                      a: Option<WorkerId>)
    requires ClusterInv(c) && rid in c.net && v in c.nodes && v != c.net[rid].to
    requires PhaseRid(c.nodes[v].phase) == Some(rid) && HasFirm(c.nodes[v], Taken(c, v), id, a)
    requires v !in gone && c.net[rid].to !in gone
    ensures Witness(After(c, MDeliver(rid, now)), gone, id, a)
  {
    hide ClusterInv, Receive, After, Linked, NodeInv, Accepted, TookNow, Labelled;
    var mv := MDeliver(rid, now);
    AfterNodes(c, mv);
    ReceiverKnown(c, rid);
    InvAt(c, v);
    BatchPart(c, v);
    AcceptedDelivered(c, rid, now);
    var d := After(c, mv);
    var to := c.net[rid].to;
    var ts := c.net[rid].tasks;
    var x :| x in FirmTasks(c.nodes[v], Taken(c, v)) && Labelled(x, id, a);
    if x in FirmTasks(d.nodes[v], Taken(d, v)) {
      assert HasFirm(d.nodes[v], Taken(d, v), id, a);
      WitnessAt(d, gone, v, id, a);
    } else {
      assert TookNow(c, rid, now) && x in ts;
      NowTaken(c, rid, now, x, Taken(d, to));
      SameLabel(x, now, id, a);
      assert HasFirm(d.nodes[to], Taken(d, to), id, a);
      WitnessAt(d, gone, to, id, a);
    }
  }

  lemma SameLabel(x: Task, now: real, id: TaskId, a: Option<WorkerId>)
    ensures Labelled(x.(enqueuedAt := now), id, a) <==> Labelled(x, id, a)
  {
  }

  lemma NowTaken(c: Cluster, rid: RequestId, now: real, x: Task, taken: bool)
    requires TookNow(c, rid, now) && x in c.net[rid].tasks
    ensures var n := c.nodes[c.net[rid].to];
            x.(enqueuedAt := now) in FirmTasks(Receive(n, rid, c.net[rid].tasks, now), taken)
  {
    hide Took, Receive, FirmTasks;
    var n := c.nodes[c.net[rid].to];
    StampLabels(c.net[rid].tasks, now, x);
    ReceiveFirm(n, rid, c.net[rid].tasks, now, taken);
  }

  /** What a transfer keeps reserved is part of its request. */
  lemma BatchPart(c: Cluster, w: WorkerId)
    requires w in c.nodes && Linked(c, w, c.nodes[w].phase)
    ensures var p := c.nodes[w].phase;
            PhaseRid(p).Some? ==>
              PhaseRid(p).value in c.net && Elems(PhaseTasks(p)) <= Elems(c.net[PhaseRid(p).value].tasks)
  {
  }

  /** A firm copy with this label survives every move but the report of that very copy. */
  lemma WitnessKept(c: Cluster, gone: set<WorkerId>, mv: Move, id: TaskId, a: Option<WorkerId>)
    requires ClusterInv(c) && Witness(c, gone, id, a) && Runs(c, gone, mv)
    ensures Witness(After(c, mv), gone, id, a) || Reports(c, mv, id, a)
  {
    hide ClusterInv, HasFirm, After, Taken, FirmTasks, Local;
    var v :| v in c.nodes && v !in gone && HasFirm(c.nodes[v], Taken(c, v), id, a);
    var d := After(c, mv);
    AfterNodes(c, mv);
    if mv.MDeliver? {
      if mv.rid in c.net {
        ReceiverKnown(c, mv.rid);
        DeliverWitness(c, gone, mv.rid, mv.now, v, id, a);
      }
      else { Undeliverable(c, mv); WitnessAt(c, gone, v, id, a); }
    } else if At(c, mv) != Some(v) {
      ElsewhereFirm(c, mv, v);
      WitnessAt(d, gone, v, id, a);
    } else if mv.MReport? {
      ReportFirm(c.nodes[v], Taken(c, v), id, a);
      TakenAfter(c, mv, v);
      PhaseRidKept(c, mv, v);
      ReportLocal(c, mv, v);
      if HasFirm(d.nodes[v], Taken(d, v), id, a) { WitnessAt(d, gone, v, id, a); }
    } else {
      LocalFirm(c, mv, v);
      FirmMore(c.nodes[v], Taken(c, v), d.nodes[v], Taken(d, v), id, a);
      WitnessAt(d, gone, v, id, a);
    }
  }

  lemma ReportLocal(c: Cluster, mv: Move, w: WorkerId)
    requires w in c.nodes && At(c, mv) == Some(w) && mv.MReport?
    ensures Local(c, mv, w) == Report(c.nodes[w])
  {
  }

  /** An admitted task is a witness for the label it carries. */
  lemma AdmittedWitness(c: Cluster, gone: set<WorkerId>, w: WorkerId, t: Task, priority: bool, a: Option<WorkerId>)
    requires ClusterInv(c) && w in c.nodes && TryEnqueue(c.nodes[w].q, t, priority).1 == Admitted && t.assignment == a
    requires w !in gone
    ensures Witness(After(c, MAdmit(w, t, priority)), gone, t.id, a)
  {
    hide ClusterInv, NodeInv, Taken, TryEnqueue;
    var d := After(c, MAdmit(w, t, priority));
    InvAt(c, w);
    AfterNodes(c, MAdmit(w, t, priority));
    AdmitFirm(c.nodes[w], t, priority, Taken(d, w));
    assert d.nodes[w] == Admit(c.nodes[w], t, priority);
    hide Admit, FirmTasks;
    assert Labelled(t, t.id, a);
    assert HasFirm(d.nodes[w], Taken(d, w), t.id, a);
    WitnessAt(d, gone, w, t.id, a);
  }
}
