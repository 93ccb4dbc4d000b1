/** No move makes up a copy: a label that is on no copy and in no undelivered transfer never comes back. */
module ClusterTrace {
  import opened Basics
  import opened Models
  import opened QueueSpec
  import opened QueueLaws
  import opened NodeSpec
  import opened NodeLaws
  import opened ClusterSpec
  import opened ClusterLaws
  import opened ClusterCopies
  import opened ClusterWitness

  /** The request still waits to be taken, by a worker that runs, and would bring a copy with this label. */
  ghost predicate OnItsWay(c: Cluster, gone: set<WorkerId>, rid: RequestId, id: TaskId, a: Option<WorkerId>) {
    && rid in c.net && c.net[rid].to in c.nodes && c.net[rid].to !in gone
    && rid !in c.nodes[c.net[rid].to].handled
    && exists x :: x in c.net[rid].tasks && Labelled(x, id, a)
  }

  /** The worker has a copy with this label that it may still report: any but those it is about to confirm away. */
  ghost predicate Keeps(n: Node, id: TaskId, a: Option<WorkerId>) {
    HasFirm(n, n.phase.Confirming?, id, a)
  }

  /** Anything that could still lead to a result with this label: a copy at a worker that runs, or a batch under way. */
  ghost predicate Trace(c: Cluster, gone: set<WorkerId>, id: TaskId, a: Option<WorkerId>) {
    || (exists w :: w in c.nodes && w !in gone && Keeps(c.nodes[w], id, a))
    || (exists rid :: OnItsWay(c, gone, rid, id, a))
  }

  lemma FirmIsTrace(c: Cluster, gone: set<WorkerId>, id: TaskId, a: Option<WorkerId>)
    requires ClusterInv(c) && Witness(c, gone, id, a)
    ensures Trace(c, gone, id, a)
  {
    hide ClusterInv, NodeInv, FirmTasks, Taken, Accepted;
    var w :| w in c.nodes && w !in gone && HasFirm(c.nodes[w], Taken(c, w), id, a);
    InvAt(c, w);
    ConfirmingTaken(c, w);
    hide Linked;
    ReservedLess(c.nodes[w]);
  }

  /** With more workers ended there are no more traces. */
  lemma StillRunning(c: Cluster, gone: set<WorkerId>, more: set<WorkerId>, id: TaskId, a: Option<WorkerId>)
    requires gone <= more && Trace(c, more, id, a)
    ensures Trace(c, gone, id, a)
  {
    hide Keeps;
    if rid :| OnItsWay(c, more, rid, id, a) { assert OnItsWay(c, gone, rid, id, a); }
  }

  // ---- the tasks a worker has anything to do with, after each section ----------------------------

  lemma TakeFrom(n: Node, taken: bool)
    requires NodeInv(n)
    ensures FirmTasks(Take(n), taken) <= FirmTasks(n, taken)
  {
    hide Inv, Works, Reserves, Dequeue;
    DequeueTasks(n.q);
  }

  lemma PickFrom(n: Node)
    requires NodeInv(n)
    ensures FirmTasks(Pick(n), false) <= FirmTasks(n, false)
  {
    hide Works, Reserves, Inv;
    if n.phase.Picking? && |n.phase.todo| > 0 && Reserve(n.q, n.phase.todo[0]).1.Some? {
      ReserveTasks(n.q, n.phase.todo[0]);
      ElemsConcat(n.phase.picked, [Reserve(n.q, n.phase.todo[0]).1.value]);
      hide Reserve;
    }
  }

  /** The copy a release makes firm again: one whose receiver has taken it. */
  function FirmAgain(n: Node, taken: bool): set<Task> {
    if taken && n.phase.Releasing? && |n.phase.left| > 0 then {n.phase.left[0]} else {}
  }

  lemma ReleaseFrom(n: Node, taken: bool)
    requires NodeInv(n)
    ensures FirmTasks(ReleaseOne(n), taken) <= FirmTasks(n, taken) + FirmAgain(n, taken)
    ensures FirmAgain(n, taken) <= FirmTasks(ReleaseOne(n), taken)
  {
    hide Inv, Works, Reserves, Release, Elems;
    if n.phase.Releasing? && |n.phase.left| > 0 {
      HeadHeld(n);
      ReleaseTasks(n.q, n.phase.left[0].id);
      HeadAndTail(n.phase.left);
    }
  }

  lemma AdmitFrom(n: Node, t: Task, priority: bool, taken: bool)
    requires NodeInv(n)
    ensures FirmTasks(Admit(n, t, priority), taken) <=
            FirmTasks(n, taken) + (if TryEnqueue(n.q, t, priority).1 == Admitted then {t} else {})
  {
    hide Inv, Works, Reserves;
    if TryEnqueue(n.q, t, priority).1 == Admitted { EnqueueTasks(n.q, t, priority); }
  }

  lemma ReceiveFrom(n: Node, rid: RequestId, ts: seq<Task>, now: real, taken: bool)
    ensures FirmTasks(Receive(n, rid, ts, now), taken) <=
            FirmTasks(n, taken) + (if Took(n, rid, ts, now) then Elems(Stamp(ts, now)) else {})
  {
    hide Receive, Took, Queued, Elems, Stamp;
    ReceiveQueued(n, rid, ts, now);
  }

  /** The copies of a worker that it may still report. */
  function Alive(n: Node): set<Task> {
    FirmTasks(n, n.phase.Confirming?)
  }

  lemma KeepsLess(n: Node, n': Node, id: TaskId, a: Option<WorkerId>)
    requires Keeps(n', id, a) && Alive(n') <= Alive(n)
    ensures Keeps(n, id, a)
  {
  }

  lemma ReservedLess(n: Node)
    ensures FirmTasks(n, true) <= FirmTasks(n, false)
  {
  }

  lemma LocalFrom(c: Cluster, mv: Move, w: WorkerId)
    requires w in c.nodes && At(c, mv) == Some(w) && NodeInv(c.nodes[w]) && !mv.MDeliver? && !mv.MAdmit?
    ensures Alive(Local(c, mv, w)) <= Alive(c.nodes[w])
  {
    hide NodeInv, FirmTasks, Dequeue, Reserve, Release, Confirm, MarkDone, Matches, Peek;
    var n := c.nodes[w];
    var b := n.phase.Confirming?;
    ReservedLess(n);
    match mv
    case MTake(_) => TakeFrom(n, b);
    case MReport(_) => ReportFrom(n, b);
    case MFinish(_) => PhaseFirm(n, "", 0, "", Ack(false, []), b);
    case MStart(_, peer, count) => PhaseFirm(n, peer, count, "", Ack(false, []), b);
    case MPick(_) => PickFrom(n);
    case MSend(_, rid) => PhaseFirm(n, "", 0, rid, Ack(false, []), b);
    case MAck(_) => PhaseFirm(n, "", 0, "", AnswerFor(c, n), true);
    case MGiveUp(_) => PhaseFirm(n, "", 0, "", Ack(false, []), b);
    case MConfirm(_) => PhaseFirm(n, "", 0, "", Ack(false, []), b);
    case MRelease(_) => ReleaseFrom(n, b);
    case MSettle(_) => PhaseFirm(n, "", 0, "", Ack(false, []), b);
  }

  lemma ReportFrom(n: Node, taken: bool)
    ensures FirmTasks(Report(n), taken) <= FirmTasks(n, taken)
  {
  }

  lemma AdmitTrace(c: Cluster, mv: Move, id: TaskId, a: Option<WorkerId>)
    requires mv.MAdmit? && mv.w in c.nodes && NodeInv(c.nodes[mv.w])
    requires Keeps(Admit(c.nodes[mv.w], mv.task, mv.priority), id, a) && !Labelled(mv.task, id, a)
    ensures Keeps(c.nodes[mv.w], id, a)
  {
    hide NodeInv, FirmTasks, TryEnqueue;
    var n := c.nodes[mv.w];
    var b := n.phase.Confirming?;
    AdmitFrom(n, mv.task, mv.priority, b);
    var x :| x in FirmTasks(Admit(n, mv.task, mv.priority), b) && Labelled(x, id, a);
    assert x in FirmTasks(n, b);
  }

  lemma UnStamp(ts: seq<Task>, now: real, x: Task) returns (y: Task)
    requires x in Stamp(ts, now)
    ensures y in ts && x == y.(enqueuedAt := now)
  {
    StampIds(ts, now);
    var i :| 0 <= i < |Stamp(ts, now)| && Stamp(ts, now)[i] == x;
    y := ts[i];
  }

  lemma DeliverTrace(c: Cluster, gone: set<WorkerId>, rid: RequestId, now: real, id: TaskId, a: Option<WorkerId>)
    requires rid in c.net && c.net[rid].to in c.nodes && c.net[rid].to !in gone
    requires Keeps(Receive(c.nodes[c.net[rid].to], rid, c.net[rid].tasks, now), id, a)
    ensures Trace(c, gone, id, a)
  {
    hide FirmTasks, Receive, Took;
    var n := c.nodes[c.net[rid].to];
    var ts := c.net[rid].tasks;
    var b := n.phase.Confirming?;
    SamePhase(n, rid, ts, now);
    ReceiveFrom(n, rid, ts, now, b);
    TookIsNew(n, rid, ts, now);
    var x :| x in FirmTasks(Receive(n, rid, ts, now), b) && Labelled(x, id, a);
    if x in FirmTasks(n, b) {
      assert Keeps(n, id, a);
    } else {
      var y := UnStamp(ts, now, x);
      assert Labelled(y, id, a);
      assert OnItsWay(c, gone, rid, id, a);
    }
  }

  lemma TookIsNew(n: Node, rid: RequestId, ts: seq<Task>, now: real)
    ensures Took(n, rid, ts, now) ==> rid !in n.handled
  {
  }

  /** A batch on its way was on its way before, or has just been sent by a worker that had the copy. */
  lemma OnItsWayFrom(c: Cluster, gone: set<WorkerId>, mv: Move, rid: RequestId, id: TaskId, a: Option<WorkerId>)
    requires OnItsWay(After(c, mv), gone, rid, id, a) && Runs(c, gone, mv)
    ensures Trace(c, gone, id, a)
  {
    hide Local, HasFirm, Labelled;
    AfterNodes(c, mv);
    AfterExtends(c, mv);
    if rid in c.net {
      assert OnItsWay(c, gone, rid, id, a);
    } else {
      assert mv.MSend? && mv.w in c.nodes && ReadyToSend(c.nodes[mv.w]);
      assert After(c, mv).net[rid].tasks == c.nodes[mv.w].phase.picked;
      var x :| x in After(c, mv).net[rid].tasks && Labelled(x, id, a);
      hide After;
      PickedFirm(c.nodes[mv.w], x, id, a);
    }
  }

  lemma PickedFirm(n: Node, x: Task, id: TaskId, a: Option<WorkerId>)
    requires n.phase.Picking? && x in n.phase.picked && Labelled(x, id, a)
    ensures Keeps(n, id, a)
  {
  }

  /** No move but the admission of a TASK with this label can start a trace of it. */
  lemma TraceFrom(c: Cluster, gone: set<WorkerId>, mv: Move, id: TaskId, a: Option<WorkerId>)
    requires NodesOk(c) && Trace(After(c, mv), gone, id, a) && Runs(c, gone, mv)
    requires !(mv.MAdmit? && Labelled(mv.task, id, a))
    ensures Trace(c, gone, id, a)
  {
    hide NodeInv, Keeps, OnItsWay, Local, After, Labelled, Admit, Receive, Alive;
    var d := After(c, mv);
    AfterNodes(c, mv);
    if rid :| OnItsWay(d, gone, rid, id, a) {
      OnItsWayFrom(c, gone, mv, rid, id, a);
    } else {
      var v :| v in d.nodes && v !in gone && Keeps(d.nodes[v], id, a);
      if At(c, mv) == Some(v) {
        LocalIs(c, mv, v);
        if mv.MDeliver? { DeliverTrace(c, gone, mv.rid, mv.now, id, a); }
        else if mv.MAdmit? { AdmitTrace(c, mv, id, a); }
        else { LocalFrom(c, mv, v); KeepsLess(c.nodes[v], d.nodes[v], id, a); }
      }
    }
  }

  lemma LocalIs(c: Cluster, mv: Move, w: WorkerId)
    requires w in c.nodes && At(c, mv) == Some(w)
    ensures mv.MDeliver? ==>
            && mv.rid in c.net
            && c.net[mv.rid].to == w
            && Local(c, mv, w) == Receive(c.nodes[w], mv.rid, c.net[mv.rid].tasks, mv.now)
    ensures mv.MAdmit? ==> Local(c, mv, w) == Admit(c.nodes[w], mv.task, mv.priority)
  {
  }

  /** A copy about to be reported is a trace. */
  lemma ReportsTrace(c: Cluster, gone: set<WorkerId>, mv: Move, id: TaskId, a: Option<WorkerId>)
    requires Reports(c, mv, id, a) && mv.w !in gone
    ensures Trace(c, gone, id, a)
  {
  }

  // ---- where a firm copy comes from -------------------------------------------------------------

  ghost predicate BatchLabelled(ts: seq<Task>, id: TaskId, a: Option<WorkerId>) {
    exists x :: x in ts && Labelled(x, id, a)
  }

  /** The moves that make a labelled copy firm: an admission, an intake, or taking back what the receiver has too. */
  ghost predicate MakesFirm(c: Cluster, mv: Move, id: TaskId, a: Option<WorkerId>) {
    && At(c, mv).Some?
    && (|| (mv.MAdmit? && TryEnqueue(c.nodes[mv.w].q, mv.task, mv.priority).1 == Admitted && Labelled(mv.task, id, a))
        || (mv.MDeliver? && TookNow(c, mv.rid, mv.now) && BatchLabelled(c.net[mv.rid].tasks, id, a))
        || (mv.MRelease? && TakesBack(c, mv) && Taken(c, mv.w) && Labelled(c.nodes[mv.w].phase.left[0], id, a)))
  }

  /** What a move adds to its worker's firm copies. */
  function Firmed(c: Cluster, mv: Move, w: WorkerId): set<Task>
    requires w in c.nodes
  {
    if mv.MAdmit? && TryEnqueue(c.nodes[w].q, mv.task, mv.priority).1 == Admitted then {mv.task}
    else if mv.MRelease? then FirmAgain(c.nodes[w], Taken(c, w))
    else {}
  }

  lemma LocalFirmed(c: Cluster, mv: Move, w: WorkerId)
    requires ClusterInv(c) && w in c.nodes && At(c, mv) == Some(w) && !mv.MDeliver?
    ensures w in After(c, mv).nodes
    ensures FirmTasks(After(c, mv).nodes[w], Taken(After(c, mv), w)) <= FirmTasks(c.nodes[w], Taken(c, w)) +
            Firmed(c, mv, w)
  {
    hide ClusterInv, NodeInv, FirmTasks, After, Taken;
    AfterNodes(c, mv);
    InvAt(c, w);
    TakenAfter(c, mv, w);
    PhaseRidKept(c, mv, w);
    ConfirmingTaken(c, w);
    hide Linked;
    var n := c.nodes[w];
    var b := Taken(c, w);
    match mv
    case MAdmit(_, t, priority) => AdmitFrom(n, t, priority, b);
    case MTake(_) => TakeFrom(n, b);
    case MReport(_) => ReportFrom(n, b);
    case MFinish(_) => PhaseFirm(n, "", 0, "", Ack(false, []), b);
    case MStart(_, peer, count) => PhaseFirm(n, peer, count, "", Ack(false, []), b);
    case MPick(_) => PickFrom(n);
    case MSend(_, rid) => PhaseFirm(n, "", 0, rid, Ack(false, []), b);
    case MAck(_) => PhaseFirm(n, "", 0, "", AnswerFor(c, n), b);
    case MGiveUp(_) => PhaseFirm(n, "", 0, "", Ack(false, []), b);
    case MConfirm(_) => PhaseFirm(n, "", 0, "", Ack(false, []), b);
    case MRelease(_) => ReleaseFrom(n, b);
    case MSettle(_) => PhaseFirm(n, "", 0, "", Ack(false, []), b);
  }

  /** A sender's copies do not become firm by being taken. */
  lemma TakenGrows(c: Cluster, mv: Move, v: WorkerId)
    requires ClusterInv(c) && v in c.nodes && At(c, mv) != Some(v)
    ensures var d := After(c, mv);
            v in d.nodes && d.nodes[v] == c.nodes[v] &&
                FirmTasks(d.nodes[v], Taken(d, v)) <= FirmTasks(c.nodes[v], Taken(c, v))
  {
    hide ClusterInv, Local, Accepted;
    AfterNodes(c, mv);
    AfterExtends(c, mv);
    hide After;
    if Taken(c, v) { AcceptedExtends(c, After(c, mv), PhaseRid(c.nodes[v].phase).value); }
  }

  lemma FirmFrom(n: Node, taken: bool, n': Node, taken': bool, more: set<Task>, id: TaskId, a: Option<WorkerId>)
    requires HasFirm(n', taken', id, a) && FirmTasks(n', taken') <= FirmTasks(n, taken) + more
    ensures HasFirm(n, taken, id, a) || exists x :: x in more && Labelled(x, id, a)
  {
  }

  /** A labelled firm copy was there before, or the move made one. */
  lemma WitnessFrom(c: Cluster, gone: set<WorkerId>, mv: Move, id: TaskId, a: Option<WorkerId>)
    requires ClusterInv(c) && Witness(After(c, mv), gone, id, a)
    ensures Witness(c, gone, id, a) || MakesFirm(c, mv, id, a)
  {
    hide ClusterInv, HasFirm, Local, After, Labelled, FirmTasks, Taken, TookNow, Receive, Took;
    var d := After(c, mv);
    AfterNodes(c, mv);
    var v :| v in d.nodes && v !in gone && HasFirm(d.nodes[v], Taken(d, v), id, a);
    if At(c, mv) != Some(v) {
      TakenGrows(c, mv, v);
      FirmFrom(c.nodes[v], Taken(c, v), d.nodes[v], Taken(d, v), {}, id, a);
    } else if mv.MDeliver? {
      IntakeFrom(c, mv.rid, mv.now, id, a);
    } else {
      LocalFirmed(c, mv, v);
      FirmFrom(c.nodes[v], Taken(c, v), d.nodes[v], Taken(d, v), Firmed(c, mv, v), id, a);
    }
    if HasFirm(c.nodes[v], Taken(c, v), id, a) { WitnessAt(c, gone, v, id, a); }
  }

  lemma IntakeFrom(c: Cluster, rid: RequestId, now: real, id: TaskId, a: Option<WorkerId>)
    requires ClusterInv(c) && rid in c.net && c.net[rid].to in c.nodes
    requires var d := After(c, MDeliver(rid, now));
             c.net[rid].to in d.nodes && HasFirm(d.nodes[c.net[rid].to], Taken(d, c.net[rid].to), id, a)
    ensures HasFirm(c.nodes[c.net[rid].to], Taken(c, c.net[rid].to), id, a)
            || (TookNow(c, rid, now) && BatchLabelled(c.net[rid].tasks, id, a))
  {
    hide ClusterInv, HasFirm, After, FirmTasks, Taken, Receive, Took;
    var mv := MDeliver(rid, now);
    var to, ts := c.net[rid].to, c.net[rid].tasks;
    var d := After(c, mv);
    AfterNodes(c, mv);
    ReceiverKnown(c, rid);
    SamePhase(c.nodes[to], rid, ts, now);
    OtherTransfer(c, rid, now, to);
    ReceiveFrom(c.nodes[to], rid, ts, now, Taken(c, to));
    var more := if Took(c.nodes[to], rid, ts, now) then Elems(Stamp(ts, now)) else {};
    FirmFrom(c.nodes[to], Taken(c, to), d.nodes[to], Taken(d, to), more, id, a);
    if x :| x in more && Labelled(x, id, a) {
      var y := UnStamp(ts, now, x);
      SameLabel(y, now, id, a);
    }
  }

  /** Conversely such a move leaves a labelled firm copy. */
  lemma MadeFirm(c: Cluster, gone: set<WorkerId>, mv: Move, id: TaskId, a: Option<WorkerId>)
    requires ClusterInv(c) && MakesFirm(c, mv, id, a) && Runs(c, gone, mv)
    ensures Witness(After(c, mv), gone, id, a)
  {
    hide ClusterInv, Witness, After;
    if mv.MAdmit? { AdmittedLabel(c, gone, mv, id, a); }
    else if mv.MDeliver? { TakenLabel(c, gone, mv, id, a); }
    else { ReleasedLabel(c, gone, mv, id, a); }
  }

  lemma AdmittedLabel(c: Cluster, gone: set<WorkerId>, mv: Move, id: TaskId, a: Option<WorkerId>)
    requires ClusterInv(c) && mv.MAdmit? && MakesFirm(c, mv, id, a) && Runs(c, gone, mv)
    ensures Witness(After(c, mv), gone, id, a)
  {
    AdmittedWitness(c, gone, mv.w, mv.task, mv.priority, a);
    hide ClusterInv, After, Witness, TryEnqueue;
  }

  lemma TakenLabel(c: Cluster, gone: set<WorkerId>, mv: Move, id: TaskId, a: Option<WorkerId>)
    requires ClusterInv(c) && mv.MDeliver? && MakesFirm(c, mv, id, a) && Runs(c, gone, mv)
    ensures Witness(After(c, mv), gone, id, a)
  {
    hide ClusterInv, HasFirm, After, FirmTasks, Taken, Receive, TookNow, Labelled;
    AfterNodes(c, mv);
    var w := At(c, mv).value;
    var d := After(c, mv);
    var x :| x in c.net[mv.rid].tasks && Labelled(x, id, a);
    NowTaken(c, mv.rid, mv.now, x, Taken(d, w));
    SameLabel(x, mv.now, id, a);
    HasOne(d.nodes[w], Taken(d, w), x.(enqueuedAt := mv.now), id, a);
    WitnessAt(d, gone, w, id, a);
  }

  lemma ReleasedLabel(c: Cluster, gone: set<WorkerId>, mv: Move, id: TaskId, a: Option<WorkerId>)
    requires ClusterInv(c) && mv.MRelease? && MakesFirm(c, mv, id, a) && Runs(c, gone, mv)
    ensures Witness(After(c, mv), gone, id, a)
  {
    hide ClusterInv, HasFirm, After, FirmTasks, Taken, ReleaseOne, Labelled, NodeInv;
    AfterNodes(c, mv);
    var w := mv.w;
    var d := After(c, mv);
    InvAt(c, w);
    PhaseRidKept(c, mv, w);
    TakenAfter(c, mv, w);
    ReleaseFrom(c.nodes[w], true);
    HasOne(d.nodes[w], Taken(d, w), c.nodes[w].phase.left[0], id, a);
    WitnessAt(d, gone, w, id, a);
  }

  lemma HasOne(n: Node, taken: bool, x: Task, id: TaskId, a: Option<WorkerId>)
    requires x in FirmTasks(n, taken) && Labelled(x, id, a)
    ensures HasFirm(n, taken, id, a)
  {
  }
}
