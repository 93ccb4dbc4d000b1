/** The conservation law of the P2P layer, and what it says about confirmations. */
module ClusterCopies {
  import opened Basics
  import opened Models
  import opened QueueSpec
  import opened QueueLaws
  import opened NodeSpec
  import opened NodeLaws
  import opened ClusterSpec
  import opened ClusterLaws

  lemma AcceptedSame(c: Cluster, mv: Move, rid: RequestId)
    requires AnswersOk(c) && (mv.MDeliver? ==> mv.rid != rid)
    ensures Accepted(After(c, mv), rid) <==> Accepted(c, rid)
  {
    hide Local;
    AfterNodes(c, mv);
    if At(c, mv).Some? { LocalHandled(c, mv, At(c, mv).value); }
    assert forall w :: w in c.nodes && rid in c.nodes[w].handled ==> AnswerOk(c, w, rid, c.nodes[w].handled[rid]);
    hide AnswerOk;
  }

  /** What a move other than a delivery adds to its worker's firm copies. */
  function Gain(c: Cluster, mv: Move): set<TaskId> {
    if At(c, mv).None? then {} else
      var w := At(c, mv).value;
      var n := c.nodes[w];
      if mv.MAdmit? && TryEnqueue(n.q, mv.task, mv.priority).1 == Admitted then {mv.task.id}
      else if mv.MRelease? && n.phase.Releasing? && |n.phase.left| > 0 && Taken(c, w) then {n.phase.left[0].id}
      else {}
  }

  /** What it takes away: only a report does. */
  function Loss(c: Cluster, mv: Move): set<TaskId> {
    if mv.MReport? && mv.w in c.nodes && c.nodes[mv.w].working.Some? && !c.nodes[mv.w].reported
    then {c.nodes[mv.w].working.value.id} else {}
  }

  /** Sending either changes nothing or starts waiting under an id that is new. */
  lemma SendPhase(c: Cluster, w: WorkerId, rid: RequestId)
    requires w in c.nodes
    ensures var p := PhaseRid(c.nodes[w].phase);
            var p' := PhaseRid(Local(c, MSend(w, rid), w).phase);
            p' == p || (p.None? && p' == Some(rid) && rid !in c.net)
  {
  }

  lemma InvAnswers(c: Cluster)
    requires ClusterInv(c)
    ensures AnswersOk(c)
  {
  }

  lemma TakenAfter(c: Cluster, mv: Move, w: WorkerId)
    requires ClusterInv(c) && w in c.nodes && At(c, mv) == Some(w) && !mv.MDeliver?
    ensures w in After(c, mv).nodes
    ensures PhaseRid(Local(c, mv, w).phase) == PhaseRid(c.nodes[w].phase) ==> Taken(After(c, mv), w) == Taken(c, w)
    ensures mv.MSend? ==> Taken(After(c, mv), w) == Taken(c, w)
    ensures PhaseRid(c.nodes[w].phase).None? ==> !Taken(c, w)
    ensures PhaseRid(Local(c, mv, w).phase).None? ==> !Taken(After(c, mv), w)
  {
    hide ClusterInv, Local, After, Accepted, PhaseRid, AnswersOk;
    AfterNodes(c, mv);
    InvAnswers(c);
    var rid := PhaseRid(Local(c, mv, w).phase);
    if rid.Some? {
      AcceptedSame(c, mv, rid.value);
    }
    if mv.MSend? {
      SendPhase(c, w, mv.rid);
      FreshUnanswered(c, mv.rid);
    }
  }

  lemma InvAt(c: Cluster, w: WorkerId)
    requires ClusterInv(c) && w in c.nodes
    ensures Linked(c, w, c.nodes[w].phase) && NodeInv(c.nodes[w])
    ensures PhaseRid(c.nodes[w].phase).Some? ==> PhaseRid(c.nodes[w].phase).value in c.net
  {
  }

  lemma FreshUnanswered(c: Cluster, rid: RequestId)
    ensures rid !in c.net ==> !Accepted(c, rid)
  {
  }

  lemma PhaseRidKept(c: Cluster, mv: Move, w: WorkerId)
    requires w in c.nodes && At(c, mv) == Some(w)
    ensures !mv.MSend? && !mv.MSettle? ==> PhaseRid(Local(c, mv, w).phase) == PhaseRid(c.nodes[w].phase)
    ensures mv.MSettle? ==> Local(c, mv, w) == c.nodes[w] || PhaseRid(Local(c, mv, w).phase).None?
    ensures mv.MPick? ==> Local(c, mv, w) == c.nodes[w] || PhaseRid(c.nodes[w].phase).None?
  {
  }

  lemma ConfirmingTaken(c: Cluster, w: WorkerId)
    requires w in c.nodes && Linked(c, w, c.nodes[w].phase)
    ensures c.nodes[w].phase.Confirming? ==> Taken(c, w)
  {
  }

  lemma FirmLocal(c: Cluster, mv: Move, w: WorkerId)
    requires ClusterInv(c) && w in c.nodes && At(c, mv) == Some(w) && !mv.MDeliver?
    ensures w in After(c, mv).nodes
    ensures FirmAt(After(c, mv), w) == FirmAt(c, w) - Loss(c, mv) + Gain(c, mv)
    ensures Loss(c, mv) <= FirmAt(c, w) && Gain(c, mv) !! FirmAt(c, w) && (Loss(c, mv) == {} || Gain(c, mv) == {})
  {
    hide ClusterInv, NodeInv, FirmIds, After, Taken;
    hide TryEnqueue, Dequeue, Reserve, Confirm, Release, MarkDone, Matches;
    AfterNodes(c, mv);
    InvAt(c, w);
    TakenAfter(c, mv, w);
    PhaseRidKept(c, mv, w);
    ConfirmingTaken(c, w);
    hide Linked;
    var n := c.nodes[w];
    var b := Taken(c, w);
    match mv
    case MAdmit(_, t, priority) => FirmAdmit(n, t, priority, b);
    case MTake(_) => FirmTake(n, b);
    case MReport(_) => FirmReport(n, b);
    case MFinish(_) => FirmFinish(n, b);
    case MStart(_, peer, count) => FirmPhases(n, peer, count, "", Ack(false, []), b);
    case MPick(_) => FirmPick(n);
    case MSend(_, rid) => FirmPhases(n, "", 0, rid, Ack(false, []), b);
    case MAck(_) => FirmPhases(n, "", 0, "", AnswerFor(c, n), b);
    case MGiveUp(_) => FirmPhases(n, "", 0, "", Ack(false, []), b);
    case MConfirm(_) => if n.phase.Confirming? { FirmConfirm(n); }
    case MRelease(_) => if n.phase.Releasing? && |n.phase.left| > 0 { FirmRelease(n, b); }
    case MSettle(_) => FirmPhases(n, "", 0, "", Ack(false, []), b);
  }

  lemma FirmElsewhere(c: Cluster, mv: Move, v: WorkerId)
    requires ClusterInv(c) && v in c.nodes && At(c, mv) != Some(v)
    requires mv.MDeliver? ==> PhaseRid(c.nodes[v].phase) != Some(mv.rid)
    ensures v in After(c, mv).nodes && FirmAt(After(c, mv), v) == FirmAt(c, v)
  {
    hide NodesOk, LinksOk, RequestsOk, FatesOk, HistoryOk, Accepted, FirmIds, Local;
    AfterNodes(c, mv);
    hide After;
    if PhaseRid(c.nodes[v].phase).Some? { AcceptedSame(c, mv, PhaseRid(c.nodes[v].phase).value); }
  }

  // ---- deliveries -----------------------------------------------------------------------------

  predicate TookNow(c: Cluster, rid: RequestId, now: real) {
    rid in c.net && c.net[rid].to in c.nodes && Took(c.nodes[c.net[rid].to], rid, c.net[rid].tasks, now)
  }

  lemma AcceptedDelivered(c: Cluster, rid: RequestId, now: real)
    ensures Accepted(After(c, MDeliver(rid, now)), rid) <==> Accepted(c, rid) || TookNow(c, rid, now)
    ensures TookNow(c, rid, now) ==> !Accepted(c, rid)
  {
  }

  /** The receiver gains exactly the batch, if it takes it. */
  lemma FirmReceiver(c: Cluster, rid: RequestId, now: real)
    requires ClusterInv(c) && rid in c.net
    ensures var d := After(c, MDeliver(rid, now));
            var w := c.net[rid].to;
            && w in c.nodes && w in d.nodes
            && FirmAt(d, w) == FirmAt(c, w) + (if TookNow(c, rid, now) then Ids(c.net[rid].tasks) else {})
            && (TookNow(c, rid, now) ==> Ids(c.net[rid].tasks) !! FirmAt(c, w))
  {
    hide NodeInv, FirmIds, Receive, Accepted, Linked, AnswersOk, FatesOk, HistoryOk, Ids, Distinct, Took;
    var mv := MDeliver(rid, now);
    assert RequestOk(c, c.net[rid]);
    var w := c.net[rid].to;
    assert Linked(c, w, c.nodes[w].phase) && NodeInv(c.nodes[w]);
    AfterNodes(c, mv);
    FirmReceive(c.nodes[w], rid, c.net[rid].tasks, now, Taken(c, w));
    NotToSelf(c, w, rid);
    SamePhase(c.nodes[w], rid, c.net[rid].tasks, now);
    OtherTransfer(c, rid, now, w);
  }

  lemma SamePhase(n: Node, rid: RequestId, ts: seq<Task>, now: real)
    ensures Receive(n, rid, ts, now).phase == n.phase
  {
  }

  lemma NotToSelf(c: Cluster, w: WorkerId, rid: RequestId)
    requires w in c.nodes && Linked(c, w, c.nodes[w].phase) && rid in c.net && RequestOk(c, c.net[rid])
    requires c.net[rid].to == w
    ensures PhaseRid(c.nodes[w].phase) != Some(rid)
  {
  }

  lemma OtherTransfer(c: Cluster, rid: RequestId, now: real, w: WorkerId)
    requires ClusterInv(c) && w in c.nodes && PhaseRid(c.nodes[w].phase) != Some(rid)
    ensures var d := After(c, MDeliver(rid, now));
            w in d.nodes && (d.nodes[w].phase == c.nodes[w].phase ==> Taken(d, w) == Taken(c, w))
  {
    hide NodesOk, LinksOk, RequestsOk, FatesOk, HistoryOk, Accepted, Local;
    AfterNodes(c, MDeliver(rid, now));
    hide After;
    if PhaseRid(c.nodes[w].phase).Some? { AcceptedSame(c, MDeliver(rid, now), PhaseRid(c.nodes[w].phase).value); }
  }

  /** The sender loses exactly what it still keeps reserved for the request: those copies are no longer firm. */
  lemma FirmSender(c: Cluster, rid: RequestId, now: real, w: WorkerId)
    requires ClusterInv(c) && rid in c.net && w in c.nodes && PhaseRid(c.nodes[w].phase) == Some(rid)
    ensures var d := After(c, MDeliver(rid, now));
            var left := Ids(PhaseTasks(c.nodes[w].phase));
            && c.net[rid].from == w && w in d.nodes && left <= Ids(c.net[rid].tasks)
            && FirmAt(d, w) == FirmAt(c, w) - (if TookNow(c, rid, now) then left else {})
            && (TookNow(c, rid, now) ==> left <= FirmAt(c, w))
  {
    hide NodeInv, FirmIds, Accepted, Linked, AnswersOk, FatesOk, HistoryOk, Ids, Distinct, TookNow, Local;
    var mv := MDeliver(rid, now);
    assert RequestOk(c, c.net[rid]);
    assert Linked(c, w, c.nodes[w].phase) && NodeInv(c.nodes[w]);
    LinkedRequest(c, w);
    AfterNodes(c, mv);
    AcceptedDelivered(c, rid, now);
    hide After;
    FirmIsAnswerable(c.nodes[w], false);
    FirmIsAnswerable(c.nodes[w], true);
    ReservedActive(c.nodes[w]);
    ReservedBatch(c.nodes[w]);
  }

  lemma ReservedBatch(n: Node)
    requires NodeInv(n)
    ensures n.q.reserved.Keys == Ids(PhaseTasks(n.phase))
  {
  }

  // ---- conservation ---------------------------------------------------------------------------

  lemma HoldersLocal(c: Cluster, mv: Move, id: TaskId, w: WorkerId)
    requires ClusterInv(c) && w in c.nodes && At(c, mv) == Some(w) && !mv.MDeliver?
    ensures Holders(After(c, mv), id) ==
            Holders(c, id) - (if id in Loss(c, mv) then {w} else {}) + (if id in Gain(c, mv) then {w} else {})
    ensures id in Loss(c, mv) ==> w in Holders(c, id) && id !in Gain(c, mv)
    ensures id in Gain(c, mv) ==> w !in Holders(c, id)
  {
    hide ClusterInv, FirmAt, Local, Loss, Gain;
    AfterNodes(c, mv);
    FirmLocal(c, mv, w);
    hide After;
    forall v | v in c.nodes && v != w ensures FirmAt(After(c, mv), v) == FirmAt(c, v) { FirmElsewhere(c, mv, v); }
  }

  /** Does this move take a task back into the queue? */
  predicate TakesBack(c: Cluster, mv: Move) {
    mv.MRelease? && mv.w in c.nodes && c.nodes[mv.w].phase.Releasing? && |c.nodes[mv.w].phase.left| > 0
  }

  lemma TakesBackLaw(c: Cluster, mv: Move)
    requires ClusterInv(c) && TakesBack(c, mv)
    ensures var p := c.nodes[mv.w].phase;
            && p.rid in c.net && (p.rid, p.left[0].id) !in c.released
            && After(c, mv).released == c.released + {(p.rid, p.left[0].id)}
            && Gain(c, mv) == (if Accepted(c, p.rid) then {p.left[0].id} else {})
  {
    hide Ids, Accepted, Release, NodesOk, AnswersOk, RequestsOk, HistoryOk;
    var p := c.nodes[mv.w].phase;
    assert Linked(c, mv.w, p);
    HeadId(p);
    assert FateOk(c, p.rid, p.left[0].id);
  }

  lemma NoneTakenBack(c: Cluster, mv: Move)
    requires !TakesBack(c, mv)
    ensures After(c, mv).released == c.released && (Gain(c, mv) != {} ==> mv.MAdmit?)
  {
  }

  lemma DoubledLocal(c: Cluster, mv: Move, id: TaskId)
    requires ClusterInv(c) && !mv.MDeliver?
    ensures var more := if TakesBack(c, mv) && id in Gain(c, mv) then {c.nodes[mv.w].phase.rid} else {};
            Doubled(After(c, mv), id) == Doubled(c, id) + more && more !! Doubled(c, id)
    ensures id in Gain(c, mv) ==> mv.MAdmit? || TakesBack(c, mv)
  {
    hide Local, Linked, Gain, FatesOk, RequestsOk, NodesOk, LinksOk;
    if TakesBack(c, mv) { TakesBackLaw(c, mv); } else { NoneTakenBack(c, mv); }
    AfterExtends(c, mv);
    ReleasedKnown(c);
    forall rid ensures Accepted(After(c, mv), rid) <==> Accepted(c, rid) { AcceptedSame(c, mv, rid); }
    hide After, TakesBack, HistoryOk, AnswersOk, Accepted;
  }

  lemma ReleasedKnown(c: Cluster)
    requires HistoryOk(c)
    ensures forall e :: e in c.released ==> e.0 in c.net
  {
  }

  lemma CountsLocal(c: Cluster, mv: Move, id: TaskId)
    requires !mv.MDeliver?
    ensures After(c, mv).admitted[id] == c.admitted[id] + (if mv.MAdmit? && id in Gain(c, mv) then 1 else 0)
    ensures After(c, mv).reported[id] == c.reported[id] + (if id in Loss(c, mv) then 1 else 0)
    ensures At(c, mv).None? ==> Gain(c, mv) == {} && Loss(c, mv) == {}
    ensures Gain(c, mv) != {} ==> mv.MAdmit? || mv.MRelease?
  {
  }

  lemma ConserveLocal(c: Cluster, mv: Move, id: TaskId)
    requires ClusterInv(c) && !mv.MDeliver?
    requires |Holders(c, id)| + c.reported[id] == c.admitted[id] + |Doubled(c, id)|
    ensures var d := After(c, mv); |Holders(d, id)| + d.reported[id] == d.admitted[id] + |Doubled(d, id)|
  {
    hide ClusterInv, Local, Gain, Loss, Holders, Doubled, Accepted, FirmAt;
    CountsLocal(c, mv, id);
    if At(c, mv).Some? {
      hide After;
      HoldersLocal(c, mv, id, At(c, mv).value);
      DoubledLocal(c, mv, id);
    }
  }

  lemma HoldersDeliver(c: Cluster, rid: RequestId, now: real, id: TaskId)
    requires ClusterInv(c) && rid in c.net
    ensures var took := TookNow(c, rid, now) && id in Ids(c.net[rid].tasks);
            && Holders(After(c, MDeliver(rid, now)), id) ==
                 Holders(c, id) - (if took && Holding(c, rid, id) then {c.net[rid].from} else {}) +
                     (if took then {c.net[rid].to} else {})
            && (took ==> c.net[rid].to !in Holders(c, id))
            && (took && Holding(c, rid, id) ==> c.net[rid].from in Holders(c, id) && c.net[rid].from != c.net[rid].to)
  {
    hide NodesOk, LinksOk, AnswersOk, FatesOk, HistoryOk, FirmAt, Local, TookNow, Ids, PhaseTasks, PhaseRid;
    var mv := MDeliver(rid, now);
    assert RequestOk(c, c.net[rid]);
    AfterNodes(c, mv);
    hide After;
    FirmReceiver(c, rid, now);
    var from, to := c.net[rid].from, c.net[rid].to;
    forall v | v in c.nodes && v != to
      ensures id in FirmAt(After(c, mv), v) <==>
                && id in FirmAt(c, v)
                && !(TookNow(c, rid, now) && id in Ids(c.net[rid].tasks) && v == from && Holding(c, rid, id))
      ensures v == from && TookNow(c, rid, now) && Holding(c, rid, id) ==> id in FirmAt(c, v)
    {
      if PhaseRid(c.nodes[v].phase) == Some(rid) { FirmSender(c, rid, now, v); }
      else { FirmElsewhere(c, mv, v); }
    }
  }

  lemma DoubledDeliver(c: Cluster, rid: RequestId, now: real, id: TaskId)
    requires ClusterInv(c) && rid in c.net
    ensures var d := After(c, MDeliver(rid, now));
            var more := if TookNow(c, rid, now) && (rid, id) in c.released then {rid} else {};
            Doubled(d, id) == Doubled(c, id) + more && more !! Doubled(c, id)
  {
    hide Local, TookNow, NodesOk, LinksOk, RequestsOk, FatesOk, HistoryOk;
    var mv := MDeliver(rid, now);
    AfterNodes(c, mv);
    AcceptedDelivered(c, rid, now);
    forall r | r != rid ensures Accepted(After(c, mv), r) <==> Accepted(c, r) { AcceptedSame(c, mv, r); }
    hide Accepted, AnswersOk, After;
  }

  /** When a batch is taken, each of its tasks is still reserved by the sender or was taken back, one or the other. */
  lemma HeldOrReturned(c: Cluster, rid: RequestId, id: TaskId)
    requires ClusterInv(c) && rid in c.net && !Accepted(c, rid)
    ensures id in Ids(c.net[rid].tasks) ==> (Holding(c, rid, id) <==> (rid, id) !in c.released)
    ensures id !in Ids(c.net[rid].tasks) ==> (rid, id) !in c.released
  {
    hide NodesOk, LinksOk, RequestsOk, AnswersOk, Holding, Ids, Accepted;
    assert id in Ids(c.net[rid].tasks) ==> FateOk(c, rid, id);
    assert (rid, id) in c.released ==> (rid, id) in c.released + c.confirmed;
  }

  lemma ConserveDeliver(c: Cluster, rid: RequestId, now: real, id: TaskId)
    requires ClusterInv(c) && rid in c.net
    requires |Holders(c, id)| + c.reported[id] == c.admitted[id] + |Doubled(c, id)|
    ensures var d := After(c, MDeliver(rid, now));
            |Holders(d, id)| + d.reported[id] == d.admitted[id] + |Doubled(d, id)|
  {
    hide ClusterInv, Local, Holders, Doubled, Accepted, Holding, FirmAt, TookNow, Ids;
    AfterNodes(c, MDeliver(rid, now));
    HoldersDeliver(c, rid, now, id);
    DoubledDeliver(c, rid, now, id);
    AcceptedDelivered(c, rid, now);
    hide After;
    if TookNow(c, rid, now) { HeldOrReturned(c, rid, id); }
  }

  lemma AfterConserved(c: Cluster, mv: Move)
    requires ClusterInv(c) && Conserved(c)
    ensures Conserved(After(c, mv))
  {
    hide ClusterInv, After, Holders, Doubled;
    var d := After(c, mv);
    forall id ensures |Holders(d, id)| + d.reported[id] == d.admitted[id] + |Doubled(d, id)| {
      if !mv.MDeliver? { ConserveLocal(c, mv, id); }
      else if mv.rid in c.net { ConserveDeliver(c, mv.rid, mv.now, id); }
      else { Undeliverable(c, mv); }
    }
  }

  lemma Undeliverable(c: Cluster, mv: Move)
    requires mv.MDeliver? && mv.rid !in c.net
    ensures After(c, mv) == c
  {
  }
}
