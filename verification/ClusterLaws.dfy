/** Every move keeps the cluster's invariant; every run conserves the copies of every task. */
module ClusterLaws {
  import opened Basics
  import opened Models
  import opened QueueSpec
  import opened QueueLaws
  import opened NodeSpec
  import opened NodeLaws
  import opened ClusterSpec

  // ---- nodes ----------------------------------------------------------------------------------

  lemma LocalInv(c: Cluster, mv: Move, w: WorkerId)
    requires w in c.nodes && At(c, mv) == Some(w) && NodeInv(c.nodes[w])
    ensures NodeInv(Local(c, mv, w))
  {
    hide NodeInv;
    var n := c.nodes[w];
    match mv
    case MAdmit(_, t, priority) => AdmitInv(n, t, priority);
    case MTake(_) => TakeNodeInv(n);
    case MReport(_) => PhaseInv(n, "", 0, "", Ack(false, []));
    case MFinish(_) => FinishInv(n);
    case MStart(_, peer, count) => PhaseInv(n, peer, count, "", Ack(false, []));
    case MPick(_) => PickInv(n);
    case MSend(_, rid) => PhaseInv(n, "", 0, rid, Ack(false, []));
    case MDeliver(rid, now) => ReceiveInv(n, rid, c.net[rid].tasks, now);
    case MAck(_) => PhaseInv(n, "", 0, "", AnswerFor(c, n));
    case MGiveUp(_) => PhaseInv(n, "", 0, "", Ack(false, []));
    case MConfirm(_) => ConfirmOneInv(n);
    case MRelease(_) => ReleaseOneInv(n);
    case MSettle(_) => PhaseInv(n, "", 0, "", Ack(false, []));
  }

  lemma AfterNodes(c: Cluster, mv: Move)
    ensures After(c, mv).nodes ==
            if At(c, mv).None? then c.nodes else c.nodes[At(c, mv).value := Local(c, mv, At(c, mv).value)]
    ensures After(c, mv).nodes.Keys == c.nodes.Keys
    ensures !mv.MSend? ==> After(c, mv).net == c.net
    ensures !mv.MRelease? ==> After(c, mv).released == c.released
    ensures !mv.MConfirm? ==> After(c, mv).confirmed == c.confirmed
    ensures !mv.MAdmit? ==> After(c, mv).admitted == c.admitted
    ensures !mv.MReport? ==> After(c, mv).reported == c.reported
  {
    hide Local;
  }

  /** Every ready queue has this capacity. */
  predicate AllOfSize(c: Cluster, capacity: int) {
    forall w :: w in c.nodes ==> c.nodes[w].q.capacity == capacity
  }

  lemma LocalSize(c: Cluster, mv: Move, w: WorkerId)
    requires w in c.nodes && At(c, mv) == Some(w)
    ensures Local(c, mv, w).q.capacity == c.nodes[w].q.capacity
  {
  }

  lemma AfterSize(c: Cluster, mv: Move, capacity: int)
    requires AllOfSize(c, capacity)
    ensures AllOfSize(After(c, mv), capacity)
  {
    AfterNodes(c, mv);
    hide Local, After;
    if At(c, mv).Some? { LocalSize(c, mv, At(c, mv).value); }
  }

  lemma AfterNodesOk(c: Cluster, mv: Move)
    requires NodesOk(c)
    ensures NodesOk(After(c, mv))
  {
    AfterNodes(c, mv);
    hide NodeInv, Local, After;
    if At(c, mv).Some? { LocalInv(c, mv, At(c, mv).value); }
  }

  // ---- what only ever grows -------------------------------------------------------------------

  /** Requests and answers are never withdrawn or changed. */
  ghost predicate Extends(c: Cluster, d: Cluster) {
    && d.nodes.Keys == c.nodes.Keys
    && (forall rid :: rid in c.net ==> rid in d.net && d.net[rid] == c.net[rid])
    && (forall w, rid :: w in c.nodes && rid in c.nodes[w].handled ==>
          rid in d.nodes[w].handled && d.nodes[w].handled[rid] == c.nodes[w].handled[rid])
  }

  lemma LocalHandled(c: Cluster, mv: Move, w: WorkerId)
    requires w in c.nodes && At(c, mv) == Some(w)
    ensures !mv.MDeliver? ==> Local(c, mv, w).handled == c.nodes[w].handled
    ensures mv.MDeliver? ==>
              var h, h' := c.nodes[w].handled, Local(c, mv, w).handled;
              && (forall rid :: rid in h ==> rid in h' && h'[rid] == h[rid])
              && (forall rid :: rid in h' && rid !in h ==>
                    rid == mv.rid && h'[rid].ids == (if h'[rid].accepted then TaskIds(c.net[rid].tasks) else []))
  {
  }

  /** Answers are final: whatever happens later, the same request gets the same answer. */
  lemma AfterExtends(c: Cluster, mv: Move)
    ensures Extends(c, After(c, mv))
  {
    AfterNodes(c, mv);
    if At(c, mv).Some? { LocalHandled(c, mv, At(c, mv).value); }
    hide Local;
  }

  lemma AcceptedExtends(c: Cluster, d: Cluster, rid: RequestId)
    requires Extends(c, d) && Accepted(c, rid)
    ensures Accepted(d, rid)
  {
  }

  lemma LinkedExtends(c: Cluster, d: Cluster, w: WorkerId, p: Phase)
    requires Extends(c, d) && Linked(c, w, p)
    ensures Linked(d, w, p)
  {
  }

  // ---- the links ------------------------------------------------------------------------------

  /** How a move changes its worker's transfer, and that the new phase matches the network. */
  lemma LocalLinked(c: Cluster, mv: Move, w: WorkerId)
    requires w in c.nodes && At(c, mv) == Some(w) && NodeInv(c.nodes[w])
    requires Linked(c, w, c.nodes[w].phase) && AnswersOk(c)
    ensures Linked(After(c, mv), w, Local(c, mv, w).phase)
  {
    hide NodeInv, AnswersOk;
    AfterExtends(c, mv);
    var n := c.nodes[w];
    var d := After(c, mv);
    LinkedExtends(c, d, w, n.phase);
    match mv
    case MAck(_) => AckMeansAccepted(c, w); LinkedAck(c, d, w);
    case MConfirm(_) => TailLinked(d, w, n.phase);
    case MRelease(_) => TailLinked(d, w, n.phase);
    case MSend(_, rid) => SendLinked(c, w, rid);
    case MStart(_, _, _) => hide After, Extends;
    case MPick(_) => hide After, Extends;
    case MGiveUp(_) => hide After, Extends;
    case MSettle(_) => hide After, Extends;
    case MAdmit(_, _, _) => hide After, Extends, Linked;
    case MTake(_) => hide After, Extends, Linked;
    case MReport(_) => hide After, Extends, Linked;
    case MFinish(_) => hide After, Extends, Linked;
    case MDeliver(_, _) => hide After, Extends, Linked;
  }

  lemma SendLinked(c: Cluster, w: WorkerId, rid: RequestId)
    requires w in c.nodes && Linked(c, w, c.nodes[w].phase)
    ensures Linked(After(c, MSend(w, rid)), w, Local(c, MSend(w, rid), w).phase)
  {
  }

  /** The sender accepts an answer only if the receiver gave it, for this very request. */
  lemma AckMeansAccepted(c: Cluster, w: WorkerId)
    requires w in c.nodes && Linked(c, w, c.nodes[w].phase)
    ensures var n := c.nodes[w];
            n.phase.Waiting? && AnswerFor(c, n).accepted ==> Accepted(c, n.phase.rid)
  {
  }

  lemma LinkedAck(c: Cluster, d: Cluster, w: WorkerId)
    requires w in c.nodes && Extends(c, d) && Linked(c, w, c.nodes[w].phase) && Linked(d, w, c.nodes[w].phase)
    requires c.nodes[w].phase.Waiting? && AnswerFor(c, c.nodes[w]).accepted ==> Accepted(c, c.nodes[w].phase.rid)
    ensures Linked(d, w, AckArrives(c.nodes[w], AnswerFor(c, c.nodes[w])).phase)
  {
  }

  lemma TailLinked(d: Cluster, w: WorkerId, p: Phase)
    requires Linked(d, w, p)
    ensures p.Confirming? && |p.left| > 0 ==> Linked(d, w, Confirming(p.rid, p.left[1..]))
    ensures p.Releasing? && |p.left| > 0 ==> Linked(d, w, Releasing(p.rid, p.left[1..]))
  {
  }

  lemma AfterLinksOk(c: Cluster, mv: Move)
    requires NodesOk(c) && LinksOk(c) && AnswersOk(c)
    ensures LinksOk(After(c, mv))
  {
    hide NodeInv, Linked, AnswersOk, Local, After, Extends;
    AfterNodes(c, mv);
    AfterExtends(c, mv);
    forall v | v in c.nodes ensures Linked(After(c, mv), v, After(c, mv).nodes[v].phase) {
      if At(c, mv) == Some(v) { LocalLinked(c, mv, v); }
      else { LinkedExtends(c, After(c, mv), v, c.nodes[v].phase); }
    }
  }

  // ---- answers and requests -------------------------------------------------------------------

  lemma AfterAnswersOk(c: Cluster, mv: Move)
    requires AnswersOk(c)
    ensures AnswersOk(After(c, mv))
  {
    hide Local, After, Ids;
    AfterNodes(c, mv);
    AfterExtends(c, mv);
    var d := After(c, mv);
    forall v, rid | v in d.nodes && rid in d.nodes[v].handled ensures AnswerOk(d, v, rid, d.nodes[v].handled[rid]) {
      if At(c, mv) == Some(v) { LocalHandled(c, mv, v); }
      if v in c.nodes && rid in c.nodes[v].handled {
        assert AnswerOk(c, v, rid, c.nodes[v].handled[rid]);
      } else {
        TaskIdsLength(c.net[rid].tasks);
      }
    }
  }

  lemma PickedOk(n: Node)
    requires NodeInv(n) && ReadyToSend(n)
    ensures 1 <= |n.phase.picked| <= MAX_TRANSFER && Distinct(n.phase.picked)
  {
  }

  lemma AfterRequestsOk(c: Cluster, mv: Move)
    requires NodesOk(c) && LinksOk(c) && RequestsOk(c)
    ensures RequestsOk(After(c, mv))
  {
    hide Local, NodeInv, Accepted, Ids, Distinct;
    AfterNodes(c, mv);
    if mv.MSend? && mv.w in c.nodes && mv.rid !in c.net && ReadyToSend(c.nodes[mv.w]) {
      PickedOk(c.nodes[mv.w]);
      assert Linked(c, mv.w, c.nodes[mv.w].phase);
    }
    forall rid | rid in After(c, mv).net ensures RequestOk(After(c, mv), After(c, mv).net[rid]) {
      assert rid in c.net ==> RequestOk(c, c.net[rid]);
    }
  }

  // ---- the fate of every task sent ------------------------------------------------------------

  lemma HeadId(p: Phase)
    requires |PhaseTasks(p)| > 0
    ensures PhaseTasks(p)[0].id in Ids(PhaseTasks(p))
  {
  }

  lemma AfterHistoryOk(c: Cluster, mv: Move)
    requires LinksOk(c) && HistoryOk(c)
    ensures HistoryOk(After(c, mv))
  {
    hide Local, Ids;
    AfterNodes(c, mv);
    AfterExtends(c, mv);
    var d := After(c, mv);
    if At(c, mv).Some? {
      assert Linked(c, At(c, mv).value, c.nodes[At(c, mv).value].phase);
      if |PhaseTasks(c.nodes[At(c, mv).value].phase)| > 0 { HeadId(c.nodes[At(c, mv).value].phase); }
    }
    hide Extends, Accepted;
    forall e | e in d.confirmed ensures Accepted(d, e.0) {
      assert Accepted(c, e.0);
      AcceptedExtends(c, d, e.0);
    }
    forall e | e in d.released + d.confirmed ensures e.0 in d.net && e.1 in Ids(d.net[e.0].tasks) {
      RequestStays(c, d, e.0);
    }
  }

  lemma RequestStays(c: Cluster, d: Cluster, rid: RequestId)
    requires Extends(c, d) && rid in c.net
    ensures rid in d.net && d.net[rid] == c.net[rid]
  {
  }

  lemma HoldingSame(c: Cluster, mv: Move, rid: RequestId, id: TaskId)
    requires rid in c.net && !mv.MSend? && !mv.MConfirm? && !mv.MRelease?
    ensures Holding(After(c, mv), rid, id) <==> Holding(c, rid, id)
  {
  }

  /** A request just sent: everything in it is reserved, nothing of it has happened yet. */
  lemma SendFates(c: Cluster, w: WorkerId, rid: RequestId, r: RequestId, id: TaskId)
    requires FatesOk(c) && HistoryOk(c) && r in After(c, MSend(w, rid)).net
    requires id in Ids(After(c, MSend(w, rid)).net[r].tasks)
    ensures FateOk(After(c, MSend(w, rid)), r, id)
  {
  }

  /** Settling the head of a transfer ends its reservation and no other. */
  lemma HeadSettled(c: Cluster, d: Cluster, w: WorkerId, rid: RequestId, left: seq<Task>, r: RequestId, id: TaskId)
    requires w in c.nodes && |left| > 0 && Distinct(left) && r in c.net && FateOk(c, r, id)
    requires PhaseRid(c.nodes[w].phase) == Some(rid) && PhaseTasks(c.nodes[w].phase) == left
    requires rid in c.net && c.net[rid].from == w && d.net == c.net && d.nodes.Keys == c.nodes.Keys
    requires forall v :: v in c.nodes && v != w ==> d.nodes[v] == c.nodes[v]
    requires PhaseRid(d.nodes[w].phase) == Some(rid) && PhaseTasks(d.nodes[w].phase) == left[1..]
    requires d.released + d.confirmed == c.released + c.confirmed + {(rid, left[0].id)}
    ensures FateOk(d, r, id)
  {
  }

  lemma ConfirmFates(c: Cluster, w: WorkerId, r: RequestId, id: TaskId)
    requires NodesOk(c) && LinksOk(c) && r in c.net && FateOk(c, r, id)
    ensures FateOk(After(c, MConfirm(w)), r, id)
  {
    hide Confirm, Ids, Distinct, NodeInv, Linked;
    if w in c.nodes && c.nodes[w].phase.Confirming? && |c.nodes[w].phase.left| > 0 {
      var p := c.nodes[w].phase;
      BatchDistinct(c.nodes[w]);
      LinkedRequest(c, w);
      hide FateOk;
      HeadSettled(c, After(c, MConfirm(w)), w, p.rid, p.left, r, id);
    }
  }

  lemma ReleaseFates(c: Cluster, w: WorkerId, r: RequestId, id: TaskId)
    requires NodesOk(c) && LinksOk(c) && r in c.net && FateOk(c, r, id)
    ensures FateOk(After(c, MRelease(w)), r, id)
  {
    hide Release, Ids, Distinct, NodeInv, Linked;
    if w in c.nodes && c.nodes[w].phase.Releasing? && |c.nodes[w].phase.left| > 0 {
      var p := c.nodes[w].phase;
      BatchDistinct(c.nodes[w]);
      LinkedRequest(c, w);
      hide FateOk;
      HeadSettled(c, After(c, MRelease(w)), w, p.rid, p.left, r, id);
    }
  }

  lemma LinkedRequest(c: Cluster, w: WorkerId)
    requires w in c.nodes && Linked(c, w, c.nodes[w].phase)
    ensures PhaseRid(c.nodes[w].phase).Some? ==>
              var rid := PhaseRid(c.nodes[w].phase).value;
              rid in c.net && c.net[rid].from == w && Ids(PhaseTasks(c.nodes[w].phase)) <= Ids(c.net[rid].tasks)
  {
  }

  lemma BatchDistinct(n: Node)
    ensures NodeInv(n) ==> Distinct(PhaseTasks(n.phase))
  {
  }

  lemma AfterFatesOk(c: Cluster, mv: Move)
    requires NodesOk(c) && LinksOk(c) && FatesOk(c) && HistoryOk(c)
    ensures FatesOk(After(c, mv))
  {
    hide NodesOk, LinksOk, HistoryOk, Holding, Local, Ids, After;
    var d := After(c, mv);
    AfterNodes(c, mv);
    forall r, id | r in d.net && id in Ids(d.net[r].tasks) ensures FateOk(d, r, id) {
      if mv.MSend? { SendFates(c, mv.w, mv.rid, r, id); }
      else {
        assert FateOk(c, r, id);
        if mv.MConfirm? { ConfirmFates(c, mv.w, r, id); }
        else if mv.MRelease? { ReleaseFates(c, mv.w, r, id); }
        else { HoldingSame(c, mv, r, id); }
      }
    }
  }

  lemma AfterInv(c: Cluster, mv: Move)
    requires ClusterInv(c)
    ensures ClusterInv(After(c, mv))
  {
    hide NodesOk, LinksOk, AnswersOk, RequestsOk, FatesOk, HistoryOk;
    AfterNodesOk(c, mv);
    AfterLinksOk(c, mv);
    AfterAnswersOk(c, mv);
    AfterRequestsOk(c, mv);
    AfterFatesOk(c, mv);
    AfterHistoryOk(c, mv);
  }
}
