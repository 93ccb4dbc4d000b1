/** Whole runs of the P2P layer. */
module ClusterRuns {
  import opened Basics
  import opened Models
  import opened QueueSpec
  import opened NodeSpec
  import opened NodeLaws
  import opened ClusterSpec
  import opened ClusterLaws
  import opened ClusterCopies

  lemma QuietInv(c: Cluster)
    requires Quiet(c)
    ensures ClusterInv(c) && Conserved(c)
  {
  }

  lemma {:induction false} RunKeeps(c: Cluster, moves: seq<Move>)
    requires ClusterInv(c) && Conserved(c)
    ensures ClusterInv(RunMoves(c, moves)) && Conserved(RunMoves(c, moves))
    decreases |moves|
  {
    hide ClusterInv, Conserved, After;
    if |moves| == 0 {
    } else {
      AfterInv(c, moves[0]);
      AfterConserved(c, moves[0]);
      RunKeeps(After(c, moves[0]), moves[1..]);
    }
  }

  /**
   * Conservation: in every run, under any loss, delay or redelivery, the firm copies of a task and the results
   * reported for it make up the copies admitted from the master and the transfers doubled by a lost answer.
   */
  lemma EveryRunConserves(c: Cluster, moves: seq<Move>, id: TaskId)
    requires Quiet(c)
    ensures var d := RunMoves(c, moves);
            |Holders(d, id)| + d.reported[id] == d.admitted[id] + |Doubled(d, id)|
  {
    QuietInv(c);
    RunKeeps(c, moves);
    hide ClusterInv, RunMoves, Holders, Doubled;
  }

  /** No transfer loses a task, and without a doubled transfer exactly one copy of a task admitted once is live. */
  lemma NothingLost(c: Cluster, moves: seq<Move>, id: TaskId)
    requires Quiet(c)
    ensures var d := RunMoves(c, moves);
            && (d.admitted[id] > d.reported[id] ==> exists w :: w in d.nodes && id in FirmAt(d, w))
            && (d.admitted[id] == 1 && Doubled(d, id) == {} ==>
                  if d.reported[id] == 0 then exists w :: Holders(d, id) == {w}
                      else d.reported[id] == 1 && Holders(d, id) == {})
  {
    EveryRunConserves(c, moves, id);
    var d := RunMoves(c, moves);
    hide RunMoves, Doubled, FirmAt;
    var h := Holders(d, id);
    if h != {} {
      var w :| w in h;
      assert w in d.nodes && id in FirmAt(d, w);
      if |h| == 1 {
        SingletonOf(h, w);
        assert Holders(d, id) == {w};
      }
    }
  }

  lemma SingletonOf(h: set<WorkerId>, w: WorkerId)
    requires w in h && |h| == 1
    ensures h == {w}
  {
    assert |h - {w}| == 0;
  }

  // ---- without the loss of an answer ------------------------------------------------------------

  /** The request a move gives up on. */
  function GivesUpOn(c: Cluster, mv: Move): set<RequestId> {
    if mv.MGiveUp? && mv.w in c.nodes && c.nodes[mv.w].phase.Waiting? then {c.nodes[mv.w].phase.rid} else {}
  }

  function GivenUp(c: Cluster, moves: seq<Move>): set<RequestId>
    decreases |moves|
  {
    if |moves| == 0 then {} else GivesUpOn(c, moves[0]) + GivenUp(After(c, moves[0]), moves[1..])
  }

  /** Only given-up transfers are taken back. */
  ghost predicate OnlyGivenUp(c: Cluster, rids: set<RequestId>) {
    && (forall e :: e in c.released ==> e.0 in rids)
    && (forall w :: w in c.nodes && c.nodes[w].phase.Releasing? ==> c.nodes[w].phase.rid in rids)
  }

  lemma ReleasingFrom(c: Cluster, mv: Move, w: WorkerId)
    requires w in c.nodes && At(c, mv) == Some(w) && Local(c, mv, w).phase.Releasing?
    ensures var rid := Local(c, mv, w).phase.rid;
            (c.nodes[w].phase.Releasing? && c.nodes[w].phase.rid == rid) || rid in GivesUpOn(c, mv)
  {
  }

  lemma OnlyGivenUpStep(c: Cluster, mv: Move, rids: set<RequestId>)
    requires OnlyGivenUp(c, rids)
    ensures OnlyGivenUp(After(c, mv), rids + GivesUpOn(c, mv))
  {
    hide Local;
    var d := After(c, mv);
    AfterNodes(c, mv);
    forall w | w in d.nodes && d.nodes[w].phase.Releasing? ensures d.nodes[w].phase.rid in rids + GivesUpOn(c, mv) {
      if At(c, mv) == Some(w) { ReleasingFrom(c, mv, w); }
    }
  }

  lemma {:induction false} OnlyGivenUpRun(c: Cluster, moves: seq<Move>, rids: set<RequestId>)
    requires OnlyGivenUp(c, rids)
    ensures OnlyGivenUp(RunMoves(c, moves), rids + GivenUp(c, moves))
    decreases |moves|
  {
    hide OnlyGivenUp, After;
    if |moves| == 0 {
      assert rids + {} == rids;
    } else {
      OnlyGivenUpStep(c, moves[0], rids);
      OnlyGivenUpRun(After(c, moves[0]), moves[1..], rids + GivesUpOn(c, moves[0]));
      assert rids + GivesUpOn(c, moves[0]) + GivenUp(After(c, moves[0]), moves[1..]) == rids + GivenUp(c, moves);
    }
  }

  /**
   * In a run that gives up on no request whose batch was or is later taken, no transfer is doubled: copies and
   * reports make up the admissions, and a task admitted once has exactly one copy until its one report.
   */
  lemma WithoutAckLoss(c: Cluster, moves: seq<Move>, id: TaskId)
    requires Quiet(c) && forall rid :: rid in GivenUp(c, moves) ==> !Accepted(RunMoves(c, moves), rid)
    ensures var d := RunMoves(c, moves);
            && Doubled(d, id) == {} && |Holders(d, id)| + d.reported[id] == d.admitted[id]
            && (d.admitted[id] == 1 ==>
                  if d.reported[id] == 0 then exists w :: Holders(d, id) == {w}
                      else d.reported[id] == 1 && Holders(d, id) == {})
  {
    hide RunMoves, GivenUp, FirmAt, Accepted;
    OnlyGivenUpRun(c, moves, {});
    assert {} + GivenUp(c, moves) == GivenUp(c, moves);
    EveryRunConserves(c, moves, id);
    NothingLost(c, moves, id);
  }

  /** The receiver of this request of `w` has taken its batch, exactly these tasks, `id` among them. */
  ghost predicate HandedOver(c: Cluster, w: WorkerId, rid: RequestId, id: TaskId) {
    && Accepted(c, rid) && c.net[rid].from == w && id in Ids(c.net[rid].tasks)
    && Elems(c.nodes[c.net[rid].to].handled[rid].ids) == Ids(c.net[rid].tasks)
  }

  ghost predicate AboutToConfirm(c: Cluster, w: WorkerId) {
    w in c.nodes && c.nodes[w].phase.Confirming? && |c.nodes[w].phase.left| > 0
  }

  lemma ConfirmHandedOver(c: Cluster, w: WorkerId)
    requires LinksOk(c) && AnswersOk(c) && AboutToConfirm(c, w)
    ensures HandedOver(c, w, c.nodes[w].phase.rid, c.nodes[w].phase.left[0].id)
  {
  }

  /** What confirming the next task does and does not do. */
  ghost predicate ConfirmsHarmlessly(d: Cluster, w: WorkerId)
    requires AboutToConfirm(d, w)
  {
    var id := d.nodes[w].phase.left[0].id;
    && HandedOver(d, w, d.nodes[w].phase.rid, id)
    && id in d.nodes[w].q.active && id !in ConfirmOne(d.nodes[w]).q.active
    && After(d, MConfirm(w)).nodes == d.nodes[w := ConfirmOne(d.nodes[w])]
    && (forall x :: Holders(After(d, MConfirm(w)), x) == Holders(d, x))
  }

  lemma ConfirmHarmless(d: Cluster, w: WorkerId)
    requires ClusterInv(d) && AboutToConfirm(d, w)
    ensures ConfirmsHarmlessly(d, w)
  {
    hide NodeInv, HandedOver, ConfirmOne, Holders, After, FatesOk, HistoryOk, RequestsOk;
    ConfirmHandedOver(d, w);
    assert NodeInv(d.nodes[w]);
    Confirms(d.nodes[w]);
    ConfirmsAt(d, w);
    forall x ensures Holders(After(d, MConfirm(w)), x) == Holders(d, x) { ConfirmHolders(d, w, x); }
  }

  lemma ConfirmsAt(d: Cluster, w: WorkerId)
    requires w in d.nodes
    ensures After(d, MConfirm(w)).nodes == d.nodes[w := ConfirmOne(d.nodes[w])]
  {
  }

  /**
   * A confirmation never removes a live copy: the receiver has taken exactly the batch the confirmed task
   * belongs to, and no worker's firm copies change, however far the task has travelled since.
   */
  lemma ConfirmSafe(c: Cluster, moves: seq<Move>, w: WorkerId)
    requires Quiet(c) && AboutToConfirm(RunMoves(c, moves), w)
    ensures ConfirmsHarmlessly(RunMoves(c, moves), w)
  {
    hide ClusterInv, Conserved, RunMoves, ConfirmsHarmlessly;
    QuietInv(c);
    RunKeeps(c, moves);
    ConfirmHarmless(RunMoves(c, moves), w);
  }

  lemma Confirms(n: Node)
    requires NodeInv(n) && n.phase.Confirming? && |n.phase.left| > 0
    ensures n.phase.left[0].id in n.q.active && n.phase.left[0].id !in ConfirmOne(n).q.active
  {
  }

  lemma ConfirmHolders(d: Cluster, w: WorkerId, x: TaskId)
    requires ClusterInv(d) && w in d.nodes
    ensures Holders(After(d, MConfirm(w)), x) == Holders(d, x)
  {
    hide ClusterInv, After, Holders;
    HoldersLocal(d, MConfirm(w), x, w);
  }

  // ---- intake ---------------------------------------------------------------------------------

  /** How often, along a run, the batch of a request is actually put into its receiver's queue. */
  function TimesTaken(c: Cluster, moves: seq<Move>, rid: RequestId): nat
    decreases |moves|
  {
    if |moves| == 0 then 0
    else (if moves[0].MDeliver? && moves[0].rid == rid && TookNow(c, rid, moves[0].now) then 1 else 0)
         + TimesTaken(After(c, moves[0]), moves[1..], rid)
  }

  lemma {:induction false} AnswerFinal(c: Cluster, moves: seq<Move>, rid: RequestId)
    requires rid in c.net && c.net[rid].to in c.nodes && rid in c.nodes[c.net[rid].to].handled
    ensures TimesTaken(c, moves, rid) == 0
    ensures var d := RunMoves(c, moves);
            && rid in d.net && d.net[rid] == c.net[rid] && d.net[rid].to in d.nodes
            && rid in d.nodes[d.net[rid].to].handled
            && d.nodes[d.net[rid].to].handled[rid] == c.nodes[c.net[rid].to].handled[rid]
    decreases |moves|
  {
    if |moves| == 0 {
    } else {
      AfterExtends(c, moves[0]);
      hide After;
      AnswerFinal(After(c, moves[0]), moves[1..], rid);
    }
  }

  /** Intake is idempotent: however often and whenever a request arrives, its batch is queued at most once. */
  lemma {:induction false} TakenOnce(c: Cluster, moves: seq<Move>, rid: RequestId)
    ensures TimesTaken(c, moves, rid) <= 1
    decreases |moves|
  {
    if |moves| == 0 {
    } else {
      var d := After(c, moves[0]);
      if moves[0].MDeliver? && moves[0].rid == rid && TookNow(c, rid, moves[0].now) {
        AnswerFinal(d, moves[1..], rid);
      } else {
        hide After, TookNow;
        TakenOnce(d, moves[1..], rid);
      }
    }
  }
}
