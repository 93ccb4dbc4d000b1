/**
 * When a task can still be recovered. As long as a TASK, a trace or a result of its assignment is left, some
 * continuation ends the assignment: the worker concerned settles its transfer, works off its queue, takes what is
 * on its way to it and reports it, and the master reads the report. So a task is held for good, unless its worker
 * is disconnected, exactly if nothing is left.
 */
module Recovery {
  import opened Basics
  import opened Models
  import opened QueueSpec
  import opened NodeSpec
  import opened NodeLaws
  import opened ClusterSpec
  import opened ClusterLaws
  import opened ClusterCopies
  import opened ClusterWitness
  import opened ClusterTrace
  import opened Spots
  import opened SystemSpec
  import opened SystemLaws
  import opened LostTasks
  import opened LosingSteps
  import MS = MasterSpec
  import MR = MasterRuns

  /** The continuation does not disconnect `a`. */
  ghost predicate Spares(acts: seq<Action>, a: WorkerId) {
    forall act <- acts :: !(act.Disconnect? && act.w == a)
  }

  /** Whatever happens, short of a disconnect of `a`, the task stays assigned to `a`. */
  ghost predicate Stuck(s: System, id: TaskId, a: WorkerId) {
    forall acts :: AllCan(s, acts) && Spares(acts, a) ==> AssignedTo(Execute(s, acts).master, id, a)
  }

  lemma StuckNow(s: System, id: TaskId, a: WorkerId)
    requires Stuck(s, id, a)
    ensures AssignedTo(s.master, id, a)
  {
    assert AllCan(s, []) && Spares([], a) && Execute(s, []) == s;
  }

  lemma StuckNext(s: System, act: Action, id: TaskId, a: WorkerId)
    requires Stuck(s, id, a) && Can(s, act) && !(act.Disconnect? && act.w == a)
    ensures Stuck(Do(s, act), id, a)
  {
    hide Can, Do;
    var r := Do(s, act);
    forall acts | AllCan(r, acts) && Spares(acts, a) ensures AssignedTo(Execute(r, acts).master, id, a) {
      assert ([act] + acts)[1..] == acts;
      assert AllCan(s, [act] + acts) && Spares([act] + acts, a);
      assert Execute(s, [act] + acts) == Execute(r, acts);
    }
  }

  // ---- a worker works off what it has ------------------------------------------------------------

  /** Nothing queued, nothing in processing, no transfer. */
  predicate AtRest(n: Node) {
    n.q.normal == [] && n.q.priority == [] && n.working.None? && n.phase.Idle?
  }

  function PhaseChores(p: Phase): nat {
    match p
    case Idle => 0
    case Picking(_, todo, picked) => 3 + 4 * |picked| + 2 * |todo|
    case Waiting(_, _, batch) => 2 + 4 * |batch|
    case Confirming(_, left) => 1 + |left|
    case Releasing(_, left) => 1 + 4 * |left|
  }

  /** How many steps the worker needs at most to come to rest. */
  function Chores(n: Node): nat {
    3 * (|n.q.normal| + |n.q.priority|) + (if n.working.None? then 0 else if n.reported then 1 else 2) +
    PhaseChores(n.phase)
  }

  /** The next step towards rest: finish the task in processing, end the transfer, then take a task. */
  function NextMove(n: Node, w: WorkerId, rid: RequestId): Move {
    if n.working.Some? then (if n.reported then MFinish(w) else MReport(w)) else
      match n.phase
      case Idle => MTake(w)
      case Picking(_, todo, picked) =>
        if |todo| > 0 then MPick(w) else if |picked| > 0 then MSend(w, rid) else MSettle(w)
      case Waiting(_, _, _) => MGiveUp(w)
      case Confirming(_, left) => if |left| > 0 then MConfirm(w) else MSettle(w)
      case Releasing(_, left) => if |left| > 0 then MRelease(w) else MSettle(w)
  }

  function NextChore(n: Node, w: WorkerId, rid: RequestId): Action {
    if NextMove(n, w, rid).MReport? then WorkerReports(w, true) else Internal(NextMove(n, w, rid))
  }

  lemma PickShrinks(n: Node)
    requires n.phase.Picking? && |n.phase.todo| > 0
    ensures Chores(Pick(n)) < Chores(n) && Pick(n).working == n.working && Pick(n).reported == n.reported
  {
  }

  lemma ReleaseShrinks(n: Node)
    requires n.phase.Releasing? && |n.phase.left| > 0
    ensures Chores(ReleaseOne(n)) < Chores(n)
  {
  }

  lemma PhaseShrinks(n: Node, w: WorkerId, rid: RequestId)
    requires n.working.None? && !n.phase.Idle?
    ensures match NextMove(n, w, rid)
            case MPick(_) => Chores(Pick(n)) < Chores(n)
            case MSend(_, _) => Chores(Send(n, rid)) < Chores(n)
            case MGiveUp(_) => Chores(GiveUp(n)) < Chores(n)
            case MConfirm(_) => Chores(ConfirmOne(n)) < Chores(n)
            case MRelease(_) => Chores(ReleaseOne(n)) < Chores(n)
            case MSettle(_) => Chores(Settle(n)) < Chores(n)
            case _ => false
  {
    hide Pick, ReleaseOne;
    if n.phase.Picking? && |n.phase.todo| > 0 { PickShrinks(n); }
    if n.phase.Releasing? && |n.phase.left| > 0 { ReleaseShrinks(n); }
  }

  lemma LoopShrinks(n: Node)
    requires !AtRest(n) && (n.working.None? ==> n.phase.Idle?)
    ensures var r := if n.working.None? then Take(n) else if n.reported then Finish(n) else NodeSpec.Report(n);
            Chores(r) < Chores(n)
  {
  }

  /** Each such step leaves less to do. */
  lemma MoveShrinks(c: Cluster, w: WorkerId, rid: RequestId)
    requires w in c.nodes && !AtRest(c.nodes[w]) && rid !in c.net
    ensures var mv := NextMove(c.nodes[w], w, rid);
            At(c, mv) == Some(w) && Chores(Local(c, mv, w)) < Chores(c.nodes[w])
  {
    hide Chores, AtRest, Pick, Send, GiveUp, ConfirmOne, ReleaseOne, Settle, Take, Finish, NodeSpec.Report;
    var n := c.nodes[w];
    if n.working.None? && !n.phase.Idle? { PhaseShrinks(n, w, rid); } else { LoopShrinks(n); }
  }

  lemma {:induction false} Longest(ids: set<RequestId>) returns (n: nat)
    ensures forall x :: x in ids ==> |x| <= n
  {
    if ids == {} {
      n := 0;
    } else {
      var x :| x in ids;
      var m := Longest(ids - {x});
      n := if |x| <= m then m else |x|;
    }
  }

  /** There is always a request id that was not used. */
  lemma FreshId(ids: set<RequestId>) returns (rid: RequestId)
    ensures rid !in ids
  {
    var n := Longest(ids);
    rid := seq(n + 1, _ => 'r');
  }

  /** The step changes neither master nor orders. */
  lemma ChoreDoes(s: System, w: WorkerId, rid: RequestId)
    requires w in s.cluster.nodes && w in s.up && w !in s.gone && !AtRest(s.cluster.nodes[w])
    ensures var act := NextChore(s.cluster.nodes[w], w, rid);
            var r, mv := Do(s, act), MoveOf(s, act);
            && mv == NextMove(s.cluster.nodes[w], w, rid) && At(s.cluster, mv) == Some(w)
            && r.master == s.master && r.gone == s.gone && r.down == s.down && r.cluster == After(s.cluster, mv)
            && !mv.MAdmit? && !mv.MDeliver? && !mv.MAck?
            && (act.WorkerReports? || act.Internal?) && (act.WorkerReports? <==> mv.MReport?)
  {
    hide After, AtRest;
  }

  lemma ChoreStep(s: System, w: WorkerId) returns (act: Action)
    requires SystemInv(s) && w in s.cluster.nodes && w !in s.gone && !AtRest(s.cluster.nodes[w])
    ensures var r, mv := Do(s, act), MoveOf(s, act);
            && Can(s, act) && !act.Disconnect? && SystemInv(r)
            && r.master == s.master && r.gone == s.gone && r.down == s.down && r.cluster == After(s.cluster, mv)
            && w in r.cluster.nodes && Chores(r.cluster.nodes[w]) < Chores(s.cluster.nodes[w])
            && At(s.cluster, mv) == Some(w) && !mv.MAdmit? && !mv.MDeliver? && !mv.MAck?
            && (act.WorkerReports? || act.Internal?) && (act.WorkerReports? <==> mv.MReport?)
  {
    hide MS.Inv, ClusterInv, Conserved, AllTraceable, WellAddressed, InOrder, AllOfSize, AtRest, Chores, After, Local;
    hide NextMove, NextChore, Do, MoveOf;
    var rid := FreshId(s.cluster.net.Keys);
    act := NextChore(s.cluster.nodes[w], w, rid);
    ChoreDoes(s, w, rid);
    MoveShrinks(s.cluster, w, rid);
    AfterNodes(s.cluster, MoveOf(s, act));
    DoInv(s, act);
  }

  // ---- a result is read --------------------------------------------------------------------------

  lemma {:induction false} ReadOut(s: System, w: WorkerId, i: nat, id: TaskId, a: WorkerId)
    requires SystemInv(s) && w in s.up && i < |s.up[w]| && Answers(s.up[w][i], id, a)
    ensures !Stuck(s, id, a)
    decreases i
  {
    hide MS.Inv, ClusterInv, Conserved, Wired, AllTraceable, Stuck, Answers, AssignedTo, Do;
    if Stuck(s, id, a) {
      StuckNow(s, id, a);
      var r := Do(s, MasterReads(w));
      StuckNext(s, MasterReads(w), id, a);
      StuckNow(r, id, a);
      DoInv(s, MasterReads(w));
      ReadMoves(s, w, id, a);
      ReadOut(r, w, i - 1, id, a);
    }
  }

  /** Reading takes a message off; if the task stays assigned, it was not its result. */
  lemma ReadMoves(s: System, w: WorkerId, id: TaskId, a: WorkerId)
    requires SystemInv(s) && w in s.up && |s.up[w]| > 0 && AssignedTo(s.master, id, a)
    requires AssignedTo(Do(s, MasterReads(w)).master, id, a)
    ensures var r := Do(s, MasterReads(w)); w in r.up && r.up[w] == s.up[w][1..] && !Answers(s.up[w][0], id, a)
  {
    hide MS.Inv, ClusterInv, Conserved, Wired, AllTraceable, MR.Step, AssignedTo;
    StepHeld(s.master, MasterEvent(w, s.up[w][0]), id, a);
    HeldAccepts(s.master, id, a);
  }

  lemma ReturningEnds(s: System, id: TaskId, a: WorkerId)
    requires SystemInv(s) && Returning(s, id, a)
    ensures !Stuck(s, id, a)
  {
    hide SystemInv, Stuck, Answers;
    var w, m :| w in s.up && m in s.up[w] && Answers(m, id, a);
    var i :| 0 <= i < |s.up[w]| && s.up[w][i] == m;
    ReadOut(s, w, i, id, a);
  }

  // ---- a copy is reported ------------------------------------------------------------------------

  lemma RestKeepsNothing(n: Node, id: TaskId, a: Option<WorkerId>)
    requires AtRest(n)
    ensures !Keeps(n, id, a)
  {
  }

  /** A chore leaves the copy at its worker, or reports it. */
  lemma ChoreKeeps(s: System, act: Action, w: WorkerId, id: TaskId, a: WorkerId)
    requires SystemInv(s) && w in s.cluster.nodes && w !in s.gone && Keeps(s.cluster.nodes[w], id, Some(a))
    requires (act.WorkerReports? <==> MoveOf(s, act).MReport?) && At(s.cluster, MoveOf(s, act)) == Some(w)
    requires !MoveOf(s, act).MDeliver? && !MoveOf(s, act).MAck?
    requires Do(s, act).cluster == After(s.cluster, MoveOf(s, act))
    ensures var r := Do(s, act);
            w in r.cluster.nodes && (Keeps(r.cluster.nodes[w], id, Some(a)) || Returning(r, id, a))
  {
    hide MS.Inv, ClusterInv, Conserved, AllTraceable, WellAddressed, InOrder, AllOfSize, NodeInv, After, FirmTasks;
    hide Local, Returning, HasFirm, Labelled;
    var c, mv := s.cluster, MoveOf(s, act);
    var n := c.nodes[w];
    AfterNodes(c, mv);
    InvAt(c, w);
    if mv.MReport? {
      ReportFirm(n, n.phase.Confirming?, id, Some(a));
      ReportLocal(c, mv, w);
      if Reports(c, mv, id, Some(a)) { ReportReturns(s, w, act.good, id, a); }
    } else {
      LocalStays(c, mv, w);
      MoreKept(n, Local(c, mv, w), id, Some(a));
    }
  }

  lemma MoreKept(n: Node, n': Node, id: TaskId, a: Option<WorkerId>)
    requires Keeps(n, id, a) && Alive(n) <= Alive(n')
    ensures Keeps(n', id, a)
  {
  }

  lemma {:induction false} CopyEnds(s: System, w: WorkerId, id: TaskId, a: WorkerId)
    requires SystemInv(s) && w in s.cluster.nodes && w !in s.gone && Keeps(s.cluster.nodes[w], id, Some(a))
    ensures !Stuck(s, id, a)
    decreases Chores(s.cluster.nodes[w])
  {
    hide SystemInv, Stuck, Keeps, AtRest, Chores, Do, Returning, After, MoveOf, Can;
    if AtRest(s.cluster.nodes[w]) { RestKeepsNothing(s.cluster.nodes[w], id, Some(a)); }
    var act := ChoreStep(s, w);
    ChoreKeeps(s, act, w, id, a);
    if Returning(Do(s, act), id, a) { ReturningEnds(Do(s, act), id, a); } else { CopyEnds(Do(s, act), w, id, a); }
    if Stuck(s, id, a) { StuckNext(s, act, id, a); }
  }

  // ---- a batch is taken --------------------------------------------------------------------------

  /** A worker at rest takes any batch and any TASK. */
  lemma RestHasRoom(c: Cluster, w: WorkerId)
    requires ClusterInv(c) && AllOfSize(c, QUEUE_CAPACITY) && w in c.nodes && AtRest(c.nodes[w])
    ensures c.nodes[w].q.active == {} && c.nodes[w].q.Size() == 0 && c.nodes[w].q.capacity == QUEUE_CAPACITY
  {
    hide ClusterInv, NodeInv, AtRest;
    InvAt(c, w);
    hide Linked;
    RestIsEmpty(c.nodes[w]);
  }

  lemma RestIsEmpty(n: Node)
    requires NodeInv(n) && AtRest(n)
    ensures n.q.active == {} && n.q.Size() == 0
  {
    hide Distinct, Keyed;
    assert n.q.reserved == map[];
  }

  lemma TakesBatch(c: Cluster, rid: RequestId, id: TaskId, a: Option<WorkerId>, gone: set<WorkerId>)
    requires ClusterInv(c) && AllOfSize(c, QUEUE_CAPACITY) && OnItsWay(c, gone, rid, id, a)
    requires AtRest(c.nodes[c.net[rid].to])
    ensures var d := After(c, MDeliver(rid, 0.0)); c.net[rid].to in d.nodes && Keeps(d.nodes[c.net[rid].to], id, a)
  {
    hide ClusterInv, AllOfSize, AtRest, After, FirmTasks, Receive, TryEnqueueMany, Took, Local;
    var to, ts := c.net[rid].to, c.net[rid].tasks;
    RestHasRoom(c, to);
    InvRequests(c);
    assert RequestOk(c, c.net[rid]);
    EmptyTakes(c.nodes[to], rid, ts);
    AfterNodes(c, MDeliver(rid, 0.0));
    LocalIs(c, MDeliver(rid, 0.0), to);
    var x :| x in ts && Labelled(x, id, a);
    var n := Receive(c.nodes[to], rid, ts, 0.0);
    NowTaken(c, rid, 0.0, x, n.phase.Confirming?);
    SameLabel(x, 0.0, id, a);
    HasOne(n, n.phase.Confirming?, x.(enqueuedAt := 0.0), id, a);
  }

  lemma EmptyTakes(n: Node, rid: RequestId, ts: seq<Task>)
    requires n.q.active == {} && n.q.Size() == 0 && n.q.capacity == QUEUE_CAPACITY
    requires rid !in n.handled && 1 <= |ts| <= MAX_TRANSFER && Distinct(ts)
    ensures Took(n, rid, ts, 0.0)
  {
    hide Ids, Distinct, Stamp, TaskIds;
    StampIds(ts, 0.0);
    DistinctCount(Stamp(ts, 0.0));
  }

  lemma {:induction false} BatchEnds(s: System, rid: RequestId, id: TaskId, a: WorkerId)
    requires SystemInv(s) && OnItsWay(s.cluster, s.gone, rid, id, Some(a))
    ensures !Stuck(s, id, a)
    decreases Chores(s.cluster.nodes[s.cluster.net[rid].to])
  {
    hide MS.Inv, ClusterInv, Conserved, WellAddressed, InOrder, AllOfSize, AllTraceable;
    hide Stuck, Keeps, AtRest, Chores, After, Returning, MoveOf;
    var c, w := s.cluster, s.cluster.net[rid].to;
    if AtRest(c.nodes[w]) {
      var act := Internal(MDeliver(rid, 0.0));
      DoInv(s, act);
      TakesBatch(c, rid, id, Some(a), s.gone);
      CopyEnds(Do(s, act), w, id, a);
      if Stuck(s, id, a) { StuckNext(s, act, id, a); }
    } else {
      var act := ChoreStep(s, w);
      StillUnhandled(c, MoveOf(s, act), rid);
      hide Do, Can;
      BatchEnds(Do(s, act), rid, id, a);
      if Stuck(s, id, a) { StuckNext(s, act, id, a); }
    }
  }

  // ---- a TASK is read ----------------------------------------------------------------------------

  /** A worker at rest admits the TASK it reads. */
  lemma AdmitsNext(s: System, a: WorkerId, id: TaskId)
    requires ClusterInv(s.cluster) && AllOfSize(s.cluster, QUEUE_CAPACITY) && a !in s.gone
    requires a in s.down && a in s.up && a in s.cluster.nodes && |s.down[a]| > 0 && AtRest(s.cluster.nodes[a])
    ensures var r := Do(s, WorkerReads(a, 0.0));
            && r.down == s.down[a := s.down[a][1..]] && r.gone == s.gone && a in r.cluster.nodes
            && (Carries(s.down[a][0], id, a) ==> Keeps(r.cluster.nodes[a], id, Some(a)))
  {
    hide ClusterInv, AllOfSize, AtRest, Keeps, TryEnqueue, After, NodeInv, Admit, Labelled;
    RestHasRoom(s.cluster, a);
    var o := s.down[a][0];
    var t := o.task.(enqueuedAt := 0.0);
    InvAt(s.cluster, a);
    hide Linked;
    RoomAdmits(s.cluster.nodes[a], t, o.priority);
    SameLabel(o.task, 0.0, id, Some(a));
    AfterNodes(s.cluster, MAdmit(a, t, o.priority));
    LocalIs(s.cluster, MAdmit(a, t, o.priority), a);
    if Carries(o, id, a) { assert Labelled(t, id, Some(a)); }
  }

  lemma RoomAdmits(n: Node, t: Task, priority: bool)
    requires NodeInv(n) && n.q.active == {} && n.q.Size() == 0 && n.q.capacity == QUEUE_CAPACITY
    ensures TryEnqueue(n.q, t, priority).1 == Admitted
    ensures forall id, a :: Labelled(t, id, a) ==> Keeps(Admit(n, t, priority), id, a)
  {
    AdmitFirm(n, t, priority, n.phase.Confirming?);
    hide NodeInv, FirmTasks;
    forall id, a | Labelled(t, id, a) ensures Keeps(Admit(n, t, priority), id, a) {
      HasOne(Admit(n, t, priority), n.phase.Confirming?, t, id, a);
    }
  }

  lemma {:induction false} OrderEnds(s: System, i: nat, id: TaskId, a: WorkerId)
    requires SystemInv(s) && a !in s.gone && a in s.down && i < |s.down[a]| && Carries(s.down[a][i], id, a)
    ensures !Stuck(s, id, a)
    decreases i, if a in s.cluster.nodes then Chores(s.cluster.nodes[a]) else 0
  {
    hide MS.Inv, ClusterInv, Conserved, WellAddressed, InOrder, AllOfSize, AllTraceable, Carries;
    hide Stuck, Keeps, AtRest, Chores, After, MoveOf, Do;
    if AtRest(s.cluster.nodes[a]) {
      var act := WorkerReads(a, 0.0);
      DoInv(s, act);
      AdmitsNext(s, a, id);
      if i == 0 { CopyEnds(Do(s, act), a, id, a); } else { OrderEnds(Do(s, act), i - 1, id, a); }
      if Stuck(s, id, a) { StuckNext(s, act, id, a); }
    } else {
      var act := ChoreStep(s, a);
      OrderEnds(Do(s, act), i, id, a);
      if Stuck(s, id, a) { StuckNext(s, act, id, a); }
    }
  }

  // ---- the exact condition -----------------------------------------------------------------------

  /** As long as anything is left of the assignment, some continuation ends it. */
  lemma TracedEnds(s: System, id: TaskId, a: WorkerId)
    requires SystemInv(s) && !Untraced(s, id, a)
    ensures !Stuck(s, id, a)
  {
    hide SystemInv, Stuck, Keeps, Carries, OnItsWay, Returning;
    if Returning(s, id, a) {
      ReturningEnds(s, id, a);
    } else if Ordered(s, id, a) {
      var o :| o in s.down[a] && Carries(o, id, a);
      var i :| 0 <= i < |s.down[a]| && s.down[a][i] == o;
      OrderEnds(s, i, id, a);
    } else if rid :| OnItsWay(s.cluster, s.gone, rid, id, Some(a)) {
      BatchEnds(s, rid, id, a);
    } else {
      var w :| w in s.cluster.nodes && w !in s.gone && Keeps(s.cluster.nodes[w], id, Some(a));
      CopyEnds(s, w, id, a);
    }
  }

  /**
   * The task stays assigned to `a` in every continuation that does not disconnect `a`, exactly if it is assigned to
   * `a` and no TASK, trace or result of the assignment is left.
   */
  lemma StuckExactly(s: System, id: TaskId, a: WorkerId)
    requires SystemInv(s) && AllLabelled(s)
    ensures Stuck(s, id, a) <==> Forgotten(s, id, a)
  {
    hide SystemInv, AllLabelled, Untraced;
    if Stuck(s, id, a) {
      StuckNow(s, id, a);
      if !Untraced(s, id, a) { TracedEnds(s, id, a); }
    }
    if Forgotten(s, id, a) {
      forall acts | AllCan(s, acts) && Spares(acts, a) ensures AssignedTo(Execute(s, acts).master, id, a) {
        ForgottenForever(s, acts, id, a);
      }
    }
  }
}
