/**
 * Which assigned tasks are astray: nowhere to be found, though still assigned. A step by step account of how a
 * task goes astray and how it comes back, and the proof that the account is exact.
 */
module Astray {
  import opened Basics
  import opened Models
  import opened QueueSpec
  import NodeSpec
  import opened ClusterSpec
  import opened ClusterLaws
  import opened ClusterCopies
  import opened ClusterWitness
  import opened ClusterTrace
  import opened SystemSpec
  import opened SystemLaws
  import opened LostTasks
  import MS = MasterSpec
  import ML = MasterLaws
  import MR = MasterRuns

  /**
   * The steps that bring a task back: worker `a` admits a TASK for it or overflows on one, a worker takes a
   * batch with a copy labelled `a`, or takes back such a copy after its receiver has taken it. Workers that have
   * ended do none of this.
   */
  ghost predicate Regains(s: System, act: Action, id: TaskId, a: WorkerId) {
    match act
    case WorkerReads(w, now) =>
      && w == a && a !in s.gone && a in s.down && a in s.up && a in s.cluster.nodes && |s.down[a]| > 0
      && Carries(s.down[a][0], id, a) && ReadVerdict(s, a, now) != Duplicate
    case Internal(move) =>
      && !move.MAdmit? && !move.MReport? && Runs(s.cluster, s.gone, move)
      && MakesFirm(s.cluster, move, id, Some(a))
    case Distribute(_) => false
    case MasterReads(_) => false
    case Disconnect(_, _) => false
    case Hangup(_) => false
    case Stop(_) => false
    case WorkerReports(_, _) => false
    case WorkerStatus(_, _) => false
  }

  // ---- nothing else brings a task back ----------------------------------------------------------

  lemma UndeliveredFrom(s: System, act: Action, id: TaskId, a: WorkerId)
    requires MS.Inv(s.master) && AssignedTo(s.master, id, a) && Undelivered(Do(s, act), id, a)
    ensures Undelivered(s, id, a)
  {
    hide MR.Step, After, TryEnqueue, MS.NextAssignment, MS.Inv;
    if act.Distribute? {
      NotReassigned(s.master, act.now, id, a);
      IssuedRecord(s.master, act.now);
    } else if act.WorkerReads? {
      if act.w in s.down && |s.down[act.w]| > 0 {
        assert forall o :: o in s.down[act.w][1..] ==> o in s.down[act.w];
      }
    } else {
      SameOrders(s, act);
      hide Do;
    }
  }

  /** A returning result was returning before, or reports a firm copy, or an overflow. */
  lemma ReturningFrom(s: System, act: Action, id: TaskId, a: WorkerId)
    requires Wired(s) && AllLabelled(s) && Returning(Do(s, act), id, a)
    ensures Returning(s, id, a) || Firm(s, id, a) || Regains(s, act, id, a)
  {
    hide After, MR.Step, MS.NextAssignment, Trace, TryEnqueue, Witness;
    if !Returning(s, id, a) {
      if act.WorkerReports? { if act.w !in s.gone { ReportedFirm(s, act.w, act.good, id, a); } }
      else if act.WorkerReads? { if act.w !in s.gone { OverflowFrom(s, act.w, act.now, id, a); } }
      else { QuietUp(s, act, id, a); }
    }
  }

  lemma ReportedFirm(s: System, w: WorkerId, good: bool, id: TaskId, a: WorkerId)
    requires AllLabelled(s) && !Returning(s, id, a) && Returning(SendResult(s, w, good), id, a) && w !in s.gone
    ensures Firm(s, id, a)
  {
    hide After, Trace, Taken;
    var n := s.cluster.nodes[w];
    assert n.working.Some? && !n.reported;
    var t := n.working.value;
    var msg := ResultMsg(t.id, AssigneeOf(t, w), if good then Good else Bad);
    assert Answers(msg, id, a);
    assert Reports(s.cluster, MReport(w), t.id, t.assignment);
    ReportsTrace(s.cluster, s.gone, MReport(w), t.id, t.assignment);
    assert t in NodeSpec.FirmTasks(n, Taken(s.cluster, w)) && Labelled(t, id, Some(a));
    WitnessAt(s.cluster, s.gone, w, id, Some(a));
  }

  lemma OverflowFrom(s: System, w: WorkerId, now: real, id: TaskId, a: WorkerId)
    requires Wired(s) && !Returning(s, id, a) && Returning(ReadOrder(s, w, now), id, a) && w !in s.gone
    ensures Regains(s, WorkerReads(w, now), id, a)
  {
    hide After, TryEnqueue;
    assert s.down[w][0] in s.down[w];
  }

  lemma WitnessBefore(s: System, act: Action, id: TaskId, a: WorkerId)
    requires ClusterInv(s.cluster) && Wired(s) && Firm(Do(s, act), id, a)
    ensures Firm(s, id, a) || Regains(s, act, id, a)
  {
    hide ClusterInv, Witness, After, Do, TryEnqueue, TookNow, Taken;
    ClusterStep(s, act);
    GoneGrows(s, act);
    FirmBefore(Do(s, act).cluster, s.gone, Do(s, act).gone, id, Some(a));
    if !Firm(s, id, a) {
      WitnessFrom(s.cluster, s.gone, MoveOf(s, act), id, Some(a));
      if act.WorkerReads? { assert s.down[act.w][0] in s.down[act.w]; }
      else { InternalMove(s, act); }
    }
  }

  lemma FirmBefore(c: Cluster, gone: set<WorkerId>, more: set<WorkerId>, id: TaskId, a: Option<WorkerId>)
    requires gone <= more && Witness(c, more, id, a)
    ensures Witness(c, gone, id, a)
  {
    hide HasFirm, Taken;
  }

  lemma InternalMove(s: System, act: Action)
    requires !act.WorkerReads? && Do(s, act).cluster != s.cluster
    ensures MoveOf(s, act).MReport? || (act.Internal? && act.move == MoveOf(s, act) && !act.move.MAdmit?)
  {
    hide After, MR.Step;
  }

  /** And these steps do bring it back. */
  lemma RegainedHere(s: System, act: Action, id: TaskId, a: WorkerId)
    requires ClusterInv(s.cluster) && Regains(s, act, id, a)
    ensures Somewhere(Do(s, act), id, a)
  {
    hide ClusterInv, Witness, After, TryEnqueue, Returning, TookNow, Taken;
    if act.Internal? {
      MadeFirm(s.cluster, s.gone, act.move, id, Some(a));
    } else {
      var o := s.down[a][0];
      if ReadVerdict(s, a, act.now) == Admitted {
        AdmittedWitness(s.cluster, s.gone, a, o.task.(enqueuedAt := act.now), o.priority, Some(a));
      } else {
        OverflowReturns(s, a, act.now, id);
      }
    }
  }

  /** The exact condition for coming back. */
  lemma ReturnsExactly(s: System, act: Action, id: TaskId, a: WorkerId)
    requires SystemInv(s) && AllLabelled(s) && AssignedTo(s.master, id, a) && !Somewhere(s, id, a)
    ensures Somewhere(Do(s, act), id, a) <==> Regains(s, act, id, a)
  {
    hide MS.Inv, ClusterInv, Conserved, Wired, AllTraceable, AllLabelled;
    hide Do, Regains, Witness, Returning, Undelivered, AssignedTo;
    if Regains(s, act, id, a) { RegainedHere(s, act, id, a); }
    var r := Do(s, act);
    if Undelivered(r, id, a) { UndeliveredFrom(s, act, id, a); }
    if Firm(r, id, a) { WitnessBefore(s, act, id, a); }
    if Returning(r, id, a) { ReturningFrom(s, act, id, a); }
  }

  // ---- the account along a run ------------------------------------------------------------------

  /** The distributor assigns the task in this step. */
  ghost predicate Issues(s: System, act: Action, id: TaskId) {
    act.Distribute? && var got := MS.NextAssignment(s.master, act.now).1; got.Some? && got.value.id == id
  }

  /** It assigns it to a worker that has ended, and there is no older copy or result to take for the new one. */
  ghost predicate IssuesToNobody(s: System, act: Action, id: TaskId) {
    && Issues(s, act, id)
    && var a := MS.NextAssignment(s.master, act.now).1.value.worker;
       a in s.gone && !Firm(s, id, a) && !Returning(s, id, a)
  }

  ghost predicate Found(s: System, act: Action, id: TaskId) {
    Issues(s, act, id) || exists a :: AssignedTo(s.master, id, a) && Regains(s, act, id, a)
  }

  ghost predicate Strays(s: System, act: Action, id: TaskId) {
    IssuesToNobody(s, act, id) || exists a :: AssignedTo(s.master, id, a) && Drops(s, act, id, a)
  }

  ghost function NextAstray(s: System, act: Action, astray: set<TaskId>): set<TaskId> {
    (set id | id in astray && !Found(s, act, id)) + (set id | id in s.master.tasks && Strays(s, act, id))
  }

  /** The tasks that went astray along the run and did not come back. */
  ghost function AstrayAfter(s: System, acts: seq<Action>, astray: set<TaskId>): set<TaskId>
    decreases |acts|
  {
    if |acts| == 0 then astray else AstrayAfter(Do(s, acts[0]), acts[1..], NextAstray(s, acts[0], astray))
  }

  ghost predicate Exact(s: System, astray: set<TaskId>) {
    forall id, a :: AssignedTo(s.master, id, a) ==> (Somewhere(s, id, a) <==> id !in astray)
  }

  /** A task has one holder. */
  lemma OneHolder(m: MS.Master, id: TaskId, a: WorkerId, b: WorkerId)
    requires MS.Inv(m) && AssignedTo(m, id, a) && AssignedTo(m, id, b)
    ensures a == b
  {
    assert MS.Holds(m.tasks, m.state, m.workers[a], a) && MS.Holds(m.tasks, m.state, m.workers[b], b);
  }

  /** Only the distributor assigns, and only tasks that are not out. */
  lemma NewHolder(s: System, act: Action, id: TaskId, a: WorkerId)
    requires MS.Inv(s.master) && AssignedTo(Do(s, act).master, id, a)
    ensures AssignedTo(s.master, id, a) <==> !Issues(s, act, id)
  {
    hide MR.Step, MS.NextAssignment, After, TryEnqueue, MS.IsBest, MS.Stored, MS.Queues, MS.Tables;
    match act
    case Distribute(now) =>
      ML.NextLaw(s.master, now);
      if AssignedTo(s.master, id, a) { NotReassigned(s.master, now, id, a); }
    case MasterReads(w) =>
      if w in s.up && |s.up[w]| > 0 { StepHeld(s.master, MasterEvent(w, s.up[w][0]), id, a); }
    case Disconnect(w, order) => StepHeld(s.master, MR.Lost(w, order), id, a);
    case Hangup(_) => SameMaster(s, act);
    case Stop(_) => SameMaster(s, act);
    case WorkerReads(_, _) => SameMaster(s, act);
    case WorkerReports(_, _) => SameMaster(s, act);
    case WorkerStatus(_, _) => SameMaster(s, act);
    case Internal(_) => SameMaster(s, act);
  }

  /** While the holder stays, only its own drops and regains count. */
  lemma HolderCounts(s: System, act: Action, id: TaskId, a: WorkerId)
    requires MS.Inv(s.master) && AssignedTo(s.master, id, a)
    ensures Strays(s, act, id) <==> IssuesToNobody(s, act, id) || Drops(s, act, id, a)
    ensures Found(s, act, id) <==> Issues(s, act, id) || Regains(s, act, id, a)
    ensures id in s.master.tasks
  {
    HeldHasRecord(s.master, id, a);
    hide MS.Inv, AssignedTo, Drops, Regains, Issues, IssuesToNobody;
    if b :| AssignedTo(s.master, id, b) && Drops(s, act, id, b) { OneHolder(s.master, id, a, b); }
    if b :| AssignedTo(s.master, id, b) && Regains(s, act, id, b) { OneHolder(s.master, id, a, b); }
  }

  lemma HeldHasRecord(m: MS.Master, id: TaskId, a: WorkerId)
    requires MS.Inv(m) && AssignedTo(m, id, a)
    ensures id in m.tasks
  {
    assert MS.Holds(m.tasks, m.state, m.workers[a], a);
  }

  lemma ExactAt(s: System, act: Action, astray: set<TaskId>, id: TaskId, a: WorkerId)
    requires SystemInv(s) && AllLabelled(s) && Exact(s, astray) && AssignedTo(Do(s, act).master, id, a)
    ensures Somewhere(Do(s, act), id, a) <==> id !in NextAstray(s, act, astray)
  {
    hide MS.Inv, ClusterInv, Conserved, Wired, AllTraceable, AllLabelled, Do;
    hide Regains, Somewhere, AssignedTo, Issues, Found, Strays, Drops;
    NewHolder(s, act, id, a);
    if AssignedTo(s.master, id, a) {
      HolderCounts(s, act, id, a);
      if Somewhere(s, id, a) {
        StaysExactly(s, act, id, a);
      } else {
        ReturnsExactly(s, act, id, a);
        if Drops(s, act, id, a) { DropLoses(s, act, id, a); }
      }
    } else {
      IssuedExactly(s, act, id, a);
    }
  }

  /** A task just assigned is somewhere, unless its worker has ended. */
  lemma IssuedExactly(s: System, act: Action, id: TaskId, a: WorkerId)
    requires SystemInv(s) && Issues(s, act, id) && AssignedTo(Do(s, act).master, id, a)
    ensures Somewhere(Do(s, act), id, a) <==> !Strays(s, act, id)
    ensures Found(s, act, id) && id in s.master.tasks
  {
    hide MS.Inv, ClusterInv, Conserved, Wired, AllTraceable, Witness, MS.NextAssignment, Returning, AssignedTo, Assign;
    IssuedOrder(s, act.now, id, a);
    AssignFrame(s, act.now);
    SameReturning(s, Assign(s, act.now), id, a);
  }

  lemma ExactStep(s: System, act: Action, astray: set<TaskId>)
    requires SystemInv(s) && AllLabelled(s) && Exact(s, astray)
    ensures Exact(Do(s, act), NextAstray(s, act, astray))
  {
    hide SystemInv, AllLabelled, NextAstray, Do, Somewhere, AssignedTo;
    forall id, a | AssignedTo(Do(s, act).master, id, a)
      ensures Somewhere(Do(s, act), id, a) <==> id !in NextAstray(s, act, astray)
    {
      ExactAt(s, act, astray, id, a);
    }
  }

  lemma {:induction false} ExactRun(s: System, acts: seq<Action>, astray: set<TaskId>)
    requires SystemInv(s) && AllLabelled(s) && Exact(s, astray) && AllCan(s, acts)
    ensures Exact(Execute(s, acts), AstrayAfter(s, acts, astray))
    decreases |acts|
  {
    hide SystemInv, AllLabelled, Exact, Do, Can, NextAstray;
    if |acts| == 0 {
    } else {
      DoInv(s, acts[0]);
      LabelledStays(s, acts[0]);
      ExactStep(s, acts[0], astray);
      ExactRun(Do(s, acts[0]), acts[1..], NextAstray(s, acts[0], astray));
    }
  }
}
