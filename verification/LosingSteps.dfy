/**
 * Which steps lose an assigned task for good: those after which no TASK, no trace of it and no result is left that
 * could make the master end the assignment.
 */
module LosingSteps {
  import opened Basics
  import opened Models
  import opened QueueSpec
  import opened ClusterSpec
  import opened ClusterLaws
  import opened ClusterWitness
  import opened ClusterTrace
  import opened Spots
  import opened SystemSpec
  import opened SystemLaws
  import opened LostTasks
  import opened Astray
  import MS = MasterSpec
  import ML = MasterLaws
  import MR = MasterRuns

  /** Worker `w` is `a` and refuses the last TASK for the task. */
  ghost predicate RefusesLast(s: System, w: WorkerId, now: real, id: TaskId, a: WorkerId) {
    && w == a && a !in s.gone && a in s.down && a in s.up && a in s.cluster.nodes && |s.down[a]| > 0
    && Carries(s.down[a][0], id, a) && ReadVerdict(s, a, now) == Duplicate
    && forall o <- s.down[a][1..] :: !Carries(o, id, a)
  }

  /**
   * The steps that lose the task for good. With no result left: the last TASK is refused when no trace is left; the
   * last copy is given away, or the last batch refused, when no TASK is left; a worker ends that alone has all that
   * is left; or the task is assigned to a worker that has ended when no trace is left. With nothing else left: the
   * master stops reading the one connection with results.
   */
  ghost predicate Loses(s: System, act: Action, id: TaskId, a: WorkerId) {
    match act
    case WorkerReads(w, now) => RefusesLast(s, w, now, id, a) && !Returning(s, id, a) && !Traced(s, id, a)
    case Internal(move) =>
      && !move.MAdmit? && !move.MReport? && Runs(s.cluster, s.gone, move)
      && !Returning(s, id, a) && !Ordered(s, id, a)
      && exists p :: OnlySpot(s.cluster, s.gone, p, id, Some(a)) && Vanishes(s.cluster, move, p)
    case Stop(w) =>
      && !Returning(s, id, a) && (Ordered(s, id, a) ==> w == a)
      && SpotsOnlyAt(s.cluster, s.gone, w, id, Some(a))
    case Hangup(w) => ReturningOnlyFrom(s, w, id, a) && !Ordered(s, id, a) && !Traced(s, id, a)
    case Distribute(_) =>
      && Issues(s, act, id) && MS.NextAssignment(s.master, act.now).1.value.worker == a && a in s.gone
      && !Returning(s, id, a) && !Traced(s, id, a)
    case MasterReads(_) => false
    case Disconnect(_, _) => false
    case WorkerReports(_, _) => false
    case WorkerStatus(_, _) => false
  }

  /** The exact condition, step by step: an assigned task that was not lost is lost exactly by these steps. */
  lemma LosesExactly(s: System, act: Action, id: TaskId, a: WorkerId)
    requires SystemInv(s) && AssignedTo(Do(s, act).master, id, a) && !Forgotten(s, id, a)
    ensures Forgotten(Do(s, act), id, a) <==> Loses(s, act, id, a)
  {
    hide MS.Inv, ClusterInv, Conserved, Wired, AllTraceable, AssignedTo, Trace, Returning, Ordered, Issues;
    hide Assign, ReadReport, ReadOrder, SendResult, SendStatus, After, MR.Step, OnlySpot, Vanishes;
    NewHolder(s, act, id, a);
    if !AssignedTo(s.master, id, a) { IssueLoses(s, act, id, a); }
    else {
      match act
      case Distribute(now) => AssignTraced(s, now, id, a);
      case MasterReads(w) => ReadTraced(s, w, id, a);
      case Disconnect(w, order) => SameTraced(s, Do(s, act), id, a);
      case Hangup(w) => HangupLoses(s, w, id, a);
      case Stop(w) => StopLoses(s, w, id, a);
      case WorkerReads(w, now) => if w !in s.gone { OrderLoses(s, w, now, id, a); }
      case WorkerReports(w, good) => if w !in s.gone { ReportTraced(s, w, good, id, a); }
      case WorkerStatus(w, size) => StatusTraced(s, w, size, id, a);
      case Internal(move) => InternalLoses(s, move, id, a);
    }
  }

  /** A task just assigned is on its way, unless its worker has ended. */
  lemma IssueLoses(s: System, act: Action, id: TaskId, a: WorkerId)
    requires SystemInv(s) && Issues(s, act, id) && AssignedTo(Do(s, act).master, id, a)
    ensures Untraced(Do(s, act), id, a) <==> Loses(s, act, id, a)
  {
    hide MS.Inv, ClusterInv, Conserved, Wired, AllTraceable, Trace, MS.NextAssignment, Returning, AssignedTo, Assign;
    IssuedOrder(s, act.now, id, a);
    AssignFrame(s, act.now);
    SameReturning(s, Assign(s, act.now), id, a);
  }

  lemma SameTraced(s: System, r: System, id: TaskId, a: WorkerId)
    requires r.down == s.down && r.up == s.up && r.cluster == s.cluster && r.gone == s.gone
    ensures Untraced(r, id, a) <==> Untraced(s, id, a)
  {
    hide Trace;
  }

  lemma HangupLoses(s: System, w: WorkerId, id: TaskId, a: WorkerId)
    requires !Untraced(s, id, a)
    ensures Untraced(Do(s, Hangup(w)), id, a) <==> Loses(s, Hangup(w), id, a)
  {
    hide Trace, Returning, ReturningOnlyFrom;
    HangupReturning(s, w, id, a);
  }

  lemma HangupReturning(s: System, w: WorkerId, id: TaskId, a: WorkerId)
    ensures Returning(Do(s, Hangup(w)), id, a) <==> !ReturningOnlyFrom(s, w, id, a)
  {
    var r := Do(s, Hangup(w));
    if v, m :| v in s.up && m in s.up[v] && Answers(m, id, a) && v != w { assert m in r.up[v]; }
    if v, m :| v in r.up && m in r.up[v] && Answers(m, id, a) { assert v != w && m in s.up[v]; }
  }

  /** What is left when a worker ends is what was elsewhere. */
  lemma StopLoses(s: System, w: WorkerId, id: TaskId, a: WorkerId)
    ensures Untraced(Do(s, Stop(w)), id, a) <==> Loses(s, Stop(w), id, a)
  {
    hide Trace, SpotsOnlyAt;
    StopTraces(s.cluster, s.gone, w, id, Some(a));
    SameReturning(s, Do(s, Stop(w)), id, a);
    hide Returning;
  }

  lemma StopTraces(c: Cluster, gone: set<WorkerId>, w: WorkerId, id: TaskId, a: Option<WorkerId>)
    ensures Trace(c, gone + {w}, id, a) <==> !SpotsOnlyAt(c, gone, w, id, a)
  {
    hide Trace, IsSpot, SpotAt;
    SpotsAreTraces(c, gone + {w}, id, a);
    forall p ensures IsSpot(c, gone + {w}, p, id, a) <==> IsSpot(c, gone, p, id, a) && SpotAt(c, p) != Some(w) {
      SpotElsewhere(c, gone, w, p, id, a);
    }
  }

  lemma SpotElsewhere(c: Cluster, gone: set<WorkerId>, w: WorkerId, p: Spot, id: TaskId, a: Option<WorkerId>)
    ensures IsSpot(c, gone + {w}, p, id, a) <==> IsSpot(c, gone, p, id, a) && SpotAt(c, p) != Some(w)
  {
    hide Alive;
  }

  lemma AssignTraced(s: System, now: real, id: TaskId, a: WorkerId)
    requires !Untraced(s, id, a)
    ensures !Untraced(Assign(s, now), id, a)
  {
    hide Trace, MS.NextAssignment;
    var got := MS.NextAssignment(s.master, now).1;
    var r := Assign(s, now);
    if got.Some? && r.down != s.down {
      var o := Order(MS.NextAssignment(s.master, now).0.tasks[got.value.id], got.value.priority, s.serial);
      AppendKeeps(s.down, got.value.worker, o);
    }
  }

  lemma ReadTraced(s: System, w: WorkerId, id: TaskId, a: WorkerId)
    requires SystemInv(s) && AssignedTo(ReadReport(s, w).master, id, a) && !Untraced(s, id, a)
    ensures !Untraced(ReadReport(s, w), id, a)
  {
    hide MS.Inv, ClusterInv, Conserved, Wired, AllTraceable, Trace, MR.Step;
    var r := ReadReport(s, w);
    if w in s.up && |s.up[w]| > 0 && Returning(s, id, a) {
      var msg := s.up[w][0];
      StepHeld(s.master, MasterEvent(w, msg), id, a);
      HeldAccepts(s.master, id, a);
      assert !Answers(msg, id, a);
      assert s.up[w] == [msg] + r.up[w];
      var v, m :| v in s.up && m in s.up[v] && Answers(m, id, a);
      assert m in r.up[v];
    }
  }

  lemma StatusTraced(s: System, w: WorkerId, size: nat, id: TaskId, a: WorkerId)
    requires !Untraced(s, id, a)
    ensures !Untraced(SendStatus(s, w, size), id, a)
  {
    hide Trace;
    var r := SendStatus(s, w, size);
    if w in s.up && w in s.cluster.nodes {
      AppendKeeps(s.up, w, StatusMsg(size, s.cluster.nodes[w].q.capacity));
      if Returning(s, id, a) { MoreUp(s, r, id, a); }
    }
  }

  /** A report takes a copy away and puts its result on the way. */
  lemma ReportTraced(s: System, w: WorkerId, good: bool, id: TaskId, a: WorkerId)
    requires ClusterInv(s.cluster) && !Untraced(s, id, a)
    ensures !Untraced(SendResult(s, w, good), id, a)
  {
    hide ClusterInv, Trace, After, Returning;
    var r := SendResult(s, w, good);
    assert r.down == s.down;
    if Returning(s, id, a) { ResultReturning(s, w, good, id, a); }
    if Traced(s, id, a) { ReportedTrace(s, w, good, id, a); }
  }

  lemma ReportedTrace(s: System, w: WorkerId, good: bool, id: TaskId, a: WorkerId)
    requires ClusterInv(s.cluster) && Traced(s, id, a)
    ensures Traced(SendResult(s, w, good), id, a) || Returning(SendResult(s, w, good), id, a)
  {
    hide ClusterInv, After, HasFirm, Local;
    var c := s.cluster;
    var d := After(c, MReport(w));
    AfterNodes(c, MReport(w));
    if rid :| OnItsWay(c, s.gone, rid, id, Some(a)) {
      BatchStays(c, s.gone, MReport(w), rid, id, Some(a));
    } else {
      var v :| v in c.nodes && v !in s.gone && Keeps(c.nodes[v], id, Some(a));
      if v == w {
        ReportFirm(c.nodes[w], c.nodes[w].phase.Confirming?, id, Some(a));
        ReportLocal(c, MReport(w), w);
        if Reports(c, MReport(w), id, Some(a)) { ReportReturns(s, w, good, id, a); }
      }
    }
  }

  lemma ReportReturns(s: System, w: WorkerId, good: bool, id: TaskId, a: WorkerId)
    requires Reports(s.cluster, MReport(w), id, Some(a))
    ensures w in s.up ==> Returning(SendResult(s, w, good), id, a)
    ensures w !in s.up ==> SendResult(s, w, good) == s
  {
    hide After;
    if w in s.up {
      var t := s.cluster.nodes[w].working.value;
      var msg := ResultMsg(t.id, AssigneeOf(t, w), if good then Good else Bad);
      AppendKeeps(s.up, w, msg);
      assert Answers(msg, id, a) && msg in SendResult(s, w, good).up[w];
    }
  }

  lemma InternalLoses(s: System, move: Move, id: TaskId, a: WorkerId)
    requires ClusterInv(s.cluster) && !Untraced(s, id, a) && AssignedTo(s.master, id, a)
    ensures Forgotten(Do(s, Internal(move)), id, a) <==> Loses(s, Internal(move), id, a)
  {
    hide ClusterInv, Trace, After, OnlySpot, Vanishes, AssignedTo;
    if !move.MAdmit? && !move.MReport? && Runs(s.cluster, s.gone, move) {
      if Traced(s, id, a) { TraceVanishes(s.cluster, s.gone, move, id, Some(a)); }
      else { NoSpot(s.cluster, s.gone, id, Some(a)); }
    }
  }

  lemma NoSpot(c: Cluster, gone: set<WorkerId>, id: TaskId, a: Option<WorkerId>)
    requires !Trace(c, gone, id, a)
    ensures forall p :: !OnlySpot(c, gone, p, id, a)
  {
    SpotsAreTraces(c, gone, id, a);
  }

  lemma OrderLoses(s: System, w: WorkerId, now: real, id: TaskId, a: WorkerId)
    requires SystemInv(s) && AssignedTo(s.master, id, a) && !Untraced(s, id, a) && w !in s.gone
    ensures Forgotten(Do(s, WorkerReads(w, now)), id, a) <==> Loses(s, WorkerReads(w, now), id, a)
  {
    hide MS.Inv, ClusterInv, Conserved, AllTraceable, Trace, Returning, After, TryEnqueue, AssignedTo;
    hide InOrder, AllOfSize;
    var r := ReadOrder(s, w, now);
    if w in s.down && w in s.up && w in s.cluster.nodes && |s.down[w]| > 0 {
      var o := s.down[w][0];
      assert s.down[w] == [o] + r.down[w];
      assert w != a ==> !Carries(o, id, a);
      if ReadVerdict(s, w, now) == Duplicate {
        DuplicateKeeps(s, w, now, id, a);
      } else {
        OrderReturningOrTraced(s, w, now, id, a);
      }
    }
  }

  lemma DuplicateKeeps(s: System, w: WorkerId, now: real, id: TaskId, a: WorkerId)
    requires w in s.down && w in s.up && w in s.cluster.nodes && |s.down[w]| > 0 && ReadVerdict(s, w, now) == Duplicate
    ensures var r := ReadOrder(s, w, now);
            && r.cluster == s.cluster && r.up == s.up && r.master == s.master
            && (Returning(r, id, a) <==> Returning(s, id, a))
  {
    assert s.cluster.nodes[w := s.cluster.nodes[w]] == s.cluster.nodes;
  }

  /** A TASK that is not refused leaves a copy or a failure behind, and takes nothing away. */
  lemma OrderReturningOrTraced(s: System, w: WorkerId, now: real, id: TaskId, a: WorkerId)
    requires SystemInv(s) && !Untraced(s, id, a) && w !in s.gone
    requires w in s.down && w in s.up && w in s.cluster.nodes && |s.down[w]| > 0 && ReadVerdict(s, w, now) != Duplicate
    ensures !Untraced(ReadOrder(s, w, now), id, a)
  {
    hide MS.Inv, ClusterInv, Conserved, AllTraceable, Trace, Returning, After, TryEnqueue, Witness;
    var r := ReadOrder(s, w, now);
    var o := s.down[w][0];
    assert o in s.down[w] && s.down[w] == [o] + r.down[w];
    if Returning(s, id, a) { OrderReturning(s, w, now, id, a); }
    if Traced(s, id, a) { AdmitKeepsTrace(s, w, now, id, a); }
    if Carries(o, id, a) {
      if ReadVerdict(s, w, now) == Admitted { AdmittedTraced(s, w, now, id); }
      else { OverflowReturns(s, w, now, id); }
    }
  }

  lemma AdmittedTraced(s: System, w: WorkerId, now: real, id: TaskId)
    requires ClusterInv(s.cluster) && w !in s.gone
    requires w in s.down && w in s.up && w in s.cluster.nodes && |s.down[w]| > 0 && Carries(s.down[w][0], id, w)
    requires ReadVerdict(s, w, now) == Admitted
    ensures Traced(ReadOrder(s, w, now), id, w)
  {
    hide ClusterInv, Trace, After, TryEnqueue, Witness;
    var o := s.down[w][0];
    var t := o.task.(enqueuedAt := now);
    AfterInv(s.cluster, MAdmit(w, t, o.priority));
    AdmittedWitness(s.cluster, s.gone, w, t, o.priority, Some(w));
    FirmIsTrace(After(s.cluster, MAdmit(w, t, o.priority)), s.gone, id, Some(w));
  }

  lemma AdmitKeepsTrace(s: System, w: WorkerId, now: real, id: TaskId, a: WorkerId)
    requires ClusterInv(s.cluster) && Traced(s, id, a)
    requires w in s.down && w in s.up && w in s.cluster.nodes && |s.down[w]| > 0
    ensures Traced(ReadOrder(s, w, now), id, a)
  {
    hide ClusterInv, Trace, After, TryEnqueue, IsSpot;
    var mv := MAdmit(w, s.down[w][0].task.(enqueuedAt := now), s.down[w][0].priority);
    SpotsAreTraces(s.cluster, s.gone, id, Some(a));
    var p :| IsSpot(s.cluster, s.gone, p, id, Some(a));
    SpotStays(s.cluster, s.gone, mv, p, id, Some(a));
  }

  // ---- along a run ------------------------------------------------------------------------------

  /** Has a step of the run lost the task, with the assignment unbroken since? */
  ghost function LostAfter(s: System, acts: seq<Action>, id: TaskId, a: WorkerId, lost: bool): bool
    decreases |acts|
  {
    if |acts| == 0 then lost else
      var r := Do(s, acts[0]);
      LostAfter(r, acts[1..], id, a, AssignedTo(r.master, id, a) && (lost || Loses(s, acts[0], id, a)))
  }

  lemma DisconnectEnds(s: System, w: WorkerId, order: seq<TaskId>, id: TaskId)
    requires MS.Inv(s.master) && AssignedTo(s.master, id, w)
    ensures !AssignedTo(Do(s, Disconnect(w, order)).master, id, w)
  {
    hide MS.Stored, MS.Queues, MS.Tables;
    assert MS.Holds(s.master.tasks, s.master.state, s.master.workers[w], w);
  }

  lemma LostStep(s: System, act: Action, id: TaskId, a: WorkerId)
    requires SystemInv(s) && AllLabelled(s)
    ensures var r := Do(s, act);
            Forgotten(r, id, a) <==> AssignedTo(r.master, id, a) && (Forgotten(s, id, a) || Loses(s, act, id, a))
  {
    hide MS.Inv, ClusterInv, Conserved, Wired, AllTraceable, AllLabelled, Untraced, AssignedTo, Do, Loses;
    if AssignedTo(Do(s, act).master, id, a) {
      if !Forgotten(s, id, a) { LosesExactly(s, act, id, a); }
      else {
        if act.Disconnect? && act.w == a { DisconnectEnds(s, a, act.order, id); }
        ForgottenStep(s, act, id, a);
      }
    }
  }

  lemma {:induction false} LostRun(s: System, acts: seq<Action>, id: TaskId, a: WorkerId, lost: bool)
    requires SystemInv(s) && AllLabelled(s) && AllCan(s, acts) && (lost <==> Forgotten(s, id, a))
    ensures LostAfter(s, acts, id, a, lost) <==> Forgotten(Execute(s, acts), id, a)
    decreases |acts|
  {
    hide SystemInv, AllLabelled, Do, Can, Forgotten, Loses, AssignedTo;
    if |acts| == 0 {
    } else {
      var r := Do(s, acts[0]);
      DoInv(s, acts[0]);
      LabelledStays(s, acts[0]);
      LostStep(s, acts[0], id, a);
      LostRun(r, acts[1..], id, a, AssignedTo(r.master, id, a) && (lost || Loses(s, acts[0], id, a)));
    }
  }
}
