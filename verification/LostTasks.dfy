/** When a task is lost for good: nothing is left that could make the master end its assignment. */
module LostTasks {
  import opened Basics
  import opened Models
  import opened QueueSpec
  import NodeSpec
  import opened ClusterSpec
  import opened ClusterLaws
  import opened ClusterCopies
  import opened ClusterRuns
  import opened ClusterWitness
  import opened ClusterTrace
  import opened SystemSpec
  import opened SystemLaws
  import MS = MasterSpec
  import ML = MasterLaws
  import MR = MasterRuns

  /** A TASK for this assignment, current or not, is on its way to `a`, which runs. */
  ghost predicate Ordered(s: System, id: TaskId, a: WorkerId) {
    a in s.down && a !in s.gone && exists o :: o in s.down[a] && Carries(o, id, a)
  }

  ghost predicate Traced(s: System, id: TaskId, a: WorkerId) {
    Trace(s.cluster, s.gone, id, Some(a))
  }

  /** Nothing anywhere could still make the master end the assignment. */
  ghost predicate Untraced(s: System, id: TaskId, a: WorkerId) {
    !Ordered(s, id, a) && !Traced(s, id, a) && !Returning(s, id, a)
  }

  ghost predicate Forgotten(s: System, id: TaskId, a: WorkerId) {
    AssignedTo(s.master, id, a) && Untraced(s, id, a)
  }

  /** Every copy carries the assignment it came with. */
  ghost predicate AllLabelled(s: System) {
    forall id :: !Trace(s.cluster, s.gone, id, None)
  }

  /** Only a refused duplicate, or the end of a worker, can leave a task forgotten. */
  lemma ForgottenWasRefused(s: System, id: TaskId, a: WorkerId)
    requires SystemInv(s) && Forgotten(s, id, a)
    ensures Refused(s, id) || s.gone != {}
  {
    hide MS.Inv, ClusterInv, Conserved, Wired, Trace, Witness;
    assert Traceable(s, id, a);
    if Firm(s, id, a) { FirmIsTrace(s.cluster, s.gone, id, Some(a)); }
  }

  // ---- a forgotten task stays forgotten ----------------------------------------------------------

  /** An action starts a trace only by delivering a TASK that carries it. */
  lemma TraceStays(s: System, act: Action, id: TaskId, a: Option<WorkerId>)
    requires ClusterInv(s.cluster) && !Trace(s.cluster, s.gone, id, a)
    requires act.WorkerReads? && act.w !in s.gone && act.w in s.down && |s.down[act.w]| > 0 ==>
               !Labelled(s.down[act.w][0].task, id, a)
    ensures !Trace(Do(s, act).cluster, Do(s, act).gone, id, a)
  {
    hide Trace, After, Do, LinksOk, AnswersOk, RequestsOk, FatesOk, HistoryOk, NodesOk;
    ClusterStep(s, act);
    GoneGrows(s, act);
    var r := Do(s, act);
    if Trace(r.cluster, r.gone, id, a) {
      StillRunning(r.cluster, s.gone, r.gone, id, a);
      if r.cluster != s.cluster { TraceFrom(s.cluster, s.gone, MoveOf(s, act), id, a); }
    }
  }

  lemma LabelledStays(s: System, act: Action)
    requires SystemInv(s) && AllLabelled(s)
    ensures AllLabelled(Do(s, act))
  {
    hide MS.Inv, ClusterInv, Conserved, AllTraceable, Trace, Do;
    forall id ensures !Trace(Do(s, act).cluster, Do(s, act).gone, id, None) {
      if act.WorkerReads? && act.w in s.down && |s.down[act.w]| > 0 { assert s.down[act.w][0] in s.down[act.w]; }
      TraceStays(s, act, id, None);
    }
  }

  lemma {:induction false} LabelledRun(s: System, acts: seq<Action>)
    requires SystemInv(s) && AllLabelled(s) && AllCan(s, acts)
    ensures SystemInv(Execute(s, acts)) && AllLabelled(Execute(s, acts))
    decreases |acts|
  {
    hide SystemInv, AllLabelled, Do, Can;
    if |acts| == 0 {
    } else {
      DoInv(s, acts[0]);
      LabelledStays(s, acts[0]);
      LabelledRun(Do(s, acts[0]), acts[1..]);
    }
  }

  lemma OrderedStays(s: System, act: Action, id: TaskId, a: WorkerId)
    requires SystemInv(s) && AssignedTo(s.master, id, a) && !Ordered(s, id, a)
    ensures !Ordered(Do(s, act), id, a)
  {
    hide MR.Step, After, TryEnqueue, ClusterInv, Conserved, AllTraceable, MS.NextAssignment, MS.Inv, Wired;
    if act.Distribute? { NotOrderedAgain(s, act.now, id, a); }
    else if act.WorkerReads? {
      hide AssignedTo;
      if act.w in s.down && |s.down[act.w]| > 0 { assert forall o :: o in s.down[act.w][1..] ==> o in s.down[act.w]; }
    } else { SameOrders(s, act); hide Do; }
  }

  lemma NotOrderedAgain(s: System, now: real, id: TaskId, a: WorkerId)
    requires MS.Inv(s.master) && AssignedTo(s.master, id, a) && !Ordered(s, id, a)
    ensures !Ordered(Assign(s, now), id, a)
  {
    hide MS.NextAssignment, MS.Inv, AssignedTo;
    NotReassigned(s.master, now, id, a);
    IssuedRecord(s.master, now);
  }

  lemma IssuedRecord(m: MS.Master, now: real)
    requires MS.Inv(m)
    ensures var r := MS.NextAssignment(m, now).0;
            var got := MS.NextAssignment(m, now).1;
            got.Some? ==> got.value.id in r.tasks && r.tasks[got.value.id].id == got.value.id
  {
  }

  /** The distributor does not touch a task that is out. */
  lemma NotReassigned(m: MS.Master, now: real, id: TaskId, a: WorkerId)
    requires MS.Inv(m) && AssignedTo(m, id, a)
    ensures var r := MS.NextAssignment(m, now).0;
            var got := MS.NextAssignment(m, now).1;
            AssignedTo(r, id, a) && (got.Some? ==> got.value.id != id)
  {
    ML.NextLaw(m, now);
    HeldAccepts(m, id, a);
    hide MS.NextAssignment, MS.IsBest, MS.Inv;
  }

  lemma AssignmentStays(m: MS.Master, e: MR.Event, id: TaskId, a: WorkerId)
    requires MS.Inv(m) && AssignedTo(m, id, a) && !e.Distribute?
    requires e.Success? || e.Failure? ==> e.id != id || e.assignee != a
    requires e.Lost? ==> e.worker != a
    ensures AssignedTo(MR.Step(m, e), id, a)
  {
    hide MS.Stored, MS.Queues, MS.Tables, MS.Requeue, MS.MarkRetry;
  }

  lemma HeldStays(s: System, act: Action, id: TaskId, a: WorkerId)
    requires SystemInv(s) && Forgotten(s, id, a) && !(act.Disconnect? && act.w == a)
    ensures AssignedTo(Do(s, act).master, id, a)
  {
    hide MR.Step, ClusterInv, Conserved, Wired, AllTraceable, MS.Inv, After, TryEnqueue, Trace, Ordered, AssignedTo;
    if act.Distribute? { NotReassigned(s.master, act.now, id, a); hide MS.NextAssignment; }
    else if act.Disconnect? { AssignmentStays(s.master, MR.Lost(act.w, act.order), id, a); }
    else if act.MasterReads? && act.w in s.up && |s.up[act.w]| > 0 {
      var msg := s.up[act.w][0];
      assert msg in s.up[act.w] && !Answers(msg, id, a);
      AssignmentStays(s.master, MasterEvent(act.w, s.up[act.w][0]), id, a);
    }
  }

  /** What a worker sends back is about a copy it has, or about a TASK it was sent. */
  lemma ReturningStays(s: System, act: Action, id: TaskId, a: WorkerId)
    requires SystemInv(s) && AllLabelled(s) && Untraced(s, id, a)
    ensures !Returning(Do(s, act), id, a)
  {
    hide MR.Step, ClusterInv, Conserved, AllTraceable, MS.Inv, Trace, AllLabelled, Ordered;
    if act.WorkerReports? { if act.w !in s.gone { ResultIsTraced(s, act.w, act.good, id, a); } }
    else if act.WorkerReads? { if act.w !in s.gone { OverflowIsTraced(s, act.w, act.now, id, a); } }
    else { hide MS.NextAssignment, After; QuietUp(s, act, id, a); }
  }

  lemma QuietUp(s: System, act: Action, id: TaskId, a: WorkerId)
    requires !Returning(s, id, a) && !act.WorkerReports? && !act.WorkerReads?
    ensures !Returning(Do(s, act), id, a)
  {
  }

  lemma ResultIsTraced(s: System, w: WorkerId, good: bool, id: TaskId, a: WorkerId)
    requires AllLabelled(s) && Untraced(s, id, a) && w !in s.gone
    ensures !Returning(SendResult(s, w, good), id, a)
  {
    hide After, Trace, Ordered;
    if w in s.cluster.nodes && s.cluster.nodes[w].working.Some? && !s.cluster.nodes[w].reported {
      var t := s.cluster.nodes[w].working.value;
      assert Reports(s.cluster, MReport(w), t.id, t.assignment);
      ReportsTrace(s.cluster, s.gone, MReport(w), t.id, t.assignment);
      assert t.assignment.Some?;
    }
  }

  lemma OverflowIsTraced(s: System, w: WorkerId, now: real, id: TaskId, a: WorkerId)
    requires Wired(s) && Untraced(s, id, a) && w !in s.gone
    ensures !Returning(ReadOrder(s, w, now), id, a)
  {
    hide After, Trace, TryEnqueue;
    if w in s.down && |s.down[w]| > 0 {
      var o := s.down[w][0];
      assert o in s.down[w] && o.task.assignment == Some(w);
      assert o.task.id == id && w == a ==> Carries(o, id, a);
    }
  }

  lemma ForgottenStep(s: System, act: Action, id: TaskId, a: WorkerId)
    requires SystemInv(s) && AllLabelled(s) && Forgotten(s, id, a) && !(act.Disconnect? && act.w == a)
    ensures Forgotten(Do(s, act), id, a)
  {
    hide MS.Inv, ClusterInv, Conserved, AllTraceable, Trace, Do, Returning, AssignedTo, AllLabelled;
    HeldStays(s, act, id, a);
    OrderedStays(s, act, id, a);
    ReturningStays(s, act, id, a);
    if act.WorkerReads? && act.w in s.down && |s.down[act.w]| > 0 {
      assert s.down[act.w][0] in s.down[act.w];
      assert Labelled(s.down[act.w][0].task, id, Some(a)) ==> act.w == a && Carries(s.down[act.w][0], id, a);
    }
    TraceStays(s, act, id, Some(a));
  }

  /** A forgotten task is never completed nor reassigned, in any continuation that does not disconnect its worker. */
  lemma {:induction false} ForgottenForever(s: System, acts: seq<Action>, id: TaskId, a: WorkerId)
    requires SystemInv(s) && AllLabelled(s) && Forgotten(s, id, a) && AllCan(s, acts)
    requires forall act <- acts :: !(act.Disconnect? && act.w == a)
    ensures var r := Execute(s, acts).master;
            AssignedTo(r, id, a) && id in r.state && r.state[id] == MS.Assigned
    decreases |acts|
  {
    hide SystemInv, AllLabelled, Forgotten, Do, Can;
    if |acts| == 0 {
      HeldByMaster(s, id, a);
    } else {
      assert acts[0] in acts;
      DoInv(s, acts[0]);
      LabelledStays(s, acts[0]);
      ForgottenStep(s, acts[0], id, a);
      assert forall act <- acts[1..] :: act in acts;
      ForgottenForever(Do(s, acts[0]), acts[1..], id, a);
    }
  }

  lemma HeldByMaster(s: System, id: TaskId, a: WorkerId)
    requires SystemInv(s) && Forgotten(s, id, a)
    ensures AssignedTo(s.master, id, a) && id in s.master.state && s.master.state[id] == MS.Assigned
  {
    hide MS.Inv, ClusterInv, Conserved, AllTraceable, Trace, Wired;
    HeldAccepts(s.master, id, a);
  }
}
