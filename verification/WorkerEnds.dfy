/**
 * What the end of a worker frees. The master requeues what is assigned to the worker itself; but a task assigned to
 * another worker, whose copy had come here by a transfer, stays assigned there, and is held for good exactly if
 * everything that was left of it was here.
 */
module WorkerEnds {
  import opened Basics
  import opened Models
  import opened QueueSpec
  import NodeSpec
  import opened ClusterSpec
  import opened ClusterCopies
  import opened ClusterWitness
  import opened ClusterTrace
  import opened Spots
  import opened SystemSpec
  import opened SystemLaws
  import opened LostTasks
  import opened LosingSteps
  import opened Recovery
  import opened EndToEnd
  import opened Forgetting
  import opened LateAnswer
  import MS = MasterSpec
  import MR = MasterRuns

  /** The worker ends, the master disconnects it and reads no more of what it had sent. */
  function Ending(w: WorkerId, order: seq<TaskId>): seq<Action> {
    [Stop(w), Disconnect(w, order), Hangup(w)]
  }

  /** No TASK is on its way, and every copy, batch and result of the assignment is with this worker. */
  ghost predicate OnlyWith(s: System, w: WorkerId, id: TaskId, a: WorkerId) {
    && !Ordered(s, id, a) && SpotsOnlyAt(s.cluster, s.gone, w, id, Some(a))
    && ReturningOnlyFrom(s, w, id, a)
  }

  lemma EndingSteps(s: System, w: WorkerId, order: seq<TaskId>)
    requires AllCan(s, Ending(w, order))
    ensures var s1 := Do(s, Stop(w));
            var s2 := Do(s1, Disconnect(w, order));
            && Can(s1, Disconnect(w, order)) && Can(s2, Hangup(w))
            && Execute(s, Ending(w, order)) == Do(s2, Hangup(w))
  {
    hide Do, Can;
    var acts := Ending(w, order);
    var s1 := Do(s, Stop(w));
    var s2 := Do(s1, Disconnect(w, order));
    assert acts[0] == Stop(w) && acts[1..] == [Disconnect(w, order), Hangup(w)];
    assert acts[1..][1..] == [Hangup(w)] && [Hangup(w)][1..] == [];
    assert AllCan(s1, acts[1..]) && AllCan(s2, acts[1..][1..]);
    assert Execute(s, acts) == Execute(s1, acts[1..]) == Execute(s2, acts[1..][1..]);
  }

  /** What is left after the end is what was with other workers. */
  lemma LeftAfterEnding(s: System, w: WorkerId, order: seq<TaskId>, id: TaskId, a: WorkerId)
    requires a != w
    ensures Untraced(Do(Do(Do(s, Stop(w)), Disconnect(w, order)), Hangup(w)), id, a) <==> OnlyWith(s, w, id, a)
  {
    hide Trace, SpotsOnlyAt, ReturningOnlyFrom, MR.Step, Returning;
    StopTraces(s.cluster, s.gone, w, id, Some(a));
    var s2 := Do(Do(s, Stop(w)), Disconnect(w, order));
    HangupReturning(s2, w, id, a);
    SameResults(s, s2, w, id, a);
  }

  lemma SameResults(s: System, r: System, w: WorkerId, id: TaskId, a: WorkerId)
    requires r.up == s.up
    ensures ReturningOnlyFrom(r, w, id, a) <==> ReturningOnlyFrom(s, w, id, a)
  {
  }

  /**
   * What a worker's end frees: the tasks assigned to it, which are queued for a retry; and no others. A task assigned
   * to another worker is held for good exactly if everything that was left of it was with the worker that ended.
   */
  lemma EndingExactly(s: System, w: WorkerId, order: seq<TaskId>, id: TaskId, a: WorkerId)
    requires SystemInv(s) && AllLabelled(s) && AssignedTo(s.master, id, a) && AllCan(s, Ending(w, order))
    ensures var r := Execute(s, Ending(w, order));
            if a == w then !AssignedTo(r.master, id, a) && id in r.master.retry
            else AssignedTo(r.master, id, a) && (Stuck(r, id, a) <==> OnlyWith(s, w, id, a))
  {
    hide SystemInv, AllLabelled, AllCan, Execute, OnlyWith, Stuck, Untraced, Do, Can;
    EndingSteps(s, w, order);
    var s1 := Do(s, Stop(w));
    EndingMaster(s, w, order, id, a);
    if a != w {
      LabelledRun(s, Ending(w, order));
      LeftAfterEnding(s, w, order, id, a);
      StuckExactly(Execute(s, Ending(w, order)), id, a);
    }
  }

  lemma EndingMaster(s: System, w: WorkerId, order: seq<TaskId>, id: TaskId, a: WorkerId)
    requires SystemInv(s) && AssignedTo(s.master, id, a) && Can(Do(s, Stop(w)), Disconnect(w, order))
    ensures var r := Do(Do(Do(s, Stop(w)), Disconnect(w, order)), Hangup(w)).master;
            if a == w then !AssignedTo(r, id, a) && id in r.retry else AssignedTo(r, id, a)
  {
    hide ClusterInv, Conserved, Wired, AllTraceable, MS.Inv, MR.Step;
    var r := Do(Do(Do(s, Stop(w)), Disconnect(w, order)), Hangup(w)).master;
    assert r == MR.Step(s.master, MR.Lost(w, order));
    if a == w { RequeuedAt(s.master, w, order, id); } else { AssignmentStays(s.master, MR.Lost(w, order), id, a); }
  }

  /** The master requeues what the worker held. */
  lemma RequeuedAt(m: MS.Master, w: WorkerId, order: seq<TaskId>, id: TaskId)
    requires MS.Inv(m) && AssignedTo(m, id, w) && MR.Possible(m, MR.Lost(w, order))
    ensures var r := MR.Step(m, MR.Lost(w, order)); !AssignedTo(r, id, w) && id in r.retry
  {
    hide MS.Stored, MS.Queues, MS.Tables;
    assert MS.Holds(m.tasks, m.state, m.workers[w], w);
  }

  // ---- a run that loses a task so ----------------------------------------------------------------

  function EndingRun(a: WorkerId, b: WorkerId, now: real): seq<Action> {
    Handover(a, b, now) + Answer(a) + Ending(b, [])
  }

  /** With the answer read, everything that is left of the task is at `b`. */
  lemma AllAtReceiver(s: System, r: System, id: TaskId, a: WorkerId, b: WorkerId, t: Task, now: real)
    requires a != b && HandedTo(s, id, a, b, t, now)
    requires a in r.cluster.nodes && NodeIs(s, r, a, r.cluster.nodes[a]) && r.cluster.net == s.cluster.net
    requires Alive(r.cluster.nodes[a]) == {}
    ensures OnlyWith(r, b, id, a)
  {
    hide Offering, HoldsOnly, Labelled, Alive;
    forall p | IsSpot(r.cluster, r.gone, p, id, Some(a)) ensures SpotAt(r.cluster, p) == Some(b) {
      match p
      case Copy(w, x) => assert w in {a, b};
      case Batch(rid) => assert false;
    }
  }

  lemma CanEndIdle(s: System, w: WorkerId)
    requires w in s.master.workers && s.master.workers[w].held == {}
    ensures AllCan(s, Ending(w, []))
  {
    hide MS.Requeue, MS.MarkRetry;
    var acts := Ending(w, []);
    var s1 := Do(s, Stop(w));
    var s2 := Do(s1, Disconnect(w, []));
    assert acts[0] == Stop(w) && acts[1..] == [Disconnect(w, []), Hangup(w)];
    assert acts[1..][1..] == [Hangup(w)] && [Hangup(w)][1..] == [];
    assert Elems<TaskId>([]) == {};
    assert MR.Possible(s1.master, MR.Lost(w, []));
    assert w in s2.gone && !s2.master.workers[w].connected;
    assert AllCan(s2, [Hangup(w)]);
  }

  /**
   * One task, two workers, ten ordinary steps, nothing lost in the network: `a` hands the task over, reads the
   * answer, and the receiver ends. The task was never refused, and is held for good by `a`, which runs.
   */
  lemma EndingHoldsTask(s: System, id: TaskId, a: WorkerId, b: WorkerId, now: real)
    requires Begin(s) && a != b && s.master.tasks.Keys == {id} && s.master.workers.Keys == {a, b} && LexLe(a, b)
    ensures AllCan(s, EndingRun(a, b, now))
    ensures var r := Execute(s, EndingRun(a, b, now)); Stuck(r, id, a) && r.refused == {} && a !in r.gone
  {
    hide Do, Execute, AllCan, Begin, SystemInv, AllLabelled, HandedTo, OnlyWith, Stuck, AssignedTo, Handover, Answer;
    hide Ending, Offering;
    var t := HandsOver(s, id, a, b, now);
    var r1 := Execute(s, Handover(a, b, now));
    HandedAnswers(r1, id, a, b, t, now);
    ExecuteConcat(s, Handover(a, b, now), Answer(a));
    var r2 := Execute(r1, Answer(a));
    AllAtReceiver(r1, r2, id, a, b, t, now);
    CanEndIdle(r2, b);
    ExecuteConcat(s, Handover(a, b, now) + Answer(a), Ending(b, []));
    BeginInv(s);
    BeginLabelled(s);
    LabelledRun(s, Handover(a, b, now) + Answer(a));
    EndingExactly(r2, b, [], id, a);
    EndingRecord(r2, b);
  }

  lemma HandedAnswers(s: System, id: TaskId, a: WorkerId, b: WorkerId, t: Task, now: real)
    requires a != b && HandedTo(s, id, a, b, t, now)
    ensures AllCan(s, Answer(a)) && s.gone == {}
    ensures var r := Execute(s, Answer(a));
            && r.cluster.net == s.cluster.net && a in r.cluster.nodes && NodeIs(s, r, a, r.cluster.nodes[a])
            && Alive(r.cluster.nodes[a]) == {}
  {
    hide Offering, HoldsOnly;
    AnswerArrives(s, id, a, b, t);
  }

  lemma EndingRecord(s: System, w: WorkerId)
    requires AllCan(s, Ending(w, []))
    ensures var r := Execute(s, Ending(w, [])); r.refused == s.refused && r.gone == s.gone + {w}
  {
    hide MR.Step, Can;
    EndingSteps(s, w, []);
  }
}
