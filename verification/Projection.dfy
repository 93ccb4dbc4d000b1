/**
 * A run of the whole system is a run of the master and a run of the P2P layer, so both layers' theorems apply to
 * it.
 */
module Projection {
  import opened Basics
  import opened Models
  import opened QueueSpec
  import opened ClusterSpec
  import opened ClusterRuns
  import opened SystemSpec
  import opened SystemLaws
  import MS = MasterSpec
  import MR = MasterRuns

  /** What one action makes the master do. */
  function EventOf(s: System, act: Action): Option<MR.Event> {
    match act
    case Distribute(now) => Some(MR.Distribute(now))
    case MasterReads(w) => if w in s.up && |s.up[w]| > 0 then Some(MasterEvent(w, s.up[w][0])) else None
    case Disconnect(w, order) => Some(MR.Lost(w, order))
    case Hangup(_) => None
    case Stop(_) => None
    case WorkerReads(_, _) => None
    case WorkerReports(_, _) => None
    case WorkerStatus(_, _) => None
    case Internal(_) => None
  }

  ghost function EventsOf(s: System, acts: seq<Action>): seq<MR.Event>
    decreases |acts|
  {
    if |acts| == 0 then [] else
      var rest := EventsOf(Do(s, acts[0]), acts[1..]);
      if EventOf(s, acts[0]).Some? then [EventOf(s, acts[0]).value] + rest else rest
  }

  ghost function MovesOf(s: System, acts: seq<Action>): seq<Move>
    decreases |acts|
  {
    if |acts| == 0 then [] else
      var rest := MovesOf(Do(s, acts[0]), acts[1..]);
      if Do(s, acts[0]).cluster != s.cluster then [MoveOf(s, acts[0])] + rest else rest
  }

  lemma MasterStep(s: System, act: Action)
    requires Can(s, act)
    ensures var e := EventOf(s, act);
            && Do(s, act).master == (if e.Some? then MR.Step(s.master, e.value) else s.master)
            && (e.Some? ==> MR.Possible(s.master, e.value))
  {
  }

  lemma {:induction false} MasterRun(s: System, acts: seq<Action>, h: MR.History)
    requires AllCan(s, acts) && h.master == s.master
    ensures MR.AllPossible(s.master, EventsOf(s, acts))
    ensures MR.Run(h, EventsOf(s, acts)).master == Execute(s, acts).master
    decreases |acts|
  {
    hide Do, Can, EventOf, MR.Step, MR.Possible, MR.Effects, MR.Effective;
    if |acts| == 0 {
    } else {
      MasterStep(s, acts[0]);
      var e := EventOf(s, acts[0]);
      var next := Do(s, acts[0]);
      var es := EventsOf(next, acts[1..]);
      MasterRun(next, acts[1..], if e.Some? then MR.Record(h, e.value) else h);
      if e.Some? { assert ([e.value] + es)[1..] == es; }
    }
  }

  lemma {:induction false} ClusterRun(s: System, acts: seq<Action>)
    ensures RunMoves(s.cluster, MovesOf(s, acts)) == Execute(s, acts).cluster
    decreases |acts|
  {
    hide Do, MoveOf, After;
    if |acts| == 0 {
    } else {
      ClusterStep(s, acts[0]);
      var next := Do(s, acts[0]);
      var ms := MovesOf(next, acts[1..]);
      ClusterRun(next, acts[1..]);
      if next.cluster != s.cluster { assert ([MoveOf(s, acts[0])] + ms)[1..] == ms; }
    }
  }

  /**
   * In every run of the system: the master's account balances, with F accepted failures at most 2N + (N + 1)W + 2F
   * of its steps change anything, no confirmation removes a live copy, and no request is queued twice.
   */
  lemma EveryLayer(s: System, acts: seq<Action>, w: WorkerId, rid: RequestId)
    requires Begin(s) && AllCan(s, acts)
    ensures var h := MR.Run(MR.Start(s.master), EventsOf(s, acts));
            && h.master == Execute(s, acts).master && MR.Accounted(h) && MR.Balanced(h)
            && h.effective <= 2 * |s.master.tasks| + (|s.master.tasks| + 1) * |s.master.workers| + 2 * h.failures
    ensures AboutToConfirm(Execute(s, acts).cluster, w) ==> ConfirmsHarmlessly(Execute(s, acts).cluster, w)
    ensures TimesTaken(s.cluster, MovesOf(s, acts), rid) <= 1
  {
    hide MR.Run, RunMoves, EventsOf, MovesOf, Execute, AllCan;
    hide MR.Accounted, MR.Balanced, ConfirmsHarmlessly, MS.Initial, Quiet, TimesTaken;
    MasterRun(s, acts, MR.Start(s.master));
    MR.EveryRun(s.master, EventsOf(s, acts));
    ClusterRun(s, acts);
    if AboutToConfirm(Execute(s, acts).cluster, w) { ConfirmSafe(s.cluster, MovesOf(s, acts), w); }
    TakenOnce(s.cluster, MovesOf(s, acts), rid);
  }
}
