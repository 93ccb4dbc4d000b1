/** What holds of master and workers together in every run. */
module EndToEnd {
  import opened Basics
  import opened Models
  import opened QueueSpec
  import NodeSpec
  import opened ClusterSpec
  import opened ClusterLaws
  import opened ClusterCopies
  import opened ClusterRuns
  import opened ClusterWitness
  import opened ClusterTrace
  import opened SystemSpec
  import opened SystemLaws
  import opened LostTasks
  import opened Astray
  import opened LosingSteps
  import opened Recovery
  import MS = MasterSpec
  import ML = MasterLaws
  import MR = MasterRuns
  import Generation
  import MasterCompletion
  import MasterScheduler

  /** A prepared master and registered workers, before anything was sent. */
  ghost function Launched(ts: seq<Task>, workerIds: set<WorkerId>): System {
    System(MasterCompletion.Launch(ts, workerIds),
           Cluster(map w | w in workerIds :: NodeSpec.Fresh(QUEUE_CAPACITY), map[], multiset{}, multiset{}, {}, {}),
           map w | w in workerIds :: [], map w | w in workerIds :: [], {}, 0, map[], {})
  }

  /** Every draw of tasks and every set of workers is a start of the runs below. */
  lemma LaunchBegins(ts: seq<Task>, workerIds: set<WorkerId>)
    requires Generation.Generated(ts)
    ensures Begin(Launched(ts, workerIds))
  {
    hide MS.Initial, Generation.Generated;
    MasterScheduler.PreparedInitial(ts, Launched(ts, workerIds).master.workers);
  }

  lemma BeginInv(s: System)
    requires Begin(s)
    ensures SystemInv(s)
  {
    hide MS.Inv, ClusterInv, Conserved, Quiet, MS.Tables;
    ML.InitialInv(s.master);
    QuietInv(s.cluster);
  }

  lemma BeginLabelled(s: System)
    requires Begin(s)
    ensures AllLabelled(s)
  {
    hide MS.Initial;
  }

  lemma BeginExact(s: System)
    requires Begin(s)
    ensures Exact(s, {})
  {
    hide Quiet;
  }

  /**
   * In every run, with any loss in the P2P network and any workers ending, a task the master holds as assigned to
   * `a` has its TASK on the way to `a`, or a firm copy labelled `a` at a worker that runs, or a result labelled `a`
   * on the way back, exactly if it did not go astray and was not regained since. It goes astray when `a` refuses its
   * TASK as a duplicate, when a worker ends, when the master stops reading a connection, or when it is assigned to a
   * worker that has ended, each time with nothing of this kind left. As long as all workers run, a task that is
   * nowhere was refused since its assignment.
   */
  lemma NoTaskForgotten(s: System, acts: seq<Action>, id: TaskId, a: WorkerId)
    requires Begin(s) && AllCan(s, acts)
    ensures var r := Execute(s, acts);
            AssignedTo(r.master, id, a) ==>
              && (Somewhere(r, id, a) <==> id !in AstrayAfter(s, acts, {}))
              && (Somewhere(r, id, a) || Refused(r, id) || r.gone != {})
  {
    hide MS.Inv, ClusterInv, Conserved, Wired, Somewhere, Refused, AssignedTo, Execute, AstrayAfter, Begin, AllLabelled;
    BeginInv(s);
    BeginLabelled(s);
    BeginExact(s);
    ExecuteInv(s, acts);
    ExactRun(s, acts, {});
    assert Exact(Execute(s, acts), AstrayAfter(s, acts, {}));
    var r := Execute(s, acts);
    if AssignedTo(r.master, id, a) { assert Traceable(r, id, a); }
  }

  /**
   * After every run, a task stays assigned to `a` whatever happens next, short of a disconnect of `a`, exactly if
   * some step of the run lost it and the assignment was not broken since.
   */
  lemma LostExactly(s: System, acts: seq<Action>, id: TaskId, a: WorkerId)
    requires Begin(s) && AllCan(s, acts)
    ensures Stuck(Execute(s, acts), id, a) <==> LostAfter(s, acts, id, a, false)
  {
    hide SystemInv, AllLabelled, Execute, LostAfter, Quiet, Stuck;
    BeginInv(s);
    BeginLabelled(s);
    assert !AssignedTo(s.master, id, a);
    LostRun(s, acts, id, a, false);
    LabelledRun(s, acts);
    StuckExactly(Execute(s, acts), id, a);
  }

  /** In every run the store is exactly the generated values of the done tasks, and no copy is lost or made up. */
  lemma StoreAndCopies(s: System, acts: seq<Action>)
    requires Begin(s) && AllCan(s, acts)
    ensures var r := Execute(s, acts);
            && MS.Inv(r.master)
            && (forall k, v :: k in r.master.store && r.master.store[k] == v <==>
                  MS.IsStored(r.master.tasks, r.master.state, k, v))
            && (forall id :: |Holders(r.cluster, id)| + r.cluster.reported[id] ==
                  r.cluster.admitted[id] + |Doubled(r.cluster, id)|)
  {
    BeginInv(s);
    ExecuteInv(s, acts);
    hide ClusterInv, Wired, AllTraceable, Execute, Holders, Doubled, MS.Owned, MS.Queues, MS.Tables;
    StoredBothWays(Execute(s, acts).master);
  }

  lemma StoredBothWays(m: MS.Master)
    requires MS.Stored(m.tasks, m.state, m.store)
    ensures forall k, v :: k in m.store && m.store[k] == v <==> MS.IsStored(m.tasks, m.state, k, v)
  {
  }
}
