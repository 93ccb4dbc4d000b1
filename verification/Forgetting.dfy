/**
 * The exemption of the end-to-end theorem is real: a run that leaves a task assigned to a worker with no copy,
 * no message and no way to complete. A worker that has reported a failure but not yet marked its task done
 * refuses the same task as a duplicate when the master, after a failure elsewhere, assigns it there again.
 */
module Forgetting {
  import opened Basics
  import opened Models
  import opened QueueSpec
  import NodeSpec
  import opened ClusterSpec
  import opened ClusterWitness
  import opened ClusterTrace
  import opened SystemSpec
  import opened SystemLaws
  import opened LostTasks
  import opened Recovery
  import opened EndToEnd
  import MS = MasterSpec
  import ML = MasterLaws
  import MR = MasterRuns

  /** The task waits at the head of the retry queue, or of the deque, and `w` is the one to get it. */
  ghost predicate NextIs(m: MS.Master, id: TaskId, w: WorkerId) {
    && ((m.retry == [id] && m.normal == []) || (m.retry == [] && m.normal == [id]))
    && id in m.tasks && m.tasks[id].id == id && id in m.state
    && w in m.workers && MS.Choose(m.workers, m.tasks[id]) == Some(w)
  }

  /** The worker runs, and both directions of its connection are empty. */
  predicate Still(s: System, w: WorkerId) {
    w !in s.gone && w in s.down && w in s.up && w in s.cluster.nodes && s.down[w] == [] && s.up[w] == []
  }

  /** The task is processed and its result sent, but not marked done. */
  predicate Lingers(n: NodeSpec.Node, id: TaskId) {
    && n.q.normal == [] && n.q.priority == [] && id in n.q.active
    && n.working.Some? && n.reported && n.phase.Idle?
  }

  /** The records after the task is given to `w`. */
  function OneMoreHeld(workers: map<WorkerId, MS.Conn>, id: TaskId, w: WorkerId): map<WorkerId, MS.Conn>
    requires w in workers
  {
    workers[w := workers[w].(held := workers[w].held + {id}, size := workers[w].size + 1)]
  }

  lemma AssignNext(s: System, id: TaskId, w: WorkerId, now: real) returns (o: Order)
    requires NextIs(s.master, id, w) && Still(s, w)
    ensures var r := Do(s, Distribute(now));
            && r.down == s.down[w := [o]] && r.up == s.up && r.cluster == s.cluster && r.gone == s.gone
            && r.refused == s.refused && o.task.id == id && o.task.assignment == Some(w)
            && r.master.retry == [] && r.master.normal == []
            && r.master.workers == OneMoreHeld(s.master.workers, id, w)
            && r.master.state == s.master.state[id := MS.Assigned]
            && r.master.tasks.Keys == s.master.tasks.Keys && r.master.tasks[id].id == id
  {
    var got := MS.NextAssignment(s.master, now).1;
    assert got.Some? && got.value.id == id && got.value.worker == w;
    o := Order(MS.NextAssignment(s.master, now).0.tasks[id], got.value.priority, s.serial);
    assert s.down[w] + [o] == [o];
    hide MS.Choose;
  }

  /** A fresh worker reads the TASK, takes it up and reports a failure. */
  lemma WorkFails(s: System, w: WorkerId, o: Order, now: real)
    requires w in s.cluster.nodes && w in s.down && w in s.up && s.down[w] == [o] && s.up[w] == []
    requires w !in s.gone && s.cluster.nodes[w] == NodeSpec.Fresh(QUEUE_CAPACITY) && o.task.assignment == Some(w)
    ensures var r := Do(Do(Do(s, WorkerReads(w, now)), Internal(MTake(w))), WorkerReports(w, false));
            && r.master == s.master && r.down == s.down[w := []] && r.up == s.up[w := [ResultMsg(o.task.id, w, Bad)]]
            && r.gone == s.gone && r.refused == s.refused
            && r.cluster.net == s.cluster.net && r.cluster.nodes.Keys == s.cluster.nodes.Keys
            && (forall v :: v in s.cluster.nodes && v != w ==> r.cluster.nodes[v] == s.cluster.nodes[v])
            && Lingers(r.cluster.nodes[w], o.task.id)
  {
    var t := o.task.(enqueuedAt := now);
    var s1 := Do(s, WorkerReads(w, now));
    FreshReads(s, w, o, now);
    var s2 := Do(s1, Internal(MTake(w)));
    TakesUp(s1, w, t);
    ReportsBad(s2, w, t);
  }

  /** The node of a worker whose queue holds exactly `t`. */
  predicate HoldsOnly(n: NodeSpec.Node, t: Task) {
    && n.q.normal + n.q.priority == [t] && n.q.active == {t.id} && n.q.reserved == map[]
    && n.working.None? && !n.reported && n.phase.Idle?
  }

  lemma FreshReads(s: System, w: WorkerId, o: Order, now: real)
    requires w in s.cluster.nodes && w in s.down && w in s.up && s.down[w] == [o]
    requires w !in s.gone && s.cluster.nodes[w] == NodeSpec.Fresh(QUEUE_CAPACITY)
    ensures var r := Do(s, WorkerReads(w, now));
            && r.master == s.master && r.up == s.up && r.down == s.down[w := []] && r.cluster.net == s.cluster.net
            && r.gone == s.gone && r.refused == s.refused
            && r.cluster.nodes == s.cluster.nodes[w := r.cluster.nodes[w]] && w in r.cluster.nodes
            && HoldsOnly(r.cluster.nodes[w], o.task.(enqueuedAt := now))
  {
  }

  /** Only the node of `w` differs, and nothing was sent between workers or on a connection to a worker. */
  predicate OnlyNode(s: System, r: System, w: WorkerId) {
    && r.master == s.master && r.down == s.down && r.cluster.net == s.cluster.net
    && r.gone == s.gone && r.refused == s.refused && w in r.cluster.nodes && w in s.cluster.nodes
    && r.cluster.nodes == s.cluster.nodes[w := r.cluster.nodes[w]]
    && r.cluster.nodes[w].handled == s.cluster.nodes[w].handled
  }

  /** The node of a worker that processes exactly `t` and has not reported it. */
  predicate WorksOn(n: NodeSpec.Node, t: Task) {
    && n.q.normal == [] && n.q.priority == [] && t.id in n.q.active
    && n.working == Some(t) && !n.reported && n.phase.Idle?
  }

  lemma TakesUp(s: System, w: WorkerId, t: Task)
    requires w in s.cluster.nodes && w !in s.gone && HoldsOnly(s.cluster.nodes[w], t)
    ensures var r := Do(s, Internal(MTake(w)));
            r.up == s.up && OnlyNode(s, r, w) && WorksOn(r.cluster.nodes[w], t)
  {
    TakesOnly(s.cluster.nodes[w], t);
    hide HoldsOnly, WorksOn, NodeSpec.Take;
  }

  lemma TakesOnly(n: NodeSpec.Node, t: Task)
    requires HoldsOnly(n, t)
    ensures WorksOn(NodeSpec.Take(n), t) && NodeSpec.Take(n).handled == n.handled
  {
    OneOfTwo(n, t);
  }

  lemma OneOfTwo(n: NodeSpec.Node, t: Task)
    requires HoldsOnly(n, t)
    ensures (n.q.normal == [t] && n.q.priority == []) || (n.q.normal == [] && n.q.priority == [t])
  {
    assert |n.q.normal| + |n.q.priority| == 1;
    assert |n.q.normal| == 0 ==> n.q.normal + n.q.priority == n.q.priority;
    assert |n.q.priority| == 0 ==> n.q.normal + n.q.priority == n.q.normal;
  }

  lemma ReportsBad(s: System, w: WorkerId, t: Task)
    requires w in s.cluster.nodes && w !in s.gone && w in s.up && s.up[w] == [] && WorksOn(s.cluster.nodes[w], t)
    ensures var r := Do(s, WorkerReports(w, false));
            && r.up == s.up[w := [ResultMsg(t.id, AssigneeOf(t, w), Bad)]]
            && OnlyNode(s, r, w) && Lingers(r.cluster.nodes[w], t.id)
  {
    var msg := ResultMsg(t.id, AssigneeOf(t, w), Bad);
    assert s.up[w] + [msg] == [msg];
  }

  /**
   * The master reads a failure at `w` of a task assigned to `a`, and queues the task for a retry anywhere but at
   * `w`.
   */
  lemma MasterRequeues(s: System, w: WorkerId, a: WorkerId, id: TaskId)
    requires w in s.up && s.up[w] == [ResultMsg(id, a, Bad)] && AssignedTo(s.master, id, a)
    requires id in s.master.tasks && id in s.master.state && s.master.state[id] == MS.Assigned
    requires s.master.retry == [] && s.master.normal == []
    ensures var r := Do(s, MasterReads(w));
            && r.cluster == s.cluster && r.down == s.down && r.up == s.up[w := []] && r.gone == s.gone
            && r.master.retry == [id] && r.master.normal == []
            && r.master.workers == MS.ClearAssignment(s.master.workers, id)
            && r.master.tasks.Keys == s.master.tasks.Keys && r.master.state.Keys == s.master.state.Keys
            && r.master.tasks[id].previous == Some(w) && r.master.tasks[id].id == s.master.tasks[id].id
  {
    assert [ResultMsg(id, a, Bad)][1..] == [];
  }

  function Cycle(w: WorkerId, now: real): seq<Action> {
    [Distribute(now), WorkerReads(w, now), Internal(MTake(w)), WorkerReports(w, false), MasterReads(w)]
  }

  /** What a cycle leaves behind. */
  ghost predicate Cycled(s: System, r: System, id: TaskId, w: WorkerId) {
    && r.down == s.down && r.up == s.up && r.gone == s.gone && r.cluster.net == s.cluster.net
    && r.cluster.nodes.Keys == s.cluster.nodes.Keys && w in r.cluster.nodes
    && (forall v :: v in s.cluster.nodes && v != w ==> r.cluster.nodes[v] == s.cluster.nodes[v])
    && Lingers(r.cluster.nodes[w], id)
    && r.master.retry == [id] && r.master.normal == []
    && id in r.master.tasks && r.master.tasks[id].id == id && r.master.tasks[id].previous == Some(w)
    && id in r.master.state
    && w in s.master.workers
    && r.master.workers == MS.ClearAssignment(OneMoreHeld(s.master.workers, id, w), id)
  }

  lemma OneCycle(s: System, id: TaskId, w: WorkerId, now: real)
    requires NextIs(s.master, id, w) && Still(s, w) && s.cluster.nodes[w] == NodeSpec.Fresh(QUEUE_CAPACITY)
    ensures AllCan(s, Cycle(w, now)) && Cycled(s, Execute(s, Cycle(w, now)), id, w)
  {
    hide Do, Can, NextIs, Lingers, MS.ClearAssignment, AssignedTo;
    var s1 := Do(s, Distribute(now));
    var o := AssignNext(s, id, w, now);
    var s2 := Do(s1, WorkerReads(w, now));
    var s3 := Do(s2, Internal(MTake(w)));
    var s4 := Do(s3, WorkerReports(w, false));
    WorkFails(s1, w, o, now);
    JustAssigned(s, s1, id, w);
    var s5 := Do(s4, MasterReads(w));
    MasterRequeues(s4, w, w, id);
    assert s.down[w := [o]][w := []] == s.down && s.up[w := [ResultMsg(id, w, Bad)]][w := []] == s.up;
    FiveSteps(s, Cycle(w, now));
  }

  lemma JustAssigned(s: System, r: System, id: TaskId, w: WorkerId)
    requires NextIs(s.master, id, w)
    requires r.master.workers == OneMoreHeld(s.master.workers, id, w)
    ensures AssignedTo(r.master, id, w) && id in s.master.tasks && id in s.master.state && w in s.master.workers
  {
    hide MS.Choose;
  }

  lemma FiveSteps(s: System, acts: seq<Action>)
    requires |acts| == 5 && forall act <- acts :: !act.Disconnect? && !act.Hangup?
    ensures AllCan(s, acts)
    ensures Execute(s, acts) == Do(Do(Do(Do(Do(s, acts[0]), acts[1]), acts[2]), acts[3]), acts[4])
  {
    hide Do;
    var s1 := Do(s, acts[0]);
    var s2 := Do(s1, acts[1]);
    var s3 := Do(s2, acts[2]);
    var s4 := Do(s3, acts[3]);
    assert acts[1..][1..] == acts[2..] && acts[2..][1..] == acts[3..];
    assert acts[3..][1..] == acts[4..] && acts[4..][1..] == [];
    assert Execute(s4, acts[4..]) == Do(s4, acts[4]);
    assert Execute(s3, acts[3..]) == Execute(s4, acts[4..]);
    assert Execute(s2, acts[2..]) == Execute(s3, acts[3..]);
    assert Execute(s1, acts[1..]) == Execute(s2, acts[2..]);
    assert AllCan(s4, acts[4..]);
    assert AllCan(s3, acts[3..]);
    assert AllCan(s2, acts[2..]);
    assert AllCan(s1, acts[1..]);
  }

  // ---- two cycles, and a TASK refused ------------------------------------------------------------

  lemma FirstChoice(s: System, id: TaskId, a: WorkerId, b: WorkerId)
    requires Begin(s) && s.master.tasks.Keys == {id} && s.master.workers.Keys == {a, b} && LexLe(a, b)
    ensures NextIs(s.master, id, a) && Still(s, a) && Still(s, b)
    ensures s.cluster.nodes[a] == s.cluster.nodes[b] == NodeSpec.Fresh(QUEUE_CAPACITY) && s.cluster.net == map[]
    ensures s.gone == {} && s.refused == {}
    ensures s.master.workers[a] == s.master.workers[b] == MS.Conn(true, 0, QUEUE_CAPACITY, {})
  {
    var m := s.master;
    NoDupCount(m.normal);
    assert m.normal == [id];
    LexTotal(a, a);
    assert MS.Eligible(m.workers, m.tasks[id], a);
    assert MS.IsBest(m.workers, m.tasks[id], a);
    ML.ChooseLaw(m.workers, m.tasks[id]);
  }

  /** After a failure at `w`, the other worker is the only choice. */
  lemma OtherChoice(s: System, r: System, id: TaskId, w: WorkerId, v: WorkerId)
    requires Cycled(s, r, id, w) && v != w && s.master.workers.Keys == {v, w}
    requires s.master.workers[v].connected && 0 <= s.master.workers[v].size < s.master.workers[v].capacity
    ensures NextIs(r.master, id, v)
  {
    hide Lingers;
    var m := r.master;
    assert MS.Eligible(m.workers, m.tasks[id], v);
    LexTotal(v, v);
    assert MS.IsBest(m.workers, m.tasks[id], v);
    ML.ChooseLaw(m.workers, m.tasks[id]);
  }

  lemma DuplicateRefused(s: System, w: WorkerId, o: Order, now: real)
    requires w in s.cluster.nodes && w !in s.gone && w in s.down && w in s.up && s.down[w] == [o]
    requires o.task.id in s.cluster.nodes[w].q.active
    ensures var r := Do(s, WorkerReads(w, now));
            && r.master == s.master && r.up == s.up && r.down == s.down[w := []]
            && r.cluster.nodes == s.cluster.nodes && r.cluster.net == s.cluster.net && r.gone == s.gone
  {
    assert [o][1..] == [];
    assert s.cluster.nodes[w := s.cluster.nodes[w]] == s.cluster.nodes;
  }

  lemma LingersActive(n: NodeSpec.Node, id: TaskId)
    requires Lingers(n, id)
    ensures id in n.q.active
  {
  }

  lemma NothingLeft(s: System, id: TaskId, a: WorkerId, b: WorkerId, x: TaskId, c: Option<WorkerId>)
    requires s.cluster.net == map[] && s.cluster.nodes.Keys == {a, b}
    requires Lingers(s.cluster.nodes[a], id) && Lingers(s.cluster.nodes[b], id)
    ensures !Trace(s.cluster, s.gone, x, c)
  {
  }

  lemma {:induction false} ExecuteConcat(s: System, p: seq<Action>, q: seq<Action>)
    requires AllCan(s, p) && AllCan(Execute(s, p), q)
    ensures AllCan(s, p + q) && Execute(s, p + q) == Execute(Execute(s, p), q)
    decreases |p|
  {
    hide Do, Can;
    if |p| == 0 {
      assert p + q == q;
    } else {
      assert (p + q)[1..] == p[1..] + q;
      ExecuteConcat(Do(s, p[0]), p[1..], q);
    }
  }

  lemma TwoSteps(s: System, e: Action, f: Action)
    requires !e.Disconnect? && !e.Hangup? && !f.Disconnect? && !f.Hangup?
    ensures AllCan(s, [e, f]) && Execute(s, [e, f]) == Do(Do(s, e), f)
  {
    hide Do;
    assert [e, f][1..] == [f] && [f][1..] == [];
    assert Execute(Do(s, e), [f]) == Do(Do(s, e), f);
    assert AllCan(Do(s, e), [f]);
  }

  function ForgettingRun(a: WorkerId, b: WorkerId, now: real): seq<Action> {
    Cycle(a, now) + Cycle(b, now) + [Distribute(now), WorkerReads(a, now)]
  }

  /** Every channel is empty, nothing was sent between workers, and both have the task reported but not done. */
  predicate Idle(s: System, id: TaskId, a: WorkerId, b: WorkerId) {
    && s.cluster.nodes.Keys == {a, b} && s.down == map[a := [], b := []] && s.up == map[a := [], b := []]
    && s.gone == {} && s.cluster.net == map[] && Lingers(s.cluster.nodes[a], id) && Lingers(s.cluster.nodes[b], id)
  }

  lemma BothFail(s: System, id: TaskId, a: WorkerId, b: WorkerId, now: real)
    requires Begin(s) && a != b && s.master.tasks.Keys == {id} && s.master.workers.Keys == {a, b} && LexLe(a, b)
    ensures AllCan(s, Cycle(a, now) + Cycle(b, now))
    ensures var r := Execute(s, Cycle(a, now) + Cycle(b, now)); Idle(r, id, a, b) && NextIs(r.master, id, a)
  {
    hide Begin, Do, NextIs, Lingers, Execute, AllCan, MS.ClearAssignment, Cycle;
    FirstChoice(s, id, a, b);
    BeginKeys(s);
    var r1 := Execute(s, Cycle(a, now));
    OneCycle(s, id, a, now);
    OtherChoice(s, r1, id, a, b);
    var r2 := Execute(r1, Cycle(b, now));
    OneCycle(r1, id, b, now);
    CycledWorkers(s, r1, id, a);
    OtherChoice(r1, r2, id, b, a);
    ExecuteConcat(s, Cycle(a, now), Cycle(b, now));
    assert s.down == map[a := [], b := []] && s.up == map[a := [], b := []];
  }

  /** The task goes to `a` once more, and is refused there. */
  lemma ThenRefused(s: System, id: TaskId, a: WorkerId, b: WorkerId, now: real)
    requires a != b && Idle(s, id, a, b) && NextIs(s.master, id, a)
    ensures var acts := [Distribute(now), WorkerReads(a, now)];
            AllCan(s, acts) && Idle(Execute(s, acts), id, a, b) && AssignedTo(Execute(s, acts).master, id, a)
  {
    hide Do, NextIs, Lingers, Execute, AllCan, AssignedTo, MS.ClearAssignment;
    var o := AssignNext(s, id, a, now);
    JustAssigned(s, Do(s, Distribute(now)), id, a);
    LingersActive(s.cluster.nodes[a], id);
    DuplicateRefused(Do(s, Distribute(now)), a, o, now);
    TwoSteps(s, Distribute(now), WorkerReads(a, now));
  }

  /** One task, two workers, twelve ordinary steps, no worker ends: the task is held for good. */
  lemma TaskForgotten(s: System, id: TaskId, a: WorkerId, b: WorkerId, now: real)
    requires Begin(s) && a != b && s.master.tasks.Keys == {id} && s.master.workers.Keys == {a, b} && LexLe(a, b)
    ensures AllCan(s, ForgettingRun(a, b, now))
    ensures var r := Execute(s, ForgettingRun(a, b, now));
            Stuck(r, id, a) && Refused(r, id) && r.gone == {}
  {
    hide Begin, Do, NextIs, Lingers, Execute, AllCan, Trace, SystemInv, Cycle, AssignedTo, Stuck;
    BothFail(s, id, a, b, now);
    ThenRefused(Execute(s, Cycle(a, now) + Cycle(b, now)), id, a, b, now);
    ExecuteConcat(s, Cycle(a, now) + Cycle(b, now), [Distribute(now), WorkerReads(a, now)]);
    var r := Execute(s, ForgettingRun(a, b, now));
    forall x ensures !Trace(r.cluster, r.gone, x, None) { NothingLeft(r, id, a, b, x, None); }
    NothingLeft(r, id, a, b, id, Some(a));
    BeginInv(s);
    ExecuteInv(s, ForgettingRun(a, b, now));
    assert Forgotten(r, id, a);
    ForgottenWasRefused(r, id, a);
    StuckExactly(r, id, a);
  }

  lemma BeginKeys(s: System)
    requires Begin(s)
    ensures s.cluster.nodes.Keys == s.master.workers.Keys == s.down.Keys == s.up.Keys
  {
  }

  lemma CycledWorkers(s: System, r: System, id: TaskId, w: WorkerId)
    requires Cycled(s, r, id, w)
    ensures r.master.workers.Keys == s.master.workers.Keys
    ensures forall v :: v in s.master.workers ==>
              && r.master.workers[v].connected == s.master.workers[v].connected
              && r.master.workers[v].capacity == s.master.workers[v].capacity
              && r.master.workers[v].size == s.master.workers[v].size + (if v == w then 1 else 0)
  {
  }
}
