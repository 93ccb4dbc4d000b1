/**
 * What single steps of the system mean for a task: how it is sent, how it is queued, what its worker says about it,
 * and what the master makes of that.
 */
module Outcomes {
  import opened Basics
  import opened Models
  import opened QueueSpec
  import opened QueueLaws
  import opened NodeSpec
  import opened ClusterSpec
  import opened ClusterLaws
  import opened SystemSpec
  import opened SystemLaws
  import MS = MasterSpec
  import ML = MasterLaws
  import MR = MasterRuns

  /**
   * The distributor puts one TASK on the connection of the chosen worker: the head of the retry queue with priority,
   * else the head of the deque without, under the worker's name.
   */
  lemma SentOutcome(s: System, now: real, got: MS.Assignment)
    requires SystemInv(s) && MS.NextAssignment(s.master, now).1 == Some(got)
    ensures var m, r, w := s.master, Do(s, Distribute(now)), got.worker;
            && (if m.retry != [] then got.id == m.retry[0] else m.normal != [] && got.id == m.normal[0])
            && w in s.down && got.id in m.tasks && r.down.Keys == s.down.Keys
            && (forall v :: v in s.down && v != w ==> r.down[v] == s.down[v])
            && |r.down[w]| == |s.down[w]| + 1 && r.down[w][..|s.down[w]|] == s.down[w]
            && (var o := r.down[w][|s.down[w]|];
                && o.task == m.tasks[got.id].(enqueuedAt := now, assignment := Some(w))
                && (o.priority <==> m.retry != []))
  {
    hide MS.Inv, ClusterInv, Conserved, AllTraceable, WellAddressed, InOrder, MS.NextAssignment;
    ML.NextFields(s.master, now);
  }

  /**
   * The worker takes the TASK off its connection and stamps it. A known id is recorded as refused and nothing else
   * happens; a full queue answers with an overflow under the task's label; otherwise the task joins its class.
   */
  lemma ReadOutcome(s: System, w: WorkerId, now: real)
    requires w !in s.gone && w in s.down && w in s.up && w in s.cluster.nodes && |s.down[w]| > 0
    ensures var o, q := s.down[w][0], s.cluster.nodes[w].q;
            var r := Do(s, WorkerReads(w, now));
            var t := o.task.(enqueuedAt := now);
            && r.down == s.down[w := s.down[w][1..]] && r.master == s.master && w in r.cluster.nodes
            && (t.id in q.active ==>
                  r.cluster.nodes[w] == s.cluster.nodes[w] && r.up == s.up && r.refused == s.refused + {o.serial})
            && (t.id !in q.active && |q.normal| + |q.priority| + |q.reserved| >= q.capacity ==>
                  && r.cluster.nodes[w] == s.cluster.nodes[w] && r.refused == s.refused
                  && r.up == s.up[w := s.up[w] + [ResultMsg(t.id, AssigneeOf(t, w), Overflow)]])
            && (t.id !in q.active && |q.normal| + |q.priority| + |q.reserved| < q.capacity ==>
                  && r.up == s.up && r.refused == s.refused
                  && r.cluster.nodes[w].q.priority == (if o.priority then q.priority + [t] else q.priority)
                  && r.cluster.nodes[w].q.normal == (if o.priority then q.normal else q.normal + [t]))
  {
    hide TryEnqueue;
    var o := s.down[w][0];
    EnqueueLaw(s.cluster.nodes[w].q, o.task.(enqueuedAt := now), o.priority);
  }

  /** A report goes out at the end of the connection, once, under the task's own label. */
  lemma ReportOutcome(s: System, w: WorkerId, good: bool, t: Task, a: WorkerId)
    requires w !in s.gone && w in s.up && w in s.cluster.nodes
    requires s.cluster.nodes[w].working == Some(t) && !s.cluster.nodes[w].reported && t.assignment == Some(a)
    ensures var r := Do(s, WorkerReports(w, good));
            && r.up == s.up[w := s.up[w] + [ResultMsg(t.id, a, if good then Good else Bad)]]
            && r.master == s.master && r.gone == s.gone && w in r.cluster.nodes && r.cluster.nodes[w].reported
            && Do(r, WorkerReports(w, good)) == r
  {
    hide ClusterInv;
  }

  /**
   * A result read while its assignment holds ends the assignment. A success stores the task's value under its key; a
   * failure queues the task behind all other retries, marked with the worker that sent it, and counts as an attempt
   * unless the worker's queue was full.
   */
  lemma ResultOutcome(s: System, w: WorkerId, id: TaskId, a: WorkerId, kind: Kind)
    requires SystemInv(s) && AssignedTo(s.master, id, a)
    requires w in s.up && |s.up[w]| > 0 && s.up[w][0] == ResultMsg(id, a, kind)
    ensures var m, r := s.master, Do(s, MasterReads(w)).master;
            && id in m.tasks
            && (forall v :: v in r.workers ==> id !in r.workers[v].held)
            && (kind == Good ==>
                  && r.state == m.state[id := MS.Done] && r.retry == m.retry
                  && r.store == m.store[m.tasks[id].key := m.tasks[id].value])
            && (kind != Good ==>
                  && r.state == m.state[id := MS.Retry] && r.retry == m.retry + [id] && r.store == m.store
                  && id in r.tasks && r.tasks[id].previous == Some(w)
                  && r.tasks[id].attempt == m.tasks[id].attempt + (if kind == Overflow then 0 else 1))
  {
    hide MS.Inv, ClusterInv, Conserved, AllTraceable, Wired;
    HeldAccepts(s.master, id, a);
  }

  /** A result that names a worker which no longer holds the task changes nothing. */
  lemma StaleOutcome(s: System, w: WorkerId, id: TaskId, a: WorkerId, kind: Kind)
    requires w in s.up && |s.up[w]| > 0 && s.up[w][0] == ResultMsg(id, a, kind) && !AssignedTo(s.master, id, a)
    ensures Do(s, MasterReads(w)).master == s.master
  {
  }

  /** So what a worker finishes is stored: its success, read while the assignment holds, puts the value in the store. */
  lemma SuccessIsStored(s: System, w: WorkerId, t: Task, a: WorkerId)
    requires SystemInv(s) && AssignedTo(s.master, t.id, a) && w !in s.gone && w in s.cluster.nodes && s.up[w] == []
    requires s.cluster.nodes[w].working == Some(t) && !s.cluster.nodes[w].reported && t.assignment == Some(a)
    ensures var r := Execute(s, [WorkerReports(w, true), MasterReads(w)]).master;
            && t.id in s.master.tasks && t.id in r.state && r.state[t.id] == MS.Done
            && s.master.tasks[t.id].key in r.store && r.store[s.master.tasks[t.id].key] == s.master.tasks[t.id].value
  {
    hide SystemInv, AssignedTo, Do;
    var s1 := Do(s, WorkerReports(w, true));
    UpKnown(s, w);
    ReportOutcome(s, w, true, t, a);
    DoInv(s, WorkerReports(w, true));
    assert s.up[w] + [ResultMsg(t.id, a, Good)] == [ResultMsg(t.id, a, Good)];
    ResultOutcome(s1, w, t.id, a, Good);
    var acts := [WorkerReports(w, true), MasterReads(w)];
    assert acts[1..] == [MasterReads(w)] && acts[1..][1..] == [];
    assert Execute(s, acts) == Execute(s1, acts[1..]) == Do(s1, MasterReads(w));
  }

  lemma UpKnown(s: System, w: WorkerId)
    requires SystemInv(s) && w in s.cluster.nodes
    ensures w in s.up
  {
  }
}
