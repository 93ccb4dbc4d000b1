/**
 * A task can be lost after it was refused, by an ordinary answer. Worker `a` hands a task over to `b`; the
 * failure at `b` overtakes the answer to the transfer; the master assigns the task to `a` again, which refuses
 * it because its own copy is still reserved; then the answer arrives, and that copy is given away.
 */
module LateAnswer {
  import opened Basics
  import opened Models
  import opened QueueSpec
  import opened NodeSpec
  import opened ClusterSpec
  import opened ClusterCopies
  import opened ClusterWitness
  import opened ClusterTrace
  import opened SystemSpec
  import opened SystemLaws
  import opened LostTasks
  import opened Recovery
  import opened EndToEnd
  import opened Forgetting
  import MS = MasterSpec
  import ML = MasterLaws
  import MR = MasterRuns

  const RID: RequestId := "r"

  /** The node of a worker that has offered its only task to `b` and waits for the answer. */
  predicate Offering(n: Node, b: WorkerId, t: Task) {
    && n.q.normal == [] && n.q.priority == [] && n.q.active == {t.id}
    && n.q.reserved.Keys == {t.id} && n.q.reserved[t.id].task == t
    && n.working.None? && !n.reported && n.phase == Waiting(RID, b, [t])
  }

  function Answered(id: TaskId): map<RequestId, Ack> {
    map[RID := Ack(true, [id])]
  }

  // ---- the transfer -----------------------------------------------------------------------------

  lemma PeeksOnly(q: Queue, t: Task)
    requires (q.normal == [t] && q.priority == []) || (q.normal == [] && q.priority == [t])
    ensures Peek(q, 1) == [t]
  {
  }

  lemma ReservesOnly(q: Queue, t: Task)
    requires (q.normal == [t] && q.priority == []) || (q.normal == [] && q.priority == [t])
    requires q.reserved == map[]
    ensures var (r, got) := Reserve(q, t.id);
            && got == Some(t) && r.normal == [] && r.priority == [] && r.active == q.active
            && r.reserved.Keys == {t.id} && r.reserved[t.id].task == t
  {
    assert Find([t], t.id) == 0;
    assert Without([t], 0) == [];
  }

  lemma PicksOnly(n: Node, b: WorkerId, t: Task)
    requires HoldsOnly(n, t)
    ensures var p := Pick(StartPick(n, b, 1));
            p.phase == Picking(b, [], [t]) && ReadyToSend(p) && Offering(Send(p, RID), b, t)
  {
    hide Peek, Reserve;
    OneOfTwo(n, t);
    PeeksOnly(n.q, t);
    ReservesOnly(n.q, t);
    assert TaskIds([t]) == [t.id];
    assert [t.id][1..] == [] && [] + [t] == [t];
  }

  /** Only the node of `w` differs between the two, and it is `n`. */
  predicate NodeIs(s: System, r: System, w: WorkerId, n: Node) {
    && r.master == s.master && r.down == s.down && r.up == s.up && r.gone == s.gone && r.refused == s.refused
    && w in s.cluster.nodes && r.cluster.nodes == s.cluster.nodes[w := n]
  }

  lemma StartsHere(s: System, a: WorkerId, b: WorkerId)
    requires a in s.cluster.nodes && b in s.cluster.nodes && a != b && a !in s.gone
    ensures var r := Do(s, Internal(MStart(a, b, 1)));
            NodeIs(s, r, a, StartPick(s.cluster.nodes[a], b, 1)) && r.cluster.net == s.cluster.net
  {
    hide StartPick;
  }

  lemma PicksHere(s: System, a: WorkerId)
    requires a in s.cluster.nodes && a !in s.gone
    ensures var r := Do(s, Internal(MPick(a)));
            NodeIs(s, r, a, Pick(s.cluster.nodes[a])) && r.cluster.net == s.cluster.net
  {
    hide Pick;
  }

  lemma SendsHere(s: System, a: WorkerId)
    requires a in s.cluster.nodes && a !in s.gone && RID !in s.cluster.net && ReadyToSend(s.cluster.nodes[a])
    ensures var n := s.cluster.nodes[a];
            var r := Do(s, Internal(MSend(a, RID)));
            && NodeIs(s, r, a, Send(n, RID))
            && r.cluster.net == s.cluster.net[RID := Request(a, n.phase.peer, n.phase.picked)]
  {
    hide Send;
  }

  lemma Offers(s: System, a: WorkerId, b: WorkerId, t: Task)
    requires a in s.cluster.nodes && b in s.cluster.nodes && a != b && HoldsOnly(s.cluster.nodes[a], t)
    requires s.cluster.net == map[] && a !in s.gone
    ensures var r := Do(Do(Do(s, Internal(MStart(a, b, 1))), Internal(MPick(a))), Internal(MSend(a, RID)));
            && r.cluster.net == map[RID := Request(a, b, [t])]
            && a in r.cluster.nodes && NodeIs(s, r, a, r.cluster.nodes[a]) && Offering(r.cluster.nodes[a], b, t)
  {
    hide HoldsOnly, Offering, StartPick, Pick, Send, Do;
    PicksOnly(s.cluster.nodes[a], b, t);
    var s1 := Do(s, Internal(MStart(a, b, 1)));
    StartsHere(s, a, b);
    PicksHere(s1, a);
    SendsHere(Do(s1, Internal(MPick(a))), a);
  }

  lemma Arrives(s: System, a: WorkerId, b: WorkerId, t: Task, now: real)
    requires a != b && b in s.cluster.nodes && s.cluster.nodes[b] == Fresh(QUEUE_CAPACITY)
    requires s.cluster.net == map[RID := Request(a, b, [t])] && b !in s.gone
    ensures var r := Do(s, Internal(MDeliver(RID, now)));
            && r.master == s.master && r.down == s.down && r.up == s.up && r.cluster.net == s.cluster.net
            && r.gone == s.gone && r.refused == s.refused
            && b in r.cluster.nodes && r.cluster.nodes == s.cluster.nodes[b := r.cluster.nodes[b]]
            && HoldsOnly(r.cluster.nodes[b], t.(enqueuedAt := now)) && r.cluster.nodes[b].handled == Answered(t.id)
  {
    var x := t.(enqueuedAt := now);
    assert Stamp([t], now) == [x];
    IdsOne(x);
    assert TaskIds([t]) == [t.id];
    assert Receive(Fresh(QUEUE_CAPACITY), RID, [t], now) ==
           Node(Empty(QUEUE_CAPACITY).(normal := [] + [x], active := {} + {x.id}), None, false, Idle, Answered(t.id));
  }

  /** The receiver works on the task and reports a failure under the sender's label. */
  lemma ReceiverFails(s: System, a: WorkerId, b: WorkerId, t: Task)
    requires b in s.cluster.nodes && b !in s.gone && b in s.up && s.up[b] == [] && HoldsOnly(s.cluster.nodes[b], t)
    requires t.assignment == Some(a)
    ensures var r := Do(Do(s, Internal(MTake(b))), WorkerReports(b, false));
            r.up == s.up[b := [ResultMsg(t.id, a, Bad)]] && OnlyNode(s, r, b) && Lingers(r.cluster.nodes[b], t.id)
  {
    hide Do, HoldsOnly, WorksOn, Lingers;
    TakesUp(s, b, t);
    ReportsBad(Do(s, Internal(MTake(b))), b, t);
  }

  // ---- the run ----------------------------------------------------------------------------------

  /** The receiver has failed the task, and the sender still waits for an answer that is there to be had. */
  predicate Overtaken(s: System, id: TaskId, a: WorkerId, b: WorkerId, t: Task) {
    && t.id == id && t.assignment == Some(a) && s.gone == {}
    && s.cluster.nodes.Keys == {a, b} && s.down == map[a := [], b := []] && s.up == map[a := [], b := []]
    && s.cluster.net == map[RID := Request(a, b, [t])]
    && Offering(s.cluster.nodes[a], b, t) && Lingers(s.cluster.nodes[b], id)
    && s.cluster.nodes[b].handled == Answered(id)
  }

  /** The sender reads its TASK, offers its copy to `b`, and the offer is taken. */
  function Handover(a: WorkerId, b: WorkerId, now: real): seq<Action> {
    [Distribute(now), WorkerReads(a, now), Internal(MStart(a, b, 1)), Internal(MPick(a)), Internal(MSend(a, RID)),
     Internal(MDeliver(RID, now))]
  }

  function Failure(b: WorkerId): seq<Action> {
    [Internal(MTake(b)), WorkerReports(b, false), MasterReads(b)]
  }

  function Refusal(a: WorkerId, now: real): seq<Action> {
    [Distribute(now), WorkerReads(a, now)]
  }

  function Answer(a: WorkerId): seq<Action> {
    [Internal(MAck(a))]
  }

  lemma OneStep(s: System, e: Action)
    requires !e.Disconnect? && !e.Hangup?
    ensures AllCan(s, [e]) && Execute(s, [e]) == Do(s, e)
  {
    hide Do;
    assert [e][1..] == [];
    assert AllCan(Do(s, e), []) && Execute(Do(s, e), []) == Do(s, e);
  }

  lemma ThreeSteps(s: System, e: Action, f: Action, g: Action)
    requires !e.Disconnect? && !f.Disconnect? && !g.Disconnect? && !e.Hangup? && !f.Hangup? && !g.Hangup?
    ensures AllCan(s, [e, f, g]) && Execute(s, [e, f, g]) == Do(Do(Do(s, e), f), g)
  {
    hide Do, Execute, AllCan;
    TwoSteps(s, e, f);
    OneStep(Do(Do(s, e), f), g);
    assert [e, f] + [g] == [e, f, g];
    ExecuteConcat(s, [e, f], [g]);
  }

  lemma SixSteps(s: System, acts: seq<Action>)
    requires |acts| == 6 && forall act <- acts :: !act.Disconnect? && !act.Hangup?
    ensures AllCan(s, acts)
    ensures Execute(s, acts) == Do(Do(Do(Do(Do(Do(s, acts[0]), acts[1]), acts[2]), acts[3]), acts[4]), acts[5])
  {
    hide Do, Execute, AllCan;
    FiveSteps(s, acts[..5]);
    OneStep(Execute(s, acts[..5]), acts[5]);
    assert acts[..5] + [acts[5]] == acts;
    ExecuteConcat(s, acts[..5], [acts[5]]);
  }

  /** The task assigned to `a` is queued at `b`, and `a` waits for the answer. */
  predicate HandedTo(s: System, id: TaskId, a: WorkerId, b: WorkerId, t: Task, now: real) {
    && t.id == id && t.assignment == Some(a) && s.gone == {}
    && s.cluster.nodes.Keys == {a, b} && s.down == map[a := [], b := []] && s.up == map[a := [], b := []]
    && s.cluster.net == map[RID := Request(a, b, [t])] && Offering(s.cluster.nodes[a], b, t)
    && HoldsOnly(s.cluster.nodes[b], t.(enqueuedAt := now)) && s.cluster.nodes[b].handled == Answered(id)
  }

  /** The task is out to `a`, which has room for more; `b` has none, and nothing else waits. */
  ghost predicate OutTo(m: MS.Master, id: TaskId, a: WorkerId, b: WorkerId) {
    && AssignedTo(m, id, a) && m.retry == [] && m.normal == []
    && id in m.tasks && m.tasks[id].id == id && id in m.state && m.state[id] == MS.Assigned
    && m.workers.Keys == {a, b} && m.workers[a].connected && m.workers[a].size < m.workers[a].capacity
    && m.workers[b].held == {}
  }

  /** The first two steps: `a` holds the task, and nothing was sent between workers. */
  lemma Receives(s: System, id: TaskId, a: WorkerId, b: WorkerId, now: real) returns (t: Task)
    requires Begin(s) && a != b && s.master.tasks.Keys == {id} && s.master.workers.Keys == {a, b} && LexLe(a, b)
    ensures var r := Do(Do(s, Distribute(now)), WorkerReads(a, now));
            && t.id == id && t.assignment == Some(a) && OutTo(r.master, id, a, b) && r.gone == {} && r.refused == {}
            && r.cluster.nodes.Keys == {a, b} && r.down == map[a := [], b := []] && r.up == map[a := [], b := []]
            && r.cluster.net == map[] && HoldsOnly(r.cluster.nodes[a], t)
            && r.cluster.nodes[b] == Fresh(QUEUE_CAPACITY)
  {
    hide Begin, Do, NextIs, HoldsOnly, MS.ClearAssignment;
    FirstChoice(s, id, a, b);
    BeginKeys(s);
    BothEmpty(s, a, b);
    var s1 := Do(s, Distribute(now));
    var o := AssignNext(s, id, a, now);
    JustAssigned(s, s1, id, a);
    FreshReads(s1, a, o, now);
    t := o.task.(enqueuedAt := now);
  }

  lemma HandsOver(s: System, id: TaskId, a: WorkerId, b: WorkerId, now: real) returns (t: Task)
    requires Begin(s) && a != b && s.master.tasks.Keys == {id} && s.master.workers.Keys == {a, b} && LexLe(a, b)
    ensures AllCan(s, Handover(a, b, now))
    ensures var r := Execute(s, Handover(a, b, now));
            HandedTo(r, id, a, b, t, now) && OutTo(r.master, id, a, b) && r.refused == {}
  {
    hide Begin, Do, Execute, AllCan, Offering, HoldsOnly, OutTo;
    t := Receives(s, id, a, b, now);
    var s2 := Do(Do(s, Distribute(now)), WorkerReads(a, now));
    Offers(s2, a, b, t);
    var s5 := Do(Do(Do(s2, Internal(MStart(a, b, 1))), Internal(MPick(a))), Internal(MSend(a, RID)));
    Arrives(s5, a, b, t, now);
    SixSteps(s, Handover(a, b, now));
  }

  lemma BothEmpty(s: System, a: WorkerId, b: WorkerId)
    requires s.down.Keys == {a, b} && s.up.Keys == {a, b} && Still(s, a) && Still(s, b)
    ensures s.down == map[a := [], b := []] && s.up == map[a := [], b := []]
  {
  }

  /** The failure at `b` reaches the master, which then prefers `a`. */
  lemma FailsFirst(s: System, id: TaskId, a: WorkerId, b: WorkerId, t: Task, now: real)
    requires a != b && HandedTo(s, id, a, b, t, now) && OutTo(s.master, id, a, b)
    ensures AllCan(s, Failure(b))
    ensures var r := Execute(s, Failure(b)); Overtaken(r, id, a, b, t) && NextIs(r.master, id, a)
  {
    hide Do, NextIs, Execute, AllCan, Offering, HoldsOnly, Lingers;
    ReceiverFails(s, a, b, t.(enqueuedAt := now));
    var s2 := Do(Do(s, Internal(MTake(b))), WorkerReports(b, false));
    MasterRequeues(s2, b, a, id);
    var r := Do(s2, MasterReads(b));
    assert s.up[b := [ResultMsg(id, a, Bad)]][b := []] == s.up;
    BackTo(s2.master, r.master, id, a, b);
    ThreeSteps(s, Internal(MTake(b)), WorkerReports(b, false), MasterReads(b));
  }

  lemma BackTo(m: MS.Master, r: MS.Master, id: TaskId, a: WorkerId, b: WorkerId)
    requires a != b && OutTo(m, id, a, b) && r.workers == MS.ClearAssignment(m.workers, id)
    requires r.retry == [id] && r.normal == [] && r.tasks.Keys == m.tasks.Keys && r.state.Keys == m.state.Keys
    requires r.tasks[id].previous == Some(b) && r.tasks[id].id == id
    ensures NextIs(r, id, a)
  {
    assert MS.Eligible(r.workers, r.tasks[id], a);
    LexTotal(a, a);
    assert MS.IsBest(r.workers, r.tasks[id], a);
    ML.ChooseLaw(r.workers, r.tasks[id]);
  }

  /** `a` refuses the task, since its own copy is still reserved. */
  lemma RefusesAgain(s: System, id: TaskId, a: WorkerId, b: WorkerId, t: Task, now: real)
    requires a != b && Overtaken(s, id, a, b, t) && NextIs(s.master, id, a)
    ensures AllCan(s, Refusal(a, now))
    ensures var r := Execute(s, Refusal(a, now)); Overtaken(r, id, a, b, t) && AssignedTo(r.master, id, a)
  {
    hide Do, NextIs, Lingers, Execute, AllCan, AssignedTo, MS.ClearAssignment;
    var o := AssignNext(s, id, a, now);
    JustAssigned(s, Do(s, Distribute(now)), id, a);
    DuplicateRefused(Do(s, Distribute(now)), a, o, now);
    TwoSteps(s, Distribute(now), WorkerReads(a, now));
  }

  /** The answer arrives, and the reserved copy is given away. */
  lemma AnswerArrives(s: System, id: TaskId, a: WorkerId, b: WorkerId, t: Task)
    requires a in s.cluster.nodes && Offering(s.cluster.nodes[a], b, t) && a !in s.gone && t.id == id
    requires b in s.cluster.nodes && s.cluster.nodes[b].handled == Answered(id)
    ensures AllCan(s, Answer(a))
    ensures var r := Execute(s, Answer(a));
            && r.cluster.net == s.cluster.net && a in r.cluster.nodes && NodeIs(s, r, a, r.cluster.nodes[a])
            && Alive(r.cluster.nodes[a]) == {}
  {
    hide Execute, AllCan, Alive, AckArrives, Offering;
    OneStep(s, Internal(MAck(a)));
    AgreesWith(s.cluster.nodes[a], b, t);
    assert AnswerFor(s.cluster, s.cluster.nodes[a]) == Ack(true, [id]);
  }

  lemma AgreesWith(n: Node, b: WorkerId, t: Task)
    requires Offering(n, b, t)
    ensures n.phase == Waiting(RID, b, [t]) && Alive(AckArrives(n, Ack(true, [t.id]))) == {}
  {
    IdsOne(t);
  }

  lemma NotThereYet(s: System, id: TaskId, a: WorkerId, b: WorkerId, t: Task)
    requires a != b && Overtaken(s, id, a, b, t)
    ensures !Somewhere(s, id, a) && Traced(s, id, a)
  {
    var c := s.cluster;
    assert Accepted(c, RID) && Taken(c, a);
    LingeringFirm(c.nodes[b], id);
    assert FirmTasks(c.nodes[a], true) == {};
    assert !Firm(s, id, a);
    assert t in [t] && t in Alive(c.nodes[a]) && Labelled(t, id, Some(a));
    assert Keeps(c.nodes[a], id, Some(a));
  }

  lemma LingeringFirm(n: Node, id: TaskId)
    requires Lingers(n, id)
    ensures FirmTasks(n, false) == {} && FirmTasks(n, true) == {} && Alive(n) == {}
  {
  }

  lemma GoneNow(s: System, r: System, id: TaskId, a: WorkerId, b: WorkerId, t: Task)
    requires a != b && Overtaken(s, id, a, b, t)
    requires a in r.cluster.nodes && NodeIs(s, r, a, r.cluster.nodes[a]) && r.cluster.net == s.cluster.net
    requires Alive(r.cluster.nodes[a]) == {}
    ensures Untraced(r, id, a)
  {
    hide FirmTasks, Lingers, Offering;
    LingeringFirm(r.cluster.nodes[b], id);
  }

  /**
   * One task, two workers, twelve ordinary steps, no worker ends and nothing is lost in the network. After the
   * refusal the task is nowhere, but the reserved copy could still come back; with the late answer it is held for
   * good.
   */
  lemma LateAnswerForgets(s: System, id: TaskId, a: WorkerId, b: WorkerId, now: real)
    requires Begin(s) && a != b && s.master.tasks.Keys == {id} && s.master.workers.Keys == {a, b} && LexLe(a, b)
    ensures var before := Handover(a, b, now) + Failure(b) + Refusal(a, now);
            && AllCan(s, before) && AllCan(s, before + Answer(a))
            && !Somewhere(Execute(s, before), id, a) && !Stuck(Execute(s, before), id, a)
            && Stuck(Execute(s, before + Answer(a)), id, a)
  {
    hide Do, NextIs, Execute, AllCan, Begin, SystemInv, AllLabelled;
    hide HandedTo, OutTo, Overtaken, Trace, Somewhere, AssignedTo, Stuck;
    hide Handover, Failure, Refusal, Answer;
    var t := HandsOver(s, id, a, b, now);
    var r1 := Execute(s, Handover(a, b, now));
    FailsFirst(r1, id, a, b, t, now);
    ExecuteConcat(s, Handover(a, b, now), Failure(b));
    var r2 := Execute(r1, Failure(b));
    RefusesAgain(r2, id, a, b, t, now);
    ExecuteConcat(s, Handover(a, b, now) + Failure(b), Refusal(a, now));
    var r3 := Execute(r2, Refusal(a, now));
    OvertakenAnswers(r3, id, a, b, t);
    ExecuteConcat(s, Handover(a, b, now) + Failure(b) + Refusal(a, now), Answer(a));
    NotThereYet(r3, id, a, b, t);
    GoneNow(r3, Execute(r3, Answer(a)), id, a, b, t);
    BeginInv(s);
    BeginLabelled(s);
    LabelledRun(s, Handover(a, b, now) + Failure(b) + Refusal(a, now));
    StuckExactly(r3, id, a);
    LabelledRun(s, Handover(a, b, now) + Failure(b) + Refusal(a, now) + Answer(a));
    StuckExactly(Execute(r3, Answer(a)), id, a);
  }

  lemma OvertakenAnswers(s: System, id: TaskId, a: WorkerId, b: WorkerId, t: Task)
    requires a != b && Overtaken(s, id, a, b, t)
    ensures AllCan(s, Answer(a))
    ensures var r := Execute(s, Answer(a));
            && r.cluster.net == s.cluster.net && a in r.cluster.nodes && NodeIs(s, r, a, r.cluster.nodes[a])
            && Alive(r.cluster.nodes[a]) == {}
  {
    hide Offering, Lingers;
    AnswerArrives(s, id, a, b, t);
  }
}
