/** The end-to-end invariant: where an assigned task is. */
module SystemLaws {
  import opened Basics
  import opened Models
  import opened QueueSpec
  import NodeSpec
  import opened ClusterSpec
  import opened ClusterLaws
  import opened ClusterCopies
  import opened ClusterRuns
  import opened ClusterWitness
  import opened SystemSpec
  import MS = MasterSpec
  import ML = MasterLaws
  import MR = MasterRuns

  /** The master holds the task as assigned to `a`. */
  ghost predicate AssignedTo(m: MS.Master, id: TaskId, a: WorkerId) {
    a in m.workers && id in m.workers[a].held
  }

  predicate Carries(o: Order, id: TaskId, a: WorkerId) {
    Labelled(o.task, id, Some(a))
  }

  /** The TASK of the current assignment is still on its way to `a`, which runs. */
  ghost predicate Undelivered(s: System, id: TaskId, a: WorkerId) {
    && a in s.down && a !in s.gone && id in s.current
    && exists o :: o in s.down[a] && Carries(o, id, a) && o.serial == s.current[id]
  }

  predicate Answers(m: Report, id: TaskId, a: WorkerId) {
    m.ResultMsg? && m.id == id && m.assignee == a
  }

  /** A result for this assignment is on its way to the master, which still reads that connection. */
  ghost predicate Returning(s: System, id: TaskId, a: WorkerId) {
    exists w, m :: w in s.up && m in s.up[w] && Answers(m, id, a)
  }

  /** Its TASK was refused as a duplicate since it was assigned. */
  ghost predicate Refused(s: System, id: TaskId) {
    id in s.current && s.current[id] in s.refused
  }

  /** A worker that runs has a firm copy with this label. */
  ghost predicate Firm(s: System, id: TaskId, a: WorkerId) {
    Witness(s.cluster, s.gone, id, Some(a))
  }

  /** The current TASK of the assignment, a firm copy with its label, or a result with its label. */
  ghost predicate Somewhere(s: System, id: TaskId, a: WorkerId) {
    Undelivered(s, id, a) || Firm(s, id, a) || Returning(s, id, a)
  }

  /**
   * The task is somewhere it can still be completed from, or its TASK was refused as a duplicate, or some worker has
   * ended.
   */
  ghost predicate Traceable(s: System, id: TaskId, a: WorkerId) {
    Somewhere(s, id, a) || Refused(s, id) || s.gone != {}
  }

  /** Worker `w` is `a`, reads its current TASK for the task and refuses it. */
  ghost predicate Refuses(s: System, w: WorkerId, now: real, id: TaskId, a: WorkerId) {
    && w == a && a !in s.gone && a in s.down && a in s.up && a in s.cluster.nodes && |s.down[a]| > 0
    && id in s.current && Carries(s.down[a][0], id, a) && s.down[a][0].serial == s.current[id]
    && ReadVerdict(s, a, now) == Duplicate
  }

  ghost predicate FirmOnlyAt(s: System, w: WorkerId, id: TaskId, a: WorkerId) {
    forall v :: v in s.cluster.nodes && v !in s.gone ==>
      HasFirm(s.cluster.nodes[v], Taken(s.cluster, v), id, Some(a)) ==> v == w
  }

  ghost predicate ReturningOnlyFrom(s: System, w: WorkerId, id: TaskId, a: WorkerId) {
    forall v, m :: v in s.up && m in s.up[v] && Answers(m, id, a) ==> v == w
  }

  /**
   * The steps after which a task is nowhere: its current TASK is refused, with no firm copy and no result about; the
   * worker ends that alone has firm copies or is still to get the TASK, with no result about; or the master stops
   * reading the one connection with results, with no firm copy and no TASK about.
   */
  ghost predicate Drops(s: System, act: Action, id: TaskId, a: WorkerId) {
    match act
    case WorkerReads(w, now) => Refuses(s, w, now, id, a) && !Firm(s, id, a) && !Returning(s, id, a)
    case Stop(w) => FirmOnlyAt(s, w, id, a) && (Undelivered(s, id, a) ==> w == a) && !Returning(s, id, a)
    case Hangup(w) => ReturningOnlyFrom(s, w, id, a) && !Firm(s, id, a) && !Undelivered(s, id, a)
    case Distribute(_) => false
    case MasterReads(_) => false
    case Disconnect(_, _) => false
    case WorkerReports(_, _) => false
    case WorkerStatus(_, _) => false
    case Internal(_) => false
  }

  /** What the queue of `w` says to its next TASK. */
  function ReadVerdict(s: System, w: WorkerId, now: real): Reason
    requires w in s.down && w in s.cluster.nodes && |s.down[w]| > 0
  {
    TryEnqueue(s.cluster.nodes[w].q, s.down[w][0].task.(enqueuedAt := now), s.down[w][0].priority).1
  }

  /** The latest assignment of the task is the same one. */
  predicate SameAssignment(s: System, r: System, id: TaskId) {
    if id in s.current then id in r.current && r.current[id] == s.current[id] else id !in r.current
  }

  ghost predicate AllTraceable(s: System) {
    forall id, a :: AssignedTo(s.master, id, a) ==> Traceable(s, id, a)
  }

  ghost predicate Wired(s: System) {
    && s.cluster.nodes.Keys == s.master.workers.Keys == s.down.Keys == s.up.Keys
    && WellAddressed(s) && InOrder(s.down) && AllOfSize(s.cluster, QUEUE_CAPACITY)
  }

  ghost predicate SystemInv(s: System) {
    MS.Inv(s.master) && ClusterInv(s.cluster) && Conserved(s.cluster) && Wired(s) && AllTraceable(s)
  }

  // ---- the master's side ----------------------------------------------------------------------

  /** Handling a message or a disconnect never assigns, and an accepted result ends its assignment. */
  lemma StepHeld(m: MS.Master, e: MR.Event, id: TaskId, a: WorkerId)
    requires !e.Distribute? && AssignedTo(MR.Step(m, e), id, a)
    ensures AssignedTo(m, id, a)
    ensures (e.Success? || e.Failure?) && e.id == id ==> !MS.Accepts(m, id, e.assignee)
  {
  }

  /** A result for an assignment the master still holds is accepted. */
  lemma HeldAccepts(m: MS.Master, id: TaskId, a: WorkerId)
    requires MS.Inv(m) && AssignedTo(m, id, a)
    ensures MS.Accepts(m, id, a)
  {
  }

  lemma MasterWorkers(m: MS.Master, e: MR.Event)
    requires MS.Inv(m)
    ensures MR.Step(m, e).workers.Keys == m.workers.Keys
  {
    hide MS.NextAssignment, MS.Inv, MS.IsBest;
    if e.Distribute? { ML.NextLaw(m, e.now); } else { SameWorkers(m, e); }
  }

  lemma SameWorkers(m: MS.Master, e: MR.Event)
    requires !e.Distribute?
    ensures MR.Step(m, e).workers.Keys == m.workers.Keys
  {
    hide MS.Requeue, MS.MarkRetry;
  }

  // ---- each disjunct under a change of the system ---------------------------------------------

  lemma MoreDown(s: System, r: System, id: TaskId, a: WorkerId)
    requires Undelivered(s, id, a) && id in r.current && r.current[id] == s.current[id]
    requires a in r.down && a !in r.gone && forall o :: o in s.down[a] ==> o in r.down[a]
    ensures Undelivered(r, id, a)
  {
  }

  lemma MoreUp(s: System, r: System, id: TaskId, a: WorkerId)
    requires Returning(s, id, a)
    requires forall w, m :: w in s.up && m in s.up[w] ==> w in r.up && m in r.up[w]
    ensures Returning(r, id, a)
  {
  }

  lemma AppendKeeps<T>(channels: map<WorkerId, seq<T>>, w: WorkerId, x: T)
    requires w in channels
    ensures forall v, m :: v in channels && m in channels[v] ==> m in channels[w := channels[w] + [x]][v]
    ensures x in channels[w := channels[w] + [x]][w]
  {
  }

  // ---- action by action -----------------------------------------------------------------------

  /** An assignment sends its TASK to the one worker that holds the task now. */
  lemma IssuedOrder(s: System, now: real, id: TaskId, a: WorkerId)
    requires MS.Inv(s.master) && Wired(s) && AssignedTo(Assign(s, now).master, id, a)
    requires var got := MS.NextAssignment(s.master, now).1; got.Some? && got.value.id == id
    ensures a == MS.NextAssignment(s.master, now).1.value.worker && a in s.down && id in s.master.tasks
    ensures a !in s.gone ==> Undelivered(Assign(s, now), id, a)
  {
    hide MS.NextAssignment, MS.IsBest, MS.Owned, MS.Stored, MS.Queues, WellAddressed, InOrder, AllOfSize;
    ML.NextLaw(s.master, now);
    var r := Assign(s, now);
    var got := MS.NextAssignment(s.master, now).1.value;
    NewlyHeld(s.master, r.master, got, now, a);
    var o := Order(r.master.tasks[id], got.priority, s.serial);
    AppendKeeps(s.down, a, o);
    assert Carries(o, id, a);
  }

  lemma OtherIssued(s: System, now: real, id: TaskId, a: WorkerId)
    requires MS.Inv(s.master) && AssignedTo(Assign(s, now).master, id, a)
    requires var got := MS.NextAssignment(s.master, now).1; got.Some? ==> got.value.id != id
    ensures AssignedTo(s.master, id, a) && SameAssignment(s, Assign(s, now), id)
    ensures Undelivered(s, id, a) ==> Undelivered(Assign(s, now), id, a)
  {
    hide MS.NextAssignment, MS.IsBest, MS.Inv;
    ML.NextLaw(s.master, now);
    var r := Assign(s, now);
    var got := MS.NextAssignment(s.master, now).1;
    if got.Some? && r.down != s.down {
      AppendKeeps(s.down, got.value.worker, Order(r.master.tasks[got.value.id], got.value.priority, s.serial));
    }
    if Undelivered(s, id, a) { MoreDown(s, r, id, a); }
  }

  /** Nothing but the master and the orders changes. */
  lemma AssignFrame(s: System, now: real)
    ensures var r := Assign(s, now);
            r.cluster == s.cluster && r.up == s.up && r.gone == s.gone && r.refused == s.refused
  {
    hide MS.NextAssignment;
  }

  /** An assignment sends its TASK, perhaps to a worker that has ended; all other tasks stay where they are. */
  lemma AssignOne(s: System, now: real, id: TaskId, a: WorkerId)
    requires SystemInv(s) && AssignedTo(Assign(s, now).master, id, a)
    ensures var r := Assign(s, now);
            || Somewhere(r, id, a)
            || (a in s.gone && !Somewhere(s, id, a))
            || (AssignedTo(s.master, id, a) && SameAssignment(s, r, id) && r.refused == s.refused &&
                !Somewhere(s, id, a))
  {
    hide MS.Inv, ClusterInv, Conserved, Wired, Witness, MS.NextAssignment, AssignedTo, Returning, Assign;
    AssignFrame(s, now);
    SameReturning(s, Assign(s, now), id, a);
    var got := MS.NextAssignment(s.master, now).1;
    if got.Some? && got.value.id == id { IssuedOrder(s, now, id, a); } else { OtherIssued(s, now, id, a); }
  }

  /** Only the chosen worker holds a task just assigned, and its record says so. */
  lemma NewlyHeld(m: MS.Master, r: MS.Master, got: MS.Assignment, now: real, a: WorkerId)
    requires MS.Inv(m) && got.id in m.tasks && got.worker in m.workers && got.id in m.state
    requires m.state[got.id] != MS.Assigned
    requires r == MS.AssignTo(m, got.id, got.worker, now).(retry := r.retry, normal := r.normal)
    requires AssignedTo(r, got.id, a)
    ensures a == got.worker && r.tasks[got.id].assignment == Some(a) && r.tasks[got.id].id == got.id
  {
  }

  /** The master reads a result: it either ends the assignment, or was not about it. */
  lemma ReadKeeps(s: System, w: WorkerId, id: TaskId, a: WorkerId)
    requires SystemInv(s) && AssignedTo(ReadReport(s, w).master, id, a)
    ensures AssignedTo(s.master, id, a) && (Somewhere(s, id, a) ==> Somewhere(ReadReport(s, w), id, a))
  {
    hide ClusterInv, Conserved, Witness, MR.Step, MS.Inv;
    var r := ReadReport(s, w);
    if w in s.up && |s.up[w]| > 0 {
      var msg := s.up[w][0];
      var e := MasterEvent(w, msg);
      StepHeld(s.master, e, id, a);
      HeldAccepts(s.master, id, a);
      assert !Answers(msg, id, a);
      assert s.up[w] == [msg] + r.up[w];
      if Undelivered(s, id, a) { MoreDown(s, r, id, a); }
      if Returning(s, id, a) {
        var v, m :| v in s.up && m in s.up[v] && Answers(m, id, a);
        assert m in r.up[v];
      }
    }
  }

  /** A worker ends: what was not with it alone is still there. */
  lemma StopKeeps(s: System, w: WorkerId, id: TaskId, a: WorkerId)
    requires Somewhere(s, id, a)
    ensures Somewhere(Do(s, Stop(w)), id, a) <==> !Drops(s, Stop(w), id, a)
  {
    hide HasFirm, Taken;
    var r := Do(s, Stop(w));
    SameReturning(s, r, id, a);
    if Undelivered(s, id, a) && w != a { MoreDown(s, r, id, a); }
    hide Returning;
  }

  lemma HangupKeeps(s: System, w: WorkerId, id: TaskId, a: WorkerId)
    requires Somewhere(s, id, a)
    ensures Somewhere(Do(s, Hangup(w)), id, a) <==> !Drops(s, Hangup(w), id, a)
  {
    hide Witness;
    var r := Do(s, Hangup(w));
    if Undelivered(s, id, a) { MoreDown(s, r, id, a); }
    if v, m :| v in s.up && m in s.up[v] && Answers(m, id, a) && v != w { assert m in r.up[v]; }
    if v, m :| v in r.up && m in r.up[v] && Answers(m, id, a) { assert v != w && m in s.up[v]; }
  }

  lemma DisconnectKeeps(s: System, w: WorkerId, order: seq<TaskId>, id: TaskId, a: WorkerId)
    requires AssignedTo(Do(s, Disconnect(w, order)).master, id, a)
    ensures AssignedTo(s.master, id, a)
    ensures Somewhere(s, id, a) ==> Somewhere(Do(s, Disconnect(w, order)), id, a)
  {
    hide Witness, MR.Step;
    StepHeld(s.master, MR.Lost(w, order), id, a);
    var r := Do(s, Disconnect(w, order));
    if Undelivered(s, id, a) { MoreDown(s, r, id, a); }
    if Returning(s, id, a) { MoreUp(s, r, id, a); }
  }

  lemma OrderWitness(s: System, w: WorkerId, now: real, id: TaskId, a: WorkerId)
    requires ClusterInv(s.cluster) && Firm(s, id, a) && w !in s.gone
    ensures Firm(ReadOrder(s, w, now), id, a)
  {
    hide ClusterInv, Witness, After, TryEnqueue;
    if w in s.down && |s.down[w]| > 0 {
      var o := s.down[w][0];
      WitnessKept(s.cluster, s.gone, MAdmit(w, o.task.(enqueuedAt := now), o.priority), id, Some(a));
    }
  }

  lemma OrderReturning(s: System, w: WorkerId, now: real, id: TaskId, a: WorkerId)
    requires Returning(s, id, a)
    ensures Returning(ReadOrder(s, w, now), id, a)
  {
    hide After, TryEnqueue, AssigneeOf, Returning;
    if w in s.up && w in s.down && |s.down[w]| > 0 {
      var t := s.down[w][0].task.(enqueuedAt := now);
      AppendKeeps(s.up, w, ResultMsg(t.id, AssigneeOf(t, w), Overflow));
    }
    MoreUp(s, ReadOrder(s, w, now), id, a);
  }

  /** A worker reads a TASK: the copy is firm now, or its overflow is on the way back, or it is refused. */
  lemma OrderKeeps(s: System, w: WorkerId, now: real, id: TaskId, a: WorkerId)
    requires SystemInv(s) && Somewhere(s, id, a) && w !in s.gone
    ensures Somewhere(ReadOrder(s, w, now), id, a) || Drops(s, WorkerReads(w, now), id, a)
  {
    hide MS.Inv, ClusterInv, Conserved, Witness, After, Undelivered, Returning, TryEnqueue, Drops;
    if Firm(s, id, a) { OrderWitness(s, w, now, id, a); }
    else if Returning(s, id, a) { OrderReturning(s, w, now, id, a); }
    else if w in s.down && |s.down[w]| > 0 { OrderRead(s, w, now, id, a); }
  }

  lemma OrderRead(s: System, w: WorkerId, now: real, id: TaskId, a: WorkerId)
    requires ClusterInv(s.cluster) && Wired(s) && Undelivered(s, id, a) && w in s.down && |s.down[w]| > 0
    requires !Firm(s, id, a) && !Returning(s, id, a) && w !in s.gone
    ensures Somewhere(ReadOrder(s, w, now), id, a) || Drops(s, WorkerReads(w, now), id, a)
  {
    hide ClusterInv, WellAddressed, InOrder, AllOfSize, Witness, After, TryEnqueue, Returning;
    var r := ReadOrder(s, w, now);
    var o := s.down[w][0];
    var t := o.task.(enqueuedAt := now);
    var x :| x in s.down[a] && Carries(x, id, a) && x.serial == s.current[id];
    assert s.down[w] == [o] + r.down[w];
    if a == w && x == o {
      match TryEnqueue(s.cluster.nodes[w].q, t, o.priority).1
      case Admitted => AdmittedWitness(s.cluster, s.gone, w, t, o.priority, Some(a));
      case Duplicate =>
      case Full => OverflowReturns(s, w, now, id);
    } else {
      assert x in r.down[a];
    }
  }

  lemma OverflowReturns(s: System, w: WorkerId, now: real, id: TaskId)
    requires w in s.down && w in s.up && w in s.cluster.nodes && |s.down[w]| > 0 && Carries(s.down[w][0], id, w)
    requires ReadVerdict(s, w, now) == Full
    ensures Returning(ReadOrder(s, w, now), id, w)
  {
    hide After, TryEnqueue;
    var t := s.down[w][0].task.(enqueuedAt := now);
    AppendKeeps(s.up, w, ResultMsg(t.id, AssigneeOf(t, w), Overflow));
    assert Answers(ResultMsg(t.id, AssigneeOf(t, w), Overflow), id, w);
  }

  lemma ResultWitness(s: System, w: WorkerId, good: bool, id: TaskId, a: WorkerId)
    requires ClusterInv(s.cluster) && Firm(s, id, a) && w !in s.gone
    ensures Firm(SendResult(s, w, good), id, a) || Returning(SendResult(s, w, good), id, a)
  {
    hide ClusterInv, Witness, After;
    var r := SendResult(s, w, good);
    WitnessKept(s.cluster, s.gone, MReport(w), id, Some(a));
    if w in s.up && Reports(s.cluster, MReport(w), id, Some(a)) {
      var t := s.cluster.nodes[w].working.value;
      var msg := ResultMsg(t.id, AssigneeOf(t, w), if good then Good else Bad);
      AppendKeeps(s.up, w, msg);
      assert Answers(msg, id, a) && msg in r.up[w];
    }
  }

  lemma ResultReturning(s: System, w: WorkerId, good: bool, id: TaskId, a: WorkerId)
    requires Returning(s, id, a)
    ensures Returning(SendResult(s, w, good), id, a)
  {
    hide After, AssigneeOf, Returning;
    if w in s.up && w in s.cluster.nodes && s.cluster.nodes[w].working.Some? {
      var t := s.cluster.nodes[w].working.value;
      AppendKeeps(s.up, w, ResultMsg(t.id, AssigneeOf(t, w), if good then Good else Bad));
    }
    MoreUp(s, SendResult(s, w, good), id, a);
  }

  lemma ResultKeeps(s: System, w: WorkerId, good: bool, id: TaskId, a: WorkerId)
    requires SystemInv(s) && Somewhere(s, id, a) && w !in s.gone
    ensures Somewhere(SendResult(s, w, good), id, a)
  {
    hide MS.Inv, ClusterInv, Conserved, Witness, After, Returning;
    if Firm(s, id, a) { ResultWitness(s, w, good, id, a); }
    else if Undelivered(s, id, a) { MoreDown(s, SendResult(s, w, good), id, a); }
    else { ResultReturning(s, w, good, id, a); }
  }

  lemma StatusKeeps(s: System, w: WorkerId, size: nat, id: TaskId, a: WorkerId)
    requires Somewhere(s, id, a)
    ensures Somewhere(SendStatus(s, w, size), id, a)
  {
    hide Witness;
    var r := SendStatus(s, w, size);
    if w in s.up && w in s.cluster.nodes {
      AppendKeeps(s.up, w, StatusMsg(size, s.cluster.nodes[w].q.capacity));
      if Undelivered(s, id, a) { MoreDown(s, r, id, a); }
      if Returning(s, id, a) { MoreUp(s, r, id, a); }
    }
  }

  lemma InternalKeeps(s: System, move: Move, id: TaskId, a: WorkerId)
    requires SystemInv(s) && Somewhere(s, id, a)
    ensures Somewhere(Do(s, Internal(move)), id, a)
  {
    hide MS.Inv, ClusterInv, Conserved, Witness, After;
    var r := Do(s, Internal(move));
    if !move.MAdmit? && !move.MReport? && Runs(s.cluster, s.gone, move) {
      if Firm(s, id, a) { WitnessKept(s.cluster, s.gone, move, id, Some(a)); }
      else if Undelivered(s, id, a) { MoreDown(s, r, id, a); }
      else { MoreUp(s, r, id, a); }
    }
  }

  /** An assigned task stays somewhere, whatever happens, unless the step drops it. */
  lemma SomewhereKept(s: System, act: Action, id: TaskId, a: WorkerId)
    requires SystemInv(s) && AssignedTo(Do(s, act).master, id, a)
    ensures var r := Do(s, act);
            || Somewhere(r, id, a)
            || (act.Distribute? && a in s.gone && !Somewhere(s, id, a))
            || (AssignedTo(s.master, id, a) && SameAssignment(s, r, id) && s.refused <= r.refused
                && (Somewhere(s, id, a) ==> Drops(s, act, id, a)))
  {
    hide MS.Inv, ClusterInv, Conserved, Wired, Somewhere, Drops, Assign, ReadReport, After, AssignedTo, MR.Step;
    hide AllTraceable;
    if !act.Distribute? { SameCurrent(s, act, id); }
    if act.Distribute? { AssignOne(s, act.now, id, a); }
    else if act.MasterReads? { ReadKeeps(s, act.w, id, a); }
    else if act.Disconnect? { DisconnectKeeps(s, act.w, act.order, id, a); }
    else {
      SameMaster(s, act);
      if Somewhere(s, id, a) { WorkersKeep(s, act, id, a); }
    }
  }

  lemma WorkersKeep(s: System, act: Action, id: TaskId, a: WorkerId)
    requires SystemInv(s) && Somewhere(s, id, a) && !act.Distribute? && !act.MasterReads? && !act.Disconnect?
    ensures Somewhere(Do(s, act), id, a) || Drops(s, act, id, a)
  {
    hide SystemInv, Somewhere, Drops, After, MR.Step, ReadOrder, SendResult, SendStatus;
    match act
    case Hangup(w) => HangupKeeps(s, w, id, a);
    case Stop(w) => StopKeeps(s, w, id, a);
    case WorkerReads(w, now) => if w !in s.gone { OrderKeeps(s, w, now, id, a); }
    case WorkerReports(w, good) => if w !in s.gone { ResultKeeps(s, w, good, id, a); }
    case WorkerStatus(w, size) => StatusKeeps(s, w, size, id, a);
    case Internal(move) => InternalKeeps(s, move, id, a);
  }

  lemma SameCurrent(s: System, act: Action, id: TaskId)
    requires !act.Distribute?
    ensures SameAssignment(s, Do(s, act), id) && s.refused <= Do(s, act).refused
  {
    hide After, MR.Step, TryEnqueue;
  }

  /** Such a step does lose sight of the task; without the end of a worker, the refusal is on record. */
  lemma DropLoses(s: System, act: Action, id: TaskId, a: WorkerId)
    requires Wired(s) && Drops(s, act, id, a)
    ensures !Somewhere(Do(s, act), id, a)
    ensures act.WorkerReads? ==> Refused(Do(s, act), id)
  {
    hide Wired, Somewhere;
    match act
    case WorkerReads(_, now) => RefusalLoses(s, now, id, a);
    case Stop(w) => if Somewhere(s, id, a) { StopKeeps(s, w, id, a); } else { GoneStaysNowhere(s, act, id, a); }
    case Hangup(w) => if Somewhere(s, id, a) { HangupKeeps(s, w, id, a); } else { GoneStaysNowhere(s, act, id, a); }
  }

  lemma GoneStaysNowhere(s: System, act: Action, id: TaskId, a: WorkerId)
    requires (act.Stop? || act.Hangup?) && !Somewhere(s, id, a)
    ensures !Somewhere(Do(s, act), id, a)
  {
    hide HasFirm, Taken;
    var r := Do(s, act);
    if v, m :| v in r.up && m in r.up[v] && Answers(m, id, a) { assert m in s.up[v]; }
  }

  lemma RefusalLoses(s: System, now: real, id: TaskId, a: WorkerId)
    requires Wired(s) && Drops(s, WorkerReads(a, now), id, a)
    ensures var r := Do(s, WorkerReads(a, now)); !Somewhere(r, id, a) && Refused(r, id)
  {
    hide Witness, Returning;
    var r := Do(s, WorkerReads(a, now));
    assert s.cluster.nodes[a := s.cluster.nodes[a]] == s.cluster.nodes;
    assert r.cluster == s.cluster && r.up == s.up;
    SameReturning(s, r, id, a);
    assert s.down[a][0] in s.down[a];
    forall o | o in r.down[a] ensures o.serial != s.current[id] {
      var i :| 0 <= i < |r.down[a]| && r.down[a][i] == o;
      assert s.down[a][i + 1] == o;
    }
  }

  lemma SameReturning(s: System, r: System, id: TaskId, a: WorkerId)
    requires r.up == s.up
    ensures Returning(r, id, a) <==> Returning(s, id, a)
  {
  }

  /**
   * The exact condition, step by step: an assigned task that is somewhere stays so exactly if the step does not
   * drop it.
   */
  lemma StaysExactly(s: System, act: Action, id: TaskId, a: WorkerId)
    requires SystemInv(s) && AssignedTo(Do(s, act).master, id, a) && Somewhere(s, id, a)
    ensures Somewhere(Do(s, act), id, a) <==> !Drops(s, act, id, a)
  {
    hide MS.Inv, ClusterInv, Conserved, Wired, AllTraceable, Somewhere, Drops, Do;
    SomewhereKept(s, act, id, a);
    if Drops(s, act, id, a) { DropLoses(s, act, id, a); }
  }

  lemma DoTraceable(s: System, act: Action)
    requires SystemInv(s) && Can(s, act)
    ensures AllTraceable(Do(s, act))
  {
    hide MS.Inv, ClusterInv, Conserved, Wired, Do, Somewhere, Drops;
    var r := Do(s, act);
    GoneGrows(s, act);
    forall id, a | AssignedTo(r.master, id, a) ensures Traceable(r, id, a) {
      SomewhereKept(s, act, id, a);
      assert a in s.gone ==> a in r.gone;
      if Drops(s, act, id, a) { DropsHow(s, act, id, a); DropLoses(s, act, id, a); }
    }
  }

  lemma GoneGrows(s: System, act: Action)
    ensures s.gone <= Do(s, act).gone && (act.Stop? ==> act.w in Do(s, act).gone)
  {
    hide MR.Step, After, TryEnqueue, MS.NextAssignment;
  }

  lemma DropsHow(s: System, act: Action, id: TaskId, a: WorkerId)
    requires Drops(s, act, id, a)
    ensures act.WorkerReads? || act.Stop? || act.Hangup?
  {
    hide Witness, Returning, TryEnqueue;
  }

  lemma SameMaster(s: System, act: Action)
    requires !act.Distribute? && !act.MasterReads? && !act.Disconnect?
    ensures Do(s, act).master == s.master
  {
  }

  // ---- the rest of the invariant --------------------------------------------------------------

  lemma DoMaster(s: System, act: Action)
    requires MS.Inv(s.master) && Can(s, act)
    ensures MS.Inv(Do(s, act).master) && Do(s, act).master.workers.Keys == s.master.workers.Keys
  {
    hide MS.Inv, MR.Step, MS.NextAssignment, After, TryEnqueue;
    match act
    case Distribute(now) =>
      MR.StepInv(s.master, MR.Distribute(now));
      MasterWorkers(s.master, MR.Distribute(now));
      DistributeStep(s.master, now);
    case MasterReads(w) =>
      if w in s.up && |s.up[w]| > 0 {
        MR.StepInv(s.master, MasterEvent(w, s.up[w][0]));
        MasterWorkers(s.master, MasterEvent(w, s.up[w][0]));
      }
    case Disconnect(w, order) =>
      MR.StepInv(s.master, MR.Lost(w, order));
      MasterWorkers(s.master, MR.Lost(w, order));
    case Hangup(_) =>
    case Stop(_) =>
    case WorkerReads(_, _) =>
    case WorkerReports(_, _) =>
    case WorkerStatus(_, _) =>
    case Internal(_) =>
  }

  lemma DistributeStep(m: MS.Master, now: real)
    ensures MR.Step(m, MR.Distribute(now)) == MS.NextAssignment(m, now).0
  {
  }

  /** The move of the cluster an action amounts to. */
  function MoveOf(s: System, act: Action): Move {
    if act.WorkerReads? && act.w in s.down && |s.down[act.w]| > 0
    then MAdmit(act.w, s.down[act.w][0].task.(enqueuedAt := act.now), s.down[act.w][0].priority)
    else if act.WorkerReports? then MReport(act.w)
    else if act.Internal? then act.move
    else MTake("")
  }

  lemma ClusterStep(s: System, act: Action)
    ensures var r, mv := Do(s, act), MoveOf(s, act);
            || r.cluster == s.cluster
            || (r.cluster == After(s.cluster, mv) && Runs(s.cluster, s.gone, mv)
                && (mv.MAdmit? ==> act.WorkerReads? && act.w !in s.gone && act.w in s.down && |s.down[act.w]| > 0))
  {
    hide After, MR.Step, TryEnqueue;
  }

  lemma DoCluster(s: System, act: Action)
    requires ClusterInv(s.cluster) && Conserved(s.cluster)
    ensures ClusterInv(Do(s, act).cluster) && Conserved(Do(s, act).cluster)
    ensures Do(s, act).cluster.nodes.Keys == s.cluster.nodes.Keys
  {
    hide ClusterInv, Conserved, After, Do, MoveOf;
    ClusterStep(s, act);
    AfterInv(s.cluster, MoveOf(s, act));
    AfterConserved(s.cluster, MoveOf(s, act));
    AfterNodes(s.cluster, MoveOf(s, act));
  }

  lemma SizesStay(s: System, act: Action)
    requires Wired(s)
    ensures AllOfSize(Do(s, act).cluster, QUEUE_CAPACITY)
  {
    hide After, Do, MoveOf, AllOfSize, WellAddressed, InOrder;
    ClusterStep(s, act);
    AfterSize(s.cluster, MoveOf(s, act), QUEUE_CAPACITY);
  }

  lemma DoWired(s: System, act: Action)
    requires Wired(s) && MS.Inv(s.master) && ClusterInv(s.cluster) && Conserved(s.cluster) && Can(s, act)
    ensures Wired(Do(s, act))
  {
    hide ClusterInv, Conserved, MS.Inv, MR.Step, After, MS.NextAssignment;
    hide Assign, ReadOrder, SendResult, SendStatus, ReadReport, Wired;
    DoMaster(s, act);
    DoCluster(s, act);
    SizesStay(s, act);
    match act
    case Distribute(now) => AssignWired(s, now); SameWiring(s, act);
    case WorkerReads(w, now) => ReadWired(s, w, now); SameWiring(s, act);
    case MasterReads(_) => SameWiring(s, act);
    case Disconnect(_, _) => SameWiring(s, act);
    case Hangup(_) => SameWiring(s, act);
    case Stop(_) => SameWiring(s, act);
    case WorkerReports(_, _) => SameWiring(s, act);
    case WorkerStatus(_, _) => SameWiring(s, act);
    case Internal(_) => SameWiring(s, act);
  }

  ghost predicate WellAddressed(s: System) {
    && (forall n :: n in s.refused ==> n < s.serial)
    && (forall id :: id in s.current ==> s.current[id] < s.serial)
    && (forall w, o :: w in s.down && o in s.down[w] ==> o.serial < s.serial && o.task.assignment == Some(w))
  }

  /** On each connection the TASKs are in the order of their assignments. */
  ghost predicate InOrder(down: map<WorkerId, seq<Order>>) {
    forall w, i, j :: w in down && 0 <= i < j < |down[w]| ==> down[w][i].serial < down[w][j].serial
  }

  lemma SameWiring(s: System, act: Action)
    requires Wired(s)
    requires Do(s, act).master.workers.Keys == s.master.workers.Keys
    requires Do(s, act).cluster.nodes.Keys == s.cluster.nodes.Keys
    requires AllOfSize(Do(s, act).cluster, QUEUE_CAPACITY)
    requires act.Distribute? || act.WorkerReads? ==> WellAddressed(Do(s, act)) && InOrder(Do(s, act).down)
    ensures Wired(Do(s, act))
  {
    hide WellAddressed, InOrder, AllOfSize, Do;
    SameKeys(s, act);
    if !act.Distribute? && !act.WorkerReads? { SameOrders(s, act); SameAddresses(s, Do(s, act)); }
  }

  lemma SameAddresses(s: System, r: System)
    requires WellAddressed(s) && r.down == s.down && r.serial == s.serial && r.current == s.current
    requires r.refused == s.refused
    ensures WellAddressed(r)
  {
  }

  lemma SameKeys(s: System, act: Action)
    ensures Do(s, act).down.Keys == s.down.Keys && Do(s, act).up.Keys == s.up.Keys
  {
  }

  lemma SameOrders(s: System, act: Action)
    requires !act.Distribute? && !act.WorkerReads?
    ensures var r := Do(s, act);
            r.down == s.down && r.serial == s.serial && r.current == s.current && r.refused == s.refused
  {
  }

  /** Reading a TASK takes it off its connection, and changes no address. */
  lemma ReadTakes(s: System, w: WorkerId, now: real)
    ensures var r := Do(s, WorkerReads(w, now));
            && r.serial == s.serial && r.current == s.current
            && (r == s || (w in s.down && |s.down[w]| > 0 && r.down == s.down[w := s.down[w][1..]]
                           && r.refused <= s.refused + {s.down[w][0].serial}))
  {
    hide After, TryEnqueue;
  }

  lemma ReadWired(s: System, w: WorkerId, now: real)
    requires Wired(s)
    ensures var r := Do(s, WorkerReads(w, now)); WellAddressed(r) && InOrder(r.down)
  {
    hide Do;
    ReadTakes(s, w, now);
    if Do(s, WorkerReads(w, now)) != s {
      assert s.down[w][0] in s.down[w] && forall o :: o in s.down[w][1..] ==> o in s.down[w];
    }
  }

  /** The record of a task just assigned names the worker it is sent to. */
  lemma IssuedTask(m: MS.Master, now: real)
    requires MS.Inv(m)
    ensures var r := MS.NextAssignment(m, now).0;
            var got := MS.NextAssignment(m, now).1;
            got.Some? ==>
              && got.value.worker in m.workers
              && got.value.id in r.tasks
              && r.tasks[got.value.id].assignment == Some(got.value.worker)
  {
  }

  lemma AssignWired(s: System, now: real)
    requires Wired(s) && MS.Inv(s.master)
    ensures WellAddressed(Assign(s, now)) && InOrder(Assign(s, now).down)
  {
    hide MS.Inv, MS.NextAssignment;
    IssuedTask(s.master, now);
  }

  lemma DoInv(s: System, act: Action)
    requires SystemInv(s) && Can(s, act)
    ensures SystemInv(Do(s, act))
  {
    hide MS.Inv, ClusterInv, Conserved, Wired, AllTraceable, Do;
    DoMaster(s, act);
    DoCluster(s, act);
    DoWired(s, act);
    DoTraceable(s, act);
  }

  lemma {:induction false} ExecuteInv(s: System, acts: seq<Action>)
    requires SystemInv(s) && AllCan(s, acts)
    ensures SystemInv(Execute(s, acts))
    decreases |acts|
  {
    hide SystemInv, Do, Can;
    if |acts| == 0 {
    } else {
      DoInv(s, acts[0]);
      ExecuteInv(Do(s, acts[0]), acts[1..]);
    }
  }
}
