/** Whole runs of the master: any interleaving of its locked sections, with an account of what happened. */
module MasterRuns {
  import opened Basics
  import opened Models
  import opened MasterSpec
  import opened MasterLaws

  datatype Event =
    | Distribute(now: real)
    | Success(id: TaskId, assignee: WorkerId)
    | Failure(sender: WorkerId, id: TaskId, assignee: WorkerId, overflow: bool)
    | QueueStatus(worker: WorkerId, size: int, capacity: int)
    | Lost(worker: WorkerId, order: seq<TaskId>)

  /** The only constraint on an event: a disconnect visits each task of the worker once. */
  ghost predicate Possible(m: Master, e: Event) {
    e.Lost? ==> e.worker in m.workers && (m.workers[e.worker].connected ==> Lists(e.order, m.workers[e.worker].held))
  }

  ghost function Step(m: Master, e: Event): Master {
    match e
    case Distribute(now) => NextAssignment(m, now).0
    case Success(id, a) => Succeed(m, id, a)
    case Failure(s, id, a, overflow) => Fail(m, s, id, a, overflow)
    case QueueStatus(w, size, capacity) => Report(m, w, size, capacity)
    case Lost(w, order) => Disconnect(m, w, order)
  }

  datatype Entry =
    | Issued(id: TaskId)
    | Completed(id: TaskId)
    | Failed(id: TaskId)
    | Overflowed(id: TaskId)
    | Requeued(id: TaskId)

  /** What an event adds to the account. */
  ghost function Effects(m: Master, e: Event): multiset<Entry> {
    match e
    case Distribute(now) =>
      if NextAssignment(m, now).1.Some? then multiset{Issued(NextAssignment(m, now).1.value.id)} else multiset{}
    case Success(id, a) => if Accepts(m, id, a) then multiset{Completed(id)} else multiset{}
    case Failure(_, id, a, overflow) =>
      if !Accepts(m, id, a) then multiset{} else if overflow then multiset{Overflowed(id)} else multiset{Failed(id)}
    case QueueStatus(_, _, _) => multiset{}
    case Lost(w, _) =>
      if w in m.workers && m.workers[w].connected
      then multiset(set id | id in m.workers[w].held :: Requeued(id)) else multiset{}
  }

  /** An event that assigns, completes, fails or disconnects; all others leave every task where it was. */
  ghost predicate Effective(m: Master, e: Event) {
    match e
    case Distribute(now) => NextAssignment(m, now).1.Some?
    case Success(id, a) => Accepts(m, id, a)
    case Failure(_, id, a, _) => Accepts(m, id, a)
    case QueueStatus(_, _, _) => false
    case Lost(w, _) => w in m.workers && m.workers[w].connected
  }

  function Bit(b: bool): nat {
    if b then 1 else 0
  }

  /** A master together with the account of the run that led to it. */
  datatype History = History(
    master: Master,
    log: multiset<Entry>,
    effective: nat,
    issued: nat,
    failures: nat,
    requeued: nat)

  ghost function Record(h: History, e: Event): History {
    var m := h.master;
    History(Step(m, e), h.log + Effects(m, e),
      h.effective + Bit(Effective(m, e)),
      h.issued + Bit(e.Distribute? && Effective(m, e)),
      h.failures + Bit(e.Failure? && Effective(m, e)),
      h.requeued + (if e.Lost? && Effective(m, e) then |m.workers[e.worker].held| else 0))
  }

  ghost predicate AllPossible(m: Master, es: seq<Event>)
    decreases |es|
  {
    |es| == 0 || (Possible(m, es[0]) && AllPossible(Step(m, es[0]), es[1..]))
  }

  ghost function Run(h: History, es: seq<Event>): History
    decreases |es|
  {
    if |es| == 0 then h else Run(Record(h, es[0]), es[1..])
  }

  ghost function Start(m: Master): History {
    History(m, multiset{}, 0, 0, 0, 0)
  }

  lemma StepInv(m: Master, e: Event)
    requires Inv(m) && Possible(m, e)
    ensures Inv(Step(m, e))
  {
    hide Inv;
    match e
    case Distribute(now) => NextInv(m, now);
    case Success(id, a) => SucceedInv(m, id, a);
    case Failure(s, id, a, overflow) => FailInv(m, s, id, a, overflow);
    case QueueStatus(w, size, capacity) => ReportInv(m, w, size, capacity);
    case Lost(w, order) => if m.workers[w].connected { DisconnectInv(m, w, order); }
  }

  // ---- accounting -----------------------------------------------------------------------------

  /** The account of one task: every assignment issued is done, still out, failed, refused or requeued. */
  ghost predicate TaskAccount(h: History, id: TaskId)
    requires id in h.master.tasks && id in h.master.state
  {
    && h.log[Issued(id)] == Bit(h.master.state[id] == Done) + Bit(h.master.state[id] == Assigned)
                            + h.log[Failed(id)] + h.log[Overflowed(id)] + h.log[Requeued(id)]
    && h.log[Completed(id)] == Bit(h.master.state[id] == Done)
    && h.log[Failed(id)] == h.master.tasks[id].attempt
  }

  ghost predicate Accounted(h: History) {
    && h.master.state.Keys == h.master.tasks.Keys
    && (forall id :: id in h.master.tasks ==> TaskAccount(h, id))
  }

  lemma AccountDistribute(h: History, now: real, id: TaskId)
    requires Inv(h.master) && Accounted(h) && id in h.master.tasks
    ensures var h' := Record(h, Distribute(now));
            h'.master.state.Keys == h'.master.tasks.Keys == h.master.tasks.Keys && TaskAccount(h', id)
  {
    hide Inv, NextAssignment, IsBest;
    NextLaw(h.master, now);
    assert TaskAccount(h, id);
    var (r, got) := NextAssignment(h.master, now);
    if got.Some? {
      AccountIssue(h, r, got.value.id, got.value.worker, now, id);
    }
  }

  lemma AccountIssue(h: History, r: Master, x: TaskId, w: WorkerId, now: real, id: TaskId)
    requires TaskAccountable(h, id) && x in h.master.tasks && x in h.master.state && w in h.master.workers
    requires h.master.state[x] != Assigned && h.master.state[x] != Done
    requires r.tasks == AssignTo(h.master, x, w, now).tasks && r.state == AssignTo(h.master, x, w, now).state
    ensures r.state.Keys == h.master.state.Keys && r.tasks.Keys == h.master.tasks.Keys
    ensures TaskAccount(h.(master := r, log := h.log + multiset{Issued(x)}), id)
  {
  }

  ghost predicate TaskAccountable(h: History, id: TaskId) {
    id in h.master.tasks && id in h.master.state && TaskAccount(h, id)
  }

  /** A result counted for `x` ends its assignment. */
  lemma AccountEnd(h: History, r: Master, x: TaskId, entry: Entry, id: TaskId)
    requires TaskAccountable(h, id) && x in h.master.tasks && x in h.master.state && h.master.state[x] == Assigned
    requires
      || (entry == Completed(x) && r.state == h.master.state[x := Done] && r.tasks == h.master.tasks)
      || (entry == Overflowed(x) && r.state == h.master.state[x := Retry] && x in r.tasks &&
          r.tasks == h.master.tasks[x := r.tasks[x]]
          && r.tasks[x].attempt == h.master.tasks[x].attempt)
      || (entry == Failed(x) && r.state == h.master.state[x := Retry] && x in r.tasks &&
          r.tasks == h.master.tasks[x := r.tasks[x]]
          && r.tasks[x].attempt == h.master.tasks[x].attempt + 1)
    ensures r.state.Keys == h.master.state.Keys && r.tasks.Keys == h.master.tasks.Keys
    ensures TaskAccount(h.(master := r, log := h.log + multiset{entry}), id)
  {
  }

  lemma AccountResult(h: History, e: Event, id: TaskId)
    requires Accounted(h) && id in h.master.tasks && (e.Success? || e.Failure?)
    ensures var h' := Record(h, e);
            h'.master.state.Keys == h'.master.tasks.Keys == h.master.tasks.Keys && TaskAccount(h', id)
  {
    hide ClearAssignment;
    assert TaskAccount(h, id);
    if Effective(h.master, e) {
      hide TaskAccount;
      var entry := if e.Success? then Completed(e.id) else if e.overflow then Overflowed(e.id) else Failed(e.id);
      AccountEnd(h, Step(h.master, e), e.id, entry, id);
      SameAccount(h.(master := Step(h.master, e), log := h.log + multiset{entry}), Record(h, e), id);
    }
  }

  lemma SameAccount(h: History, h': History, id: TaskId)
    requires id in h.master.tasks && id in h.master.state && TaskAccount(h, id) && h'.master == h.master
    requires h'.log == h.log
    ensures TaskAccount(h', id)
  {
  }

  lemma AccountStatus(h: History, e: Event, id: TaskId)
    requires Accounted(h) && id in h.master.tasks && e.QueueStatus?
    ensures var h' := Record(h, e);
            h'.master.state.Keys == h'.master.tasks.Keys == h.master.tasks.Keys && TaskAccount(h', id)
  {
  }

  lemma AccountRequeue(h: History, r: Master, held: set<TaskId>, w: WorkerId, id: TaskId)
    requires TaskAccountable(h, id) && r.state == MarkRetry(h.master.state, held)
    requires r.tasks == Requeue(h.master.tasks, held, w)
    requires forall x :: x in held ==> x in h.master.state && h.master.state[x] == Assigned
    ensures r.state.Keys == h.master.state.Keys && r.tasks.Keys == h.master.tasks.Keys
    ensures TaskAccount(h.(master := r, log := h.log + multiset(set x | x in held :: Requeued(x))), id)
  {
  }

  lemma AccountLost(h: History, e: Event, id: TaskId)
    requires Inv(h.master) && Accounted(h) && id in h.master.tasks && e.Lost? && Possible(h.master, e)
    ensures var h' := Record(h, e);
            h'.master.state.Keys == h'.master.tasks.Keys == h.master.tasks.Keys && TaskAccount(h', id)
  {
    hide Stored, Queues, Tables, Requeue, MarkRetry;
    var m := h.master;
    assert TaskAccount(h, id);
    if m.workers[e.worker].connected {
      assert Holds(m.tasks, m.state, m.workers[e.worker], e.worker);
      hide Inv, TaskAccount;
      var held := m.workers[e.worker].held;
      AccountRequeue(h, Step(m, e), held, e.worker, id);
      assert Effects(m, e) == multiset(set x | x in held :: Requeued(x));
      SameAccount(h.(master := Step(m, e), log := h.log + Effects(m, e)), Record(h, e), id);
    }
  }

  lemma AccountStep(h: History, e: Event)
    requires Inv(h.master) && Accounted(h) && Possible(h.master, e)
    ensures Accounted(Record(h, e))
  {
    var h' := Record(h, e);
    TasksStay(h.master, e);
    assert h'.master == Step(h.master, e);
    hide Inv, Record;
    forall id | id in h.master.tasks
      ensures h'.master.state.Keys == h'.master.tasks.Keys == h.master.tasks.Keys && TaskAccount(h', id)
    {
      match e
      case Distribute(now) => AccountDistribute(h, now, id);
      case Success(_, _) => AccountResult(h, e, id);
      case Failure(_, _, _, _) => AccountResult(h, e, id);
      case QueueStatus(_, _, _) => AccountStatus(h, e, id);
      case Lost(_, _) => AccountLost(h, e, id);
    }
  }

  /** The same tasks, with the same keys and values. */
  ghost predicate SameTasks(m: Master, r: Master) {
    && r.tasks.Keys == r.state.Keys == m.tasks.Keys
    && forall id :: id in m.tasks ==> r.tasks[id].key == m.tasks[id].key && r.tasks[id].value == m.tasks[id].value
  }

  lemma DistributeStays(m: Master, now: real)
    requires Inv(m)
    ensures SameTasks(m, NextAssignment(m, now).0)
  {
    hide NextAssignment, IsBest, Stored, Owned, Queues;
    NextLaw(m, now);
  }

  lemma ResultStays(m: Master, sender: WorkerId, id: TaskId, assignee: WorkerId, overflow: bool)
    requires m.state.Keys == m.tasks.Keys
    ensures SameTasks(m, Succeed(m, id, assignee)) && SameTasks(m, Fail(m, sender, id, assignee, overflow))
  {
  }

  lemma LostStays(m: Master, w: WorkerId, order: seq<TaskId>)
    requires m.state.Keys == m.tasks.Keys
    ensures SameTasks(m, Disconnect(m, w, order))
  {
  }

  /** No event adds or drops a task, or touches a key or a value. */
  lemma TasksStay(m: Master, e: Event)
    requires Inv(m)
    ensures SameTasks(m, Step(m, e))
  {
    hide SameTasks, NextAssignment, Succeed, Fail, Disconnect, Stored, Owned, Queues;
    match e
    case Distribute(now) => DistributeStays(m, now);
    case Success(id, a) => ResultStays(m, "", id, a, false);
    case Failure(s, id, a, overflow) => ResultStays(m, s, id, a, overflow);
    case QueueStatus(w, size, capacity) => ReportStays(m, w, size, capacity);
    case Lost(w, order) => LostStays(m, w, order);
  }

  lemma ReportStays(m: Master, w: WorkerId, size: int, capacity: int)
    requires m.state.Keys == m.tasks.Keys
    ensures SameTasks(m, Report(m, w, size, capacity))
  {
  }

  // ---- termination ----------------------------------------------------------------------------

  function Connected(m: Master): set<WorkerId> {
    set w | w in m.workers && m.workers[w].connected
  }

  /** Waiting tasks weigh 2, assigned ones 1; a connected worker weighs more than all tasks changing at once. */
  function Potential(m: Master): nat {
    2 * (|m.normal| + |m.retry|) + |InState(m.state, Assigned)| + (|m.tasks| + 1) * |Connected(m)|
  }

  lemma AssignCounts(m: Master, id: TaskId, w: WorkerId, now: real)
    requires id in m.tasks && id in m.state && m.state[id] != Assigned && w in m.workers
    ensures var r := AssignTo(m, id, w, now);
            && |InState(r.state, Assigned)| == |InState(m.state, Assigned)| + 1
            && Connected(r) == Connected(m) && |r.tasks| == |m.tasks|
  {
    var r := AssignTo(m, id, w, now);
    assert InState(r.state, Assigned) == InState(m.state, Assigned) + {id};
    assert r.tasks.Keys == m.tasks.Keys;
    assert |r.tasks| == |r.tasks.Keys| == |m.tasks|;
  }

  lemma SameCounts(m: Master, r: Master)
    requires r.state == m.state && r.workers == m.workers && r.tasks == m.tasks
    ensures InState(r.state, Assigned) == InState(m.state, Assigned) && Connected(r) == Connected(m)
    ensures |r.tasks| == |m.tasks|
  {
  }

  lemma DropDistribute(m: Master, now: real)
    requires Inv(m)
    ensures Potential(NextAssignment(m, now).0) + Bit(NextAssignment(m, now).1.Some?) == Potential(m)
  {
    hide NextAssignment, IsBest, Inv, InState, Connected, AssignTo;
    NextLaw(m, now);
    var (r, got) := NextAssignment(m, now);
    if got.Some? {
      AssignCounts(m, got.value.id, got.value.worker, now);
      SameCounts(AssignTo(m, got.value.id, got.value.worker, now), r);
    } else {
      SameCounts(m, r);
    }
  }

  lemma DropAccepted(m: Master, id: TaskId, assignee: WorkerId, s: Status)
    requires Accepts(m, id, assignee) && s != Assigned
    ensures |InState(m.state[id := s], Assigned)| == |InState(m.state, Assigned)| - 1
    ensures forall m': Master :: m'.workers == ClearAssignment(m.workers, id) ==> Connected(m') == Connected(m)
  {
    assert InState(m.state[id := s], Assigned) == InState(m.state, Assigned) - {id};
  }

  lemma DropSuccess(m: Master, id: TaskId, assignee: WorkerId)
    ensures Potential(Succeed(m, id, assignee)) + Bit(Accepts(m, id, assignee)) == Potential(m)
  {
    if Accepts(m, id, assignee) {
      DropAccepted(m, id, assignee, Done);
      hide InState, Connected;
      assert Connected(Succeed(m, id, assignee)) == Connected(m);
    }
  }

  lemma DropFailure(m: Master, sender: WorkerId, id: TaskId, assignee: WorkerId, overflow: bool)
    ensures Potential(Fail(m, sender, id, assignee, overflow)) == Potential(m) + Bit(Accepts(m, id, assignee))
  {
    if Accepts(m, id, assignee) {
      DropAccepted(m, id, assignee, Retry);
      hide InState, Connected;
      var r := Fail(m, sender, id, assignee, overflow);
      assert Connected(r) == Connected(m);
      assert r.tasks.Keys == m.tasks.Keys;
      assert |r.tasks| == |m.tasks|;
    }
  }

  lemma DropStatus(m: Master, w: WorkerId, size: int, capacity: int)
    ensures Potential(Report(m, w, size, capacity)) == Potential(m)
  {
    assert Connected(Report(m, w, size, capacity)) == Connected(m);
  }

  lemma LostCounts(m: Master, w: WorkerId, order: seq<TaskId>)
    requires Inv(m) && Possible(m, Lost(w, order)) && m.workers[w].connected
    ensures var r := Disconnect(m, w, order);
            && |order| <= |m.tasks| && |r.retry| == |m.retry| + |order|
            && |InState(r.state, Assigned)| == |InState(m.state, Assigned)| - |order|
  {
    var ids := m.workers[w].held;
    DisconnectOwned(m, w, order);
    DisconnectQueues(m, ids, order);
    NoDupCount(order);
    assert ids <= m.tasks.Keys;
    SubsetCount(ids, m.tasks.Keys);
    hide Inv;
  }

  lemma OneLess(m: Master, w: WorkerId, order: seq<TaskId>)
    requires w in m.workers && m.workers[w].connected
    ensures var r := Disconnect(m, w, order);
            |Connected(r)| == |Connected(m)| - 1 && |r.tasks| == |m.tasks| && r.normal == m.normal
  {
    var r := Disconnect(m, w, order);
    assert Connected(r) == Connected(m) - {w};
    assert r.tasks.Keys == m.tasks.Keys;
    assert |r.tasks| == |r.tasks.Keys| == |m.tasks|;
  }

  lemma Lighter(queued: int, out: int, moved: int, n: int, c: int)
    requires moved < n
    ensures 2 * (queued + moved) + (out - moved) + n * c + 1 <= 2 * queued + out + n * (c + 1)
  {
  }

  lemma DropLost(m: Master, w: WorkerId, order: seq<TaskId>)
    requires Inv(m) && Possible(m, Lost(w, order)) && m.workers[w].connected
    ensures Potential(Disconnect(m, w, order)) + 1 <= Potential(m)
  {
    hide Inv, InState, Connected, Disconnect;
    LostCounts(m, w, order);
    OneLess(m, w, order);
    var r := Disconnect(m, w, order);
    Lighter(|m.normal| + |m.retry|, |InState(m.state, Assigned)|, |order|, |m.tasks| + 1, |Connected(r)|);
  }

  /** Every effective event uses up potential; only an accepted failure gives some back. */
  lemma StepDrops(m: Master, e: Event)
    requires Inv(m) && Possible(m, e)
    ensures Potential(Step(m, e)) + Bit(Effective(m, e)) <= Potential(m) + 2 * Bit(e.Failure? && Effective(m, e))
  {
    hide Inv, Potential, NextAssignment, Disconnect, Fail, Succeed, Report;
    match e
    case Distribute(now) => DropDistribute(m, now);
    case Success(id, a) => DropSuccess(m, id, a);
    case Failure(s, id, a, overflow) => DropFailure(m, s, id, a, overflow);
    case QueueStatus(w, size, capacity) => DropStatus(m, w, size, capacity);
    case Lost(w, order) => if m.workers[w].connected { DropLost(m, w, order); } else { LostTwice(m, w, order); }
  }

  // ---- totals ---------------------------------------------------------------------------------

  /** Assignments issued, over all tasks: in the store, out with a worker, failed or requeued. */
  ghost predicate Balanced(h: History) {
    h.issued == |h.master.store| + |InState(h.master.state, Assigned)| + h.failures + h.requeued
  }

  lemma BalanceResult(m: Master, id: TaskId, assignee: WorkerId, sender: WorkerId, overflow: bool)
    requires Inv(m) && Accepts(m, id, assignee)
    ensures |Succeed(m, id, assignee).store| == |m.store| + 1
    ensures |InState(Succeed(m, id, assignee).state, Assigned)| == |InState(m.state, Assigned)| - 1
    ensures |InState(Fail(m, sender, id, assignee, overflow).state, Assigned)| == |InState(m.state, Assigned)| - 1
  {
    FreshKey(m, id);
    OneMore(m.store, m.tasks[id].key, m.tasks[id].value, m.state, id);
    DropAccepted(m, id, assignee, Done);
    DropAccepted(m, id, assignee, Retry);
    hide Inv, InState;
  }

  lemma BalanceDistribute(h: History, now: real)
    requires Inv(h.master) && Balanced(h)
    ensures Balanced(Record(h, Distribute(now)))
  {
    NextLaw(h.master, now);
    hide Inv, NextAssignment, InState;
    var got := NextAssignment(h.master, now).1;
    if got.Some? { AssignCounts(h.master, got.value.id, got.value.worker, now); }
  }

  lemma BalanceLost(h: History, w: WorkerId, order: seq<TaskId>)
    requires Inv(h.master) && Balanced(h) && Possible(h.master, Lost(w, order))
    ensures Balanced(Record(h, Lost(w, order)))
  {
    if h.master.workers[w].connected {
      LostCounts(h.master, w, order);
      NoDupCount(order);
      hide Inv, InState;
    }
  }

  lemma BalanceStep(h: History, e: Event)
    requires Inv(h.master) && Balanced(h) && Possible(h.master, e)
    ensures Balanced(Record(h, e))
  {
    hide InState, Inv;
    match e
    case Distribute(now) => BalanceDistribute(h, now);
    case Success(id, a) => if Accepts(h.master, id, a) { BalanceResult(h.master, id, a, a, false); }
    case Failure(s, id, a, overflow) => if Accepts(h.master, id, a) { BalanceResult(h.master, id, a, s, overflow); }
    case QueueStatus(_, _, _) =>
    case Lost(w, order) => BalanceLost(h, w, order);
  }

  // ---- whole runs -----------------------------------------------------------------------------

  /** Only a success touches the store. */
  lemma StoreKept(m: Master, e: Event)
    requires Inv(m) && !e.Success?
    ensures Step(m, e).store == m.store
  {
    hide Inv, NextAssignment, IsBest, AssignTo;
    if e.Distribute? { NextLaw(m, e.now); }
  }

  /** Stored entries stay as they are. */
  lemma StoreGrows(m: Master, e: Event)
    requires Inv(m)
    ensures forall k :: k in m.store ==> k in Step(m, e).store && Step(m, e).store[k] == m.store[k]
  {
    hide Inv, NextAssignment, Step;
    if e.Success? { SuccessAdds(m, e.id, e.assignee); } else { StoreKept(m, e); }
  }

  lemma SuccessAdds(m: Master, id: TaskId, assignee: WorkerId)
    requires Inv(m)
    ensures Step(m, Success(id, assignee)) == Succeed(m, id, assignee)
    ensures forall k :: k in m.store ==>
            k in Succeed(m, id, assignee).store && Succeed(m, id, assignee).store[k] == m.store[k]
  {
  }

  ghost predicate Sound(h: History, bound: nat) {
    && Inv(h.master) && Accounted(h) && Balanced(h)
    && h.effective + Potential(h.master) <= bound + 2 * h.failures
  }

  lemma SoundStep(h: History, e: Event, bound: nat)
    requires Sound(h, bound) && Possible(h.master, e)
    ensures Sound(Record(h, e), bound)
  {
    StepInv(h.master, e);
    AccountStep(h, e);
    BalanceStep(h, e);
    StepDrops(h.master, e);
    hide Inv, Accounted, Balanced, Potential, Step, Effective, Effects;
  }

  lemma {:induction false} RunSound(h: History, es: seq<Event>, bound: nat)
    requires Sound(h, bound) && AllPossible(h.master, es)
    ensures Sound(Run(h, es), bound)
    ensures forall k :: k in h.master.store ==>
            k in Run(h, es).master.store && Run(h, es).master.store[k] == h.master.store[k]
    decreases |es|
  {
    if |es| == 0 {
    } else {
      SoundStep(h, es[0], bound);
      StoreGrows(h.master, es[0]);
      hide Sound, Step, Effects, Effective;
      RunSound(Record(h, es[0]), es[1..], bound);
    }
  }

  lemma StartSound(m: Master)
    requires Initial(m)
    ensures Sound(Start(m), 2 * |m.tasks| + (|m.tasks| + 1) * |m.workers|)
  {
    hide Initial, Inv, InState, Connected;
    InitialInv(m);
    StartAccounted(m);
    StartCounts(m);
  }

  lemma StartAccounted(m: Master)
    requires Initial(m)
    ensures Accounted(Start(m))
  {
    hide Tables, Queues, Sizes, Owned;
    forall id | id in m.tasks ensures TaskAccount(Start(m), id) { }
  }

  lemma StartCounts(m: Master)
    requires Initial(m)
    ensures |m.normal| == |m.tasks| && m.retry == [] && |m.store| == 0
    ensures InState(m.state, Assigned) == {} && |Connected(m)| == |m.workers|
  {
    hide Tables, Sizes, Owned;
    NoDupCount(m.normal);
    assert Connected(m) == m.workers.Keys;
    assert |m.normal| == |m.tasks.Keys| == |m.tasks|;
  }

  /**
   * Any run from the start keeps the partition of the tasks, balances the account per task and in total,
   * and, with F accepted failures, holds at most 2N + (N + 1)W + 2F events that change anything.
   */
  lemma EveryRun(m: Master, es: seq<Event>)
    requires Initial(m) && AllPossible(m, es)
    ensures var h := Run(Start(m), es);
            && Inv(h.master) && Accounted(h) && Balanced(h)
            && h.effective <= 2 * |m.tasks| + (|m.tasks| + 1) * |m.workers| + 2 * h.failures
  {
    StartSound(m);
    hide Inv, Accounted, Balanced;
    RunSound(Start(m), es, 2 * |m.tasks| + (|m.tasks| + 1) * |m.workers|);
    hide Run;
  }

  /**
   * The distribution loop's exit test: the store is full exactly when every task is done, and then nothing is left
   * over.
   */
  lemma Completion(m: Master)
    requires Inv(m)
    ensures |m.store| == |m.tasks| <==> forall id :: id in m.tasks ==> m.state[id] == Done
    ensures |m.store| == |m.tasks| ==>
              && m.normal == [] && m.retry == []
              && (forall w :: w in m.workers ==> m.workers[w].held == {})
              && (forall k, v :: k in m.store && m.store[k] == v <==> IsStored(m.tasks, m.state, k, v))
  {
    var done := InState(m.state, Done);
    assert done <= m.tasks.Keys;
    SubsetCount(done, m.tasks.Keys);
    assert |m.tasks| == |m.tasks.Keys|;
    if done == m.tasks.Keys {
      assert forall id :: id in m.state ==> id in done;
      NonEmpty(m.normal);
      NonEmpty(m.retry);
      forall w | w in m.workers ensures m.workers[w].held == {} {
        assert Holds(m.tasks, m.state, m.workers[w], w);
      }
    } else {
      var id :| id in m.tasks && id !in done;
    }
  }
}
