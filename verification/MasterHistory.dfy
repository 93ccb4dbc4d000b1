/**
 * The history of assignments: which worker each task was given to, and where each assignment that did not
 * succeed came to its end. What the choice of a worker owes to that history is stated on the history alone.
 */
module MasterHistory {
  import opened Basics
  import opened Models
  import opened MasterSpec
  import opened MasterLaws
  import opened MasterRuns

  /**
   * A task given to a worker, with the master just before; or an assignment ended by a failure, overflow or
   * disconnect.
   */
  datatype Mark =
    | Given(id: TaskId, worker: WorkerId, priority: bool, before: Master)
    | Ended(id: TaskId, worker: WorkerId)

  function EndedAll(order: seq<TaskId>, w: WorkerId): seq<Mark> {
    if |order| == 0 then [] else EndedAll(order[..|order| - 1], w) + [Ended(order[|order| - 1], w)]
  }

  ghost function Marks(m: Master, e: Event): seq<Mark> {
    match e
    case Distribute(now) =>
      var got := NextAssignment(m, now).1;
      if got.Some? then [Given(got.value.id, got.value.worker, got.value.priority, m)] else []
    case Failure(sender, id, a, _) => if Accepts(m, id, a) then [Ended(id, sender)] else []
    case Lost(w, order) => if w in m.workers && m.workers[w].connected then EndedAll(order, w) else []
    case Success(_, _) => []
    case QueueStatus(_, _, _) => []
  }

  ghost function Trail(m: Master, es: seq<Event>): seq<Mark>
    decreases |es|
  {
    if |es| == 0 then [] else Marks(m, es[0]) + Trail(Step(m, es[0]), es[1..])
  }

  /** Where the task's assignment ended last. */
  function LastEnd(trail: seq<Mark>, id: TaskId): Option<WorkerId> {
    if |trail| == 0 then None else
      var x := trail[|trail| - 1];
      if x.Ended? && x.id == id then Some(x.worker) else LastEnd(trail[..|trail| - 1], id)
  }

  /**
   * Given its past, the task goes to a connected worker with room where its assignment did not end last; no other
   * such worker has more room, and one with as much room has no smaller id. It goes with priority exactly if a retry
   * task waits. The recorded sizes are in range.
   */
  ghost predicate FairAt(past: seq<Mark>, x: Mark) {
    x.Given? ==>
      var last, ws, w := LastEnd(past, x.id), x.before.workers, x.worker;
      && (forall v :: v in ws ==> 0 <= ws[v].size <= ws[v].capacity == 10)
      && w in ws && ws[w].connected && ws[w].size < ws[w].capacity && last != Some(w)
      && (forall v :: v in ws && ws[v].connected && ws[v].size < ws[v].capacity && last != Some(v) ==>
            && ws[w].capacity - ws[w].size >= ws[v].capacity - ws[v].size
            && (ws[w].capacity - ws[w].size == ws[v].capacity - ws[v].size ==> LexLe(w, v)))
      && (x.priority <==> x.before.retry != [])
  }

  ghost predicate Fair(trail: seq<Mark>) {
    forall i :: 0 <= i < |trail| ==> FairAt(trail[..i], trail[i])
  }

  /** The record's last failing worker is the one in the history. */
  ghost predicate Remembers(m: Master, past: seq<Mark>) {
    forall id :: id in m.tasks ==> m.tasks[id].previous == LastEnd(past, id)
  }

  lemma LastEndAppend(past: seq<Mark>, x: Mark, id: TaskId)
    ensures LastEnd(past + [x], id) == if x.Ended? && x.id == id then Some(x.worker) else LastEnd(past, id)
  {
    assert (past + [x])[..|past|] == past;
  }

  lemma {:induction false} LastEndAll(past: seq<Mark>, order: seq<TaskId>, w: WorkerId, id: TaskId)
    ensures LastEnd(past + EndedAll(order, w), id) == if id in order then Some(w) else LastEnd(past, id)
  {
    if |order| == 0 {
      assert past + [] == past;
    } else {
      var n := |order| - 1;
      LastEndAll(past, order[..n], w, id);
      LastEndAppend(past + EndedAll(order[..n], w), Ended(order[n], w), id);
      assert past + EndedAll(order, w) == past + EndedAll(order[..n], w) + [Ended(order[n], w)];
      assert order == order[..n] + [order[n]];
    }
  }

  lemma FairAppend(past: seq<Mark>, x: Mark)
    requires Fair(past) && FairAt(past, x)
    ensures Fair(past + [x])
  {
    hide FairAt;
    forall i | 0 <= i < |past + [x]| ensures FairAt((past + [x])[..i], (past + [x])[i]) {
      assert (past + [x])[..i] == past[..i];
    }
  }

  lemma {:induction false} FairEnds(past: seq<Mark>, order: seq<TaskId>, w: WorkerId)
    requires Fair(past)
    ensures Fair(past + EndedAll(order, w))
  {
    hide Fair;
    if |order| == 0 {
      assert past + [] == past;
    } else {
      var n := |order| - 1;
      FairEnds(past, order[..n], w);
      FairAppend(past + EndedAll(order[..n], w), Ended(order[n], w));
      assert past + EndedAll(order, w) == past + EndedAll(order[..n], w) + [Ended(order[n], w)];
    }
  }

  // ---- one step ---------------------------------------------------------------------------------

  lemma GivenFair(m: Master, now: real, past: seq<Mark>)
    requires Inv(m) && Remembers(m, past) && NextAssignment(m, now).1.Some?
    ensures var got := NextAssignment(m, now).1.value; FairAt(past, Given(got.id, got.worker, got.priority, m))
  {
    hide NextAssignment, Inv, LastEnd;
    NextFields(m, now);
    InvSizes(m);
    assert m.tasks[NextAssignment(m, now).1.value.id].previous == LastEnd(past, NextAssignment(m, now).1.value.id);
  }

  lemma GivenRemembered(m: Master, now: real, past: seq<Mark>)
    requires Inv(m) && Remembers(m, past)
    ensures Remembers(NextAssignment(m, now).0, past + Marks(m, Distribute(now)))
  {
    hide NextAssignment, IsBest, Owned, Stored, Queues, Tables, Sizes, LastEnd;
    NextLaw(m, now);
    var (r, got) := NextAssignment(m, now);
    if got.Some? {
      forall id | id in r.tasks ensures r.tasks[id].previous == LastEnd(past + Marks(m, Distribute(now)), id) {
        LastEndAppend(past, Given(got.value.id, got.value.worker, got.value.priority, m), id);
      }
    } else {
      assert past + [] == past;
    }
  }

  lemma FailureRemembered(m: Master, e: Event, past: seq<Mark>)
    requires e.Failure? && Remembers(m, past)
    ensures Remembers(Step(m, e), past + Marks(m, e))
  {
    hide ClearAssignment, LastEnd;
    var r := Step(m, e);
    if Accepts(m, e.id, e.assignee) {
      forall id | id in r.tasks ensures r.tasks[id].previous == LastEnd(past + Marks(m, e), id) {
        LastEndAppend(past, Ended(e.id, e.sender), id);
      }
    } else {
      assert past + [] == past;
    }
  }

  lemma LostRemembered(m: Master, e: Event, past: seq<Mark>)
    requires e.Lost? && Possible(m, e) && Remembers(m, past)
    ensures Remembers(Step(m, e), past + Marks(m, e))
  {
    hide LastEnd, EndedAll;
    var r := Step(m, e);
    if m.workers[e.worker].connected {
      forall id | id in r.tasks ensures r.tasks[id].previous == LastEnd(past + Marks(m, e), id) {
        LastEndAll(past, e.order, e.worker, id);
        assert id in e.order <==> id in Elems(e.order);
      }
    } else {
      LostTwice(m, e.worker, e.order);
      assert past + [] == past;
    }
  }

  lemma StepFair(m: Master, e: Event, past: seq<Mark>)
    requires Inv(m) && Possible(m, e) && Remembers(m, past) && Fair(past)
    ensures Remembers(Step(m, e), past + Marks(m, e)) && Fair(past + Marks(m, e))
  {
    hide Inv, Fair, FairAt, LastEnd, NextAssignment, Fail, Disconnect, EndedAll, Accepts;
    assert past + [] == past;
    match e
    case Distribute(now) =>
      GivenRemembered(m, now, past);
      if NextAssignment(m, now).1.Some? {
        GivenFair(m, now, past);
        var got := NextAssignment(m, now).1.value;
        FairAppend(past, Given(got.id, got.worker, got.priority, m));
      }
    case Failure(sender, id, a, _) =>
      FailureRemembered(m, e, past);
      if Accepts(m, id, a) { EndFair(past, Ended(id, sender)); }
    case Lost(w, order) =>
      LostRemembered(m, e, past);
      FairEnds(past, order, w);
    case Success(_, _) =>
    case QueueStatus(_, _, _) =>
  }

  lemma EndFair(past: seq<Mark>, x: Mark)
    requires Fair(past) && x.Ended?
    ensures Fair(past + [x])
  {
    FairAppend(past, x);
  }

  lemma {:induction false} RunFair(h: History, es: seq<Event>, past: seq<Mark>)
    requires Inv(h.master) && AllPossible(h.master, es) && Remembers(h.master, past) && Fair(past)
    ensures Inv(Run(h, es).master) && Fair(past + Trail(h.master, es))
    decreases |es|
  {
    hide Inv, Fair, Step, Marks, Effects, Effective, Possible, Remembers;
    if |es| == 0 {
      assert past + [] == past;
    } else {
      var m := h.master;
      StepInv(m, es[0]);
      StepFair(m, es[0], past);
      RunFair(Record(h, es[0]), es[1..], past + Marks(m, es[0]));
      assert past + Marks(m, es[0]) + Trail(Step(m, es[0]), es[1..]) == past + Trail(m, es);
    }
  }

  // ---- every assignment of every run ------------------------------------------------------------

  /** What comes after an end is that end, or a later one. */
  lemma {:induction false} LaterEnd(trail: seq<Mark>, j: nat, id: TaskId, w: WorkerId)
    requires j < |trail| && trail[j] == Ended(id, w) && LastEnd(trail, id) != Some(w)
    ensures exists k :: j < k < |trail| && trail[k].Ended? && trail[k].id == id && trail[k].worker != w
    decreases |trail|
  {
    var n := |trail| - 1;
    var x := trail[n];
    if x.Ended? && x.id == id {
      assert LastEnd(trail, id) == Some(x.worker);
    } else {
      LaterEnd(trail[..n], j, id, w);
      var k :| j < k < n && trail[..n][k].Ended? && trail[..n][k].id == id && trail[..n][k].worker != w;
      assert trail[k] == trail[..n][k];
    }
  }

  /** Between the two, the task's assignment ended somewhere else than where `i` gives it. */
  ghost predicate EndedElsewhere(trail: seq<Mark>, j: int, i: int)
    requires 0 <= j < i < |trail| && trail[i].Given?
  {
    exists k :: j < k < i && trail[k].Ended? && trail[k].id == trail[i].id && trail[k].worker != trail[i].worker
  }

  /** No task is given back to the worker its last unsuccessful assignment ended at. */
  ghost predicate NeverStraightBack(trail: seq<Mark>) {
    forall i, j :: 0 <= j < i < |trail| && trail[i].Given? && trail[j] == Ended(trail[i].id, trail[i].worker) ==>
      EndedElsewhere(trail, j, i)
  }

  lemma FairNeverBack(trail: seq<Mark>)
    requires Fair(trail)
    ensures NeverStraightBack(trail)
  {
    hide LastEnd, Sizes, Precedes;
    forall i, j | 0 <= j < i < |trail| && trail[i].Given? && trail[j] == Ended(trail[i].id, trail[i].worker)
      ensures EndedElsewhere(trail, j, i)
    {
      assert FairAt(trail[..i], trail[i]);
      assert trail[..i][j] == trail[j];
      LaterEnd(trail[..i], j, trail[i].id, trail[i].worker);
      var k :| j < k < i && trail[..i][k].Ended? && trail[..i][k].id == trail[i].id &&
          trail[..i][k].worker != trail[i].worker;
      assert trail[k] == trail[..i][k];
    }
  }

  /**
   * Along every run: a task is never given to the worker where its latest failure, overflow or disconnect
   * happened; it goes to the best of the other connected workers with room; and every recorded queue size, then
   * and at the end, is within its capacity.
   */
  lemma EveryAssignment(m: Master, es: seq<Event>)
    requires Initial(m) && AllPossible(m, es)
    ensures var trail := Trail(m, es); Fair(trail) && NeverStraightBack(trail)
    ensures Sizes(Run(Start(m), es).master.workers)
  {
    hide Inv, Fair, Trail, Run, Tables, NeverStraightBack;
    InitialInv(m);
    NothingYet(m);
    RunFair(Start(m), es, []);
    assert [] + Trail(m, es) == Trail(m, es);
    FairNeverBack(Trail(m, es));
    InvSizes(Run(Start(m), es).master);
  }

  // ---- recorded queue sizes ---------------------------------------------------------------------

  /** How many of the assignments went to `w`. */
  function GivenTo(trail: seq<Mark>, w: WorkerId): nat {
    if |trail| == 0 then 0
    else (if trail[0].Given? && trail[0].worker == w then 1 else 0) + GivenTo(trail[1..], w)
  }

  lemma {:induction false} GivenToConcat(a: seq<Mark>, b: seq<Mark>, w: WorkerId)
    ensures GivenTo(a + b, w) == GivenTo(a, w) + GivenTo(b, w)
  {
    if |a| == 0 {
      assert a + b == b;
    } else {
      assert (a + b)[1..] == a[1..] + b;
      GivenToConcat(a[1..], b, w);
    }
  }

  lemma {:induction false} EndsGiveNothing(order: seq<TaskId>, v: WorkerId, w: WorkerId)
    ensures GivenTo(EndedAll(order, v), w) == 0
  {
    if |order| == 0 {
    } else {
      var n := |order| - 1;
      EndsGiveNothing(order[..n], v, w);
      GivenToConcat(EndedAll(order[..n], v), [Ended(order[n], v)], w);
    }
  }

  /** A well-formed queue status of `w`. */
  predicate Reported(e: Event, w: WorkerId) {
    e.QueueStatus? && e.worker == w && e.capacity == 10 && 0 <= e.size <= 10
  }

  lemma SizeStep(m: Master, e: Event, w: WorkerId)
    requires Inv(m) && w in m.workers
    ensures var r := Step(m, e);
            && w in r.workers
            && r.workers[w].size == if Reported(e, w) then e.size else m.workers[w].size + GivenTo(Marks(m, e), w)
  {
    hide Inv, NextAssignment, Requeue, MarkRetry;
    match e
    case Distribute(now) => NextFields(m, now);
    case Lost(v, order) => EndsGiveNothing(order, v, w);
    case Failure(_, _, _, _) =>
    case Success(_, _) =>
    case QueueStatus(_, _, _) =>
  }

  lemma {:induction false} SizesAdd(h: History, es: seq<Event>, w: WorkerId)
    requires Inv(h.master) && AllPossible(h.master, es) && w in h.master.workers
    requires forall e <- es :: !Reported(e, w)
    ensures var r := Run(h, es).master;
            w in r.workers && r.workers[w].size == h.master.workers[w].size + GivenTo(Trail(h.master, es), w)
    decreases |es|
  {
    hide Inv, Step, Marks, Effects, Effective, Possible, Reported;
    if |es| == 0 {
    } else {
      var m := h.master;
      assert es[0] in es && forall e <- es[1..] :: e in es;
      SizeStep(m, es[0], w);
      StepInv(m, es[0]);
      SizesAdd(Record(h, es[0]), es[1..], w);
      GivenToConcat(Marks(m, es[0]), Trail(Step(m, es[0]), es[1..]), w);
    }
  }

  /**
   * At any point after a well-formed queue status of `w`, and before the next one, the size the master has on record
   * for `w` is the reported size plus the assignments to `w` since.
   */
  lemma RecordedSize(h: History, w: WorkerId, size: int, es: seq<Event>)
    requires Inv(h.master) && w in h.master.workers && 0 <= size <= 10
    requires AllPossible(h.master, [QueueStatus(w, size, 10)] + es) && forall e <- es :: !Reported(e, w)
    ensures var e := QueueStatus(w, size, 10);
            var r := Run(h, [e] + es).master;
            w in r.workers && r.workers[w].size == size + GivenTo(Trail(Step(h.master, e), es), w)
  {
    hide Inv, Step, Marks, Effects, Effective, Possible;
    var e := QueueStatus(w, size, 10);
    assert ([e] + es)[1..] == es;
    SizeStep(h.master, e, w);
    StepInv(h.master, e);
    SizesAdd(Record(h, e), es, w);
  }

  lemma NothingYet(m: Master)
    requires Initial(m)
    ensures Fair([]) && Remembers(m, [])
  {
  }

  lemma InvSizes(m: Master)
    requires Inv(m)
    ensures Sizes(m.workers)
  {
    hide Tables, Queues, Owned, Stored;
  }
}
