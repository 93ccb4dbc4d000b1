/** What every operation of the ready queue keeps, and what a whole run of them keeps. */
module QueueLaws {
  import opened Basics
  import opened Models
  import opened QueueSpec

  lemma NotQueued(q: Queue, t: Task)
    requires t.id !in Ids(q.normal) && t.id !in Ids(q.priority)
    ensures t !in Queued(q)
  {
    hide Ids;
    if t in q.normal { IdsMember(q.normal, t); }
    if t in q.priority { IdsMember(q.priority, t); }
  }

  lemma EnqueueInv(q: Queue, t: Task, priority: bool)
    requires Inv(q)
    ensures Inv(TryEnqueue(q, t, priority).0)
  {
    hide Inv;
    if TryEnqueue(q, t, priority).1 == Admitted {
      if priority { JoinPriority(q, t); } else { JoinNormal(q, t); }
    }
  }

  lemma JoinPriority(q: Queue, t: Task)
    requires Inv(q) && t.id !in q.active && q.Size() < q.capacity
    ensures Inv(q.(priority := q.priority + [t], active := q.active + {t.id}))
  {
    hide Ids, Distinct, Groups, Keyed;
    var r := q.(priority := q.priority + [t], active := q.active + {t.id});
    IdsOne(t);
    IdsConcat(q.priority, [t]);
    GroupsAdmit(Ids(q.normal), Ids(q.priority), q.reserved.Keys, ProcessingIds(q), q.active, {t.id});
    KeyedSame(q, r);
    assert Grouped(r);
  }

  lemma JoinNormal(q: Queue, t: Task)
    requires Inv(q) && t.id !in q.active && q.Size() < q.capacity
    ensures Inv(q.(normal := q.normal + [t], active := q.active + {t.id}))
  {
    hide Ids, Distinct, Groups, Keyed;
    var r := q.(normal := q.normal + [t], active := q.active + {t.id});
    IdsOne(t);
    IdsConcat(q.normal, [t]);
    GroupsAdmit(Ids(q.normal), Ids(q.priority), q.reserved.Keys, ProcessingIds(q), q.active, {t.id});
    KeyedSame(q, r);
    assert Grouped(r);
  }

  lemma KeyedSame(q: Queue, r: Queue)
    requires Keyed(q) && r.reserved == q.reserved
    ensures Keyed(r)
  {
  }

  lemma EnqueueTasks(q: Queue, t: Task, priority: bool)
    requires Inv(q) && TryEnqueue(q, t, priority).1 == Admitted
    ensures t !in Queued(q) && Queued(TryEnqueue(q, t, priority).0) == Queued(q) + {t}
  {
    hide Ids, Distinct, Keyed;
    NotQueued(q, t);
    IdsOne(t);
    if priority { ElemsConcat(q.priority, [t]); } else { ElemsConcat(q.normal, [t]); }
  }

  /** All or nothing: a refused batch changes nothing, an accepted one is appended whole and in order. */
  lemma EnqueueManyInv(q: Queue, ts: seq<Task>)
    requires Inv(q)
    ensures Inv(TryEnqueueMany(q, ts).0)
    ensures TryEnqueueMany(q, ts).1 == Admitted <==>
            Distinct(ts) && Ids(ts) !! q.active && q.Size() + |ts| <= q.capacity
    ensures TryEnqueueMany(q, ts).1 != Admitted ==> TryEnqueueMany(q, ts).0 == q
  {
    hide Ids, Distinct, Groups;
    DistinctCount(ts);
    if TryEnqueueMany(q, ts).1 == Admitted {
      GroupsAdmit(Ids(q.normal), Ids(q.priority), q.reserved.Keys, ProcessingIds(q), q.active, Ids(ts));
      IdsConcat(q.normal, ts);
    }
  }

  /** When a batch is refused, and why, and what an accepted one adds. */
  lemma ManyVerdict(q: Queue, ts: seq<Task>)
    ensures var (r, why) := TryEnqueueMany(q, ts);
            var repeated := exists i, j :: 0 <= i < j < |ts| && ts[i].id == ts[j].id;
            var known := exists t <- ts :: t.id in q.active;
            && (why == Duplicate <==> repeated || known)
            && (why == Admitted <==>
                  !repeated && !known && |q.normal| + |q.priority| + |q.reserved| + |ts| <= q.capacity)
            && (why != Admitted ==> r == q)
            && (why == Admitted ==> r == q.(normal := q.normal + ts, active := q.active + (set t <- ts :: t.id)))
  {
    IdsSet(ts);
    DistinctCount(ts);
    DistinctPairs(ts);
    hide Ids, Distinct;
    if t :| t in ts && t.id in q.active { assert t.id in Ids(ts); }
    if !(Ids(ts) !! q.active) {
      var id :| id in Ids(ts) && id in q.active;
      var t :| t in ts && t.id == id;
    }
  }

  lemma RefusedSame(q: Queue, ts: seq<Task>)
    requires TryEnqueueMany(q, ts).1 != Admitted
    ensures TryEnqueueMany(q, ts).0 == q
  {
  }

  lemma EnqueueManyTasks(q: Queue, ts: seq<Task>)
    requires TryEnqueueMany(q, ts).1 == Admitted
    ensures Queued(TryEnqueueMany(q, ts).0) == Queued(q) + Elems(ts)
    ensures TryEnqueueMany(q, ts).0.normal == q.normal + ts
  {
  }

  /** Taking a task keeps the invariant exactly when the process loop finished its previous one. */
  lemma DequeueInv(q: Queue)
    requires Inv(q)
    ensures Inv(Dequeue(q).0) <==> Dequeue(q).1.None? || q.processing.None?
  {
    hide Ids, Distinct, Grouped, Keyed;
    if Dequeue(q).1.Some? {
      if q.processing.Some? { LostId(q); }
      else if |q.priority| > 0 { TakePriority(q); }
      else { TakeNormal(q); }
    }
  }

  lemma TakePriority(q: Queue)
    requires Inv(q) && q.processing.None? && |q.priority| > 0
    ensures Inv(Dequeue(q).0)
  {
    hide Ids, Distinct, Groups;
    WithoutIds(q.priority, 0);
    assert Without(q.priority, 0) == q.priority[1..];
    GroupsTake(Ids(q.normal), Ids(q.priority), q.reserved.Keys, q.active, q.priority[0].id);
    assert Grouped(Dequeue(q).0);
  }

  lemma TakeNormal(q: Queue)
    requires Inv(q) && q.processing.None? && |q.priority| == 0 < |q.normal|
    ensures Inv(Dequeue(q).0)
  {
    hide Ids, Distinct, Groups;
    WithoutIds(q.normal, 0);
    assert Without(q.normal, 0) == q.normal[1..];
    GroupsTake(Ids(q.normal), Ids(q.priority), q.reserved.Keys, q.active, q.normal[0].id);
    assert Grouped(Dequeue(q).0);
  }

  /**
   * If one id leaves a group for the processing group and another drops out there, the groups no longer make up the
   * active ids.
   */
  lemma GroupsBroken(n: set<TaskId>, p: set<TaskId>, r: set<TaskId>, x: TaskId, a: set<TaskId>, id: TaskId)
    requires Groups(n, p, r, {x}, a)
    ensures id in n ==> !Groups(n - {id}, p, r, {id}, a)
    ensures id in p ==> !Groups(n, p - {id}, r, {id}, a)
  {
    assert x in a;
  }

  lemma LostId(q: Queue)
    requires Inv(q) && Dequeue(q).1.Some? && q.processing.Some?
    ensures !Inv(Dequeue(q).0)
  {
    hide Ids, Distinct, Groups, Keyed;
    var ts := if |q.priority| > 0 then q.priority else q.normal;
    WithoutIds(ts, 0);
    assert Without(ts, 0) == ts[1..];
    GroupsBroken(Ids(q.normal), Ids(q.priority), q.reserved.Keys, q.processing.value, q.active, ts[0].id);
    assert !Grouped(Dequeue(q).0);
  }

  lemma TakeTasks(ts: seq<Task>)
    requires |ts| > 0 && Distinct(ts)
    ensures Elems(ts[1..]) == Elems(ts) - {ts[0]} && ts[0] in Elems(ts)
  {
    WithoutElems(ts, 0);
    assert Without(ts, 0) == ts[1..];
  }

  lemma ApartTasks(q: Queue, t: Task)
    requires Inv(q)
    ensures !(t in Elems(q.normal) && t in Elems(q.priority))
  {
    hide Ids, Distinct;
    if t in q.normal && t in q.priority { IdsMember(q.normal, t); IdsMember(q.priority, t); }
  }

  lemma DequeueTasks(q: Queue)
    requires Inv(q)
    ensures Dequeue(q).1.None? <==> Queued(q) == {}
    ensures Dequeue(q).1.Some? ==>
              && Dequeue(q).1.value in Queued(q)
              && Queued(Dequeue(q).0) == Queued(q) - {Dequeue(q).1.value}
  {
    hide Ids, Distinct, Groups;
    if |q.priority| > 0 {
      TakeTasks(q.priority);
      ApartTasks(q, q.priority[0]);
    } else if |q.normal| > 0 {
      TakeTasks(q.normal);
    }
  }

  lemma MarkDoneInv(q: Queue)
    requires Inv(q)
    ensures Inv(MarkDone(q))
  {
    hide Ids, Distinct, Groups;
    GroupsFinish(Ids(q.normal), Ids(q.priority), q.reserved.Keys, ProcessingIds(q), q.active);
  }

  lemma ReserveCount(reserved: map<TaskId, Held>, id: TaskId, held: Held)
    requires id !in reserved
    ensures |reserved[id := held]| == |reserved| + 1 && reserved[id := held].Keys == reserved.Keys + {id}
  {
  }

  lemma ReserveNormal(q: Queue, i: nat)
    requires Inv(q) && i < |q.normal|
    ensures q.normal[i].id !in q.reserved && q.normal[i].id in Ids(q.normal)
    ensures Inv(q.(normal := Without(q.normal, i), reserved := q.reserved[q.normal[i].id := Held(q.normal[i], false)]))
  {
    hide Ids, Distinct, Groups;
    var id := q.normal[i].id;
    var r := q.(normal := Without(q.normal, i), reserved := q.reserved[id := Held(q.normal[i], false)]);
    WithoutIds(q.normal, i);
    GroupsReserve(Ids(q.normal), Ids(q.priority), q.reserved.Keys, ProcessingIds(q), q.active, id);
    ReserveCount(q.reserved, id, r.reserved[id]);
    assert Keyed(r);
    assert Grouped(r);
  }

  lemma ReservePriority(q: Queue, j: nat)
    requires Inv(q) && j < |q.priority|
    ensures q.priority[j].id !in q.reserved && q.priority[j].id in Ids(q.priority) && q.priority[j].id !in Ids(q.normal)
    ensures Inv(q.(priority := Without(q.priority, j),
            reserved := q.reserved[q.priority[j].id := Held(q.priority[j], true)]))
  {
    hide Ids, Distinct, Groups;
    var id := q.priority[j].id;
    var r := q.(priority := Without(q.priority, j), reserved := q.reserved[id := Held(q.priority[j], true)]);
    WithoutIds(q.priority, j);
    GroupsReserve(Ids(q.normal), Ids(q.priority), q.reserved.Keys, ProcessingIds(q), q.active, id);
    ReserveCount(q.reserved, id, r.reserved[id]);
    assert Keyed(r);
    assert Grouped(r);
  }

  lemma ReserveInv(q: Queue, id: TaskId)
    requires Inv(q)
    ensures Inv(Reserve(q, id).0) && Reserve(q, id).0.Size() == q.Size()
    ensures Reserve(q, id).1.Some? <==> id in Ids(q.normal) + Ids(q.priority)
    ensures Reserve(q, id).1.Some? ==> Reserve(q, id).1.value.id == id && id !in q.reserved
    ensures Reserve(q, id).1.Some? ==>
              Reserve(q, id).0.reserved == q.reserved[id := Held(Reserve(q, id).1.value, id !in Ids(q.normal))]
  {
    hide Ids, Distinct, Groups;
    FindLaw(q.normal, id);
    FindLaw(q.priority, id);
    var i, j := Find(q.normal, id), Find(q.priority, id);
    if i < |q.normal| { ReserveNormal(q, i); } else if j < |q.priority| { ReservePriority(q, j); }
  }

  lemma ReserveTasks(q: Queue, id: TaskId)
    requires Inv(q) && Reserve(q, id).1.Some?
    ensures Reserve(q, id).1.value in Queued(q)
    ensures Queued(Reserve(q, id).0) == Queued(q) - {Reserve(q, id).1.value}
  {
    hide Ids, Distinct, Groups;
    FindLaw(q.normal, id);
    FindLaw(q.priority, id);
    var i, j := Find(q.normal, id), Find(q.priority, id);
    ApartTasks(q, Reserve(q, id).1.value);
    if i < |q.normal| { WithoutElems(q.normal, i); } else { WithoutElems(q.priority, j); }
  }

  lemma UnreserveCount(q: Queue, id: TaskId)
    requires id in q.reserved
    ensures (q.reserved - {id}).Keys == q.reserved.Keys - {id}
    ensures |q.reserved - {id}| == |q.reserved| - 1
  {
  }

  lemma ConfirmInv(q: Queue, id: TaskId)
    requires Inv(q)
    ensures Inv(Confirm(q, id).0)
  {
    hide Ids, Distinct, Groups;
    if id in q.reserved {
      UnreserveCount(q, id);
      GroupsRelease(Ids(q.normal), Ids(q.priority), q.reserved.Keys, ProcessingIds(q), q.active, id);
    }
  }

  /** A release cannot overflow: the reservation kept its place. */
  lemma ReleaseInv(q: Queue, id: TaskId)
    requires Inv(q)
    ensures Inv(Release(q, id).0) && Release(q, id).0.Size() == q.Size()
  {
    hide Ids, Distinct, Groups;
    if id in q.reserved {
      UnreserveCount(q, id);
      GroupsRelease(Ids(q.normal), Ids(q.priority), q.reserved.Keys, ProcessingIds(q), q.active, id);
      var t := q.reserved[id].task;
      IdsOne(t);
      if q.reserved[id].priority { Prepend(t, q.priority); } else { Prepend(t, q.normal); }
      var r := Release(q, id).0;
      assert Distinct(r.priority) && Distinct(r.normal);
      assert Grouped(r);
      assert r.Size() == q.Size();
    }
  }

  lemma Prepend(t: Task, ts: seq<Task>)
    ensures Ids([t] + ts) == {t.id} + Ids(ts)
    ensures Distinct([t] + ts) <==> t.id !in Ids(ts) && Distinct(ts)
  {
  }

  lemma ReleaseTasks(q: Queue, id: TaskId)
    requires Inv(q) && id in q.reserved
    ensures q.reserved[id].task !in Queued(q)
    ensures Queued(Release(q, id).0) == Queued(q) + {q.reserved[id].task}
  {
    hide Ids, Distinct;
    var t := q.reserved[id].task;
    NotQueued(q, t);
    ElemsConcat([t], q.normal);
    ElemsConcat([t], q.priority);
  }

  // ---- order of service -----------------------------------------------------------------------

  /** The order in which the waiting tasks will be taken. */
  function Line(q: Queue): seq<Task> {
    q.priority + q.normal
  }

  /** The queue after `k` rounds of taking a task and marking it done, and the tasks taken. */
  function Serve(q: Queue, k: nat): (Queue, seq<Task>)
    decreases k
  {
    if k == 0 || Dequeue(q).1.None? then (q, []) else
      var (r, ts) := Serve(MarkDone(Dequeue(q).0), k - 1);
      (r, [Dequeue(q).1.value] + ts)
  }

  lemma OneServed(q: Queue)
    requires |Line(q)| > 0
    ensures var next := MarkDone(Dequeue(q).0);
            && Dequeue(q).1 == Some(Line(q)[0]) && Line(next) == Line(q)[1..] && next.reserved == q.reserved
  {
  }

  /** Tasks leave in line order, and what is left keeps its order. */
  lemma {:induction false} ServedInOrder(q: Queue, k: nat)
    requires k <= |Line(q)|
    ensures Serve(q, k).1 == Line(q)[..k] && Line(Serve(q, k).0) == Line(q)[k..]
    ensures Serve(q, k).0.reserved == q.reserved
    decreases k
  {
    hide Dequeue, MarkDone, Line;
    if k == 0 {
    } else {
      OneServed(q);
      ServedInOrder(MarkDone(Dequeue(q).0), k - 1);
      assert Line(q)[..k] == [Line(q)[0]] + Line(q)[1..][..k - 1];
    }
  }

  /** The end of the normal class, topped up from the end of the priority class. */
  lemma PeekFields(q: Queue, count: nat)
    ensures var n := if |q.normal| < count then |q.normal| else count;
            var p := if |q.priority| < count - n then |q.priority| else count - n;
            Peek(q, count) == q.normal[|q.normal| - n..] + q.priority[|q.priority| - p..]
  {
  }

  /** Which verdict a single enqueue gets, and which class and end the task joins. */
  lemma EnqueueLaw(q: Queue, t: Task, priority: bool)
    ensures var (r, why) := TryEnqueue(q, t, priority);
            && (why == Duplicate <==> t.id in q.active)
            && (why == Full <==> t.id !in q.active && |q.normal| + |q.priority| + |q.reserved| >= q.capacity)
            && (why != Admitted ==> r == q)
            && (why == Admitted ==>
                  && (priority ==> r.priority == q.priority + [t] && r.normal == q.normal)
                  && (!priority ==> r.normal == q.normal + [t] && r.priority == q.priority)
                  && r.active == q.active + {t.id} && r.reserved == q.reserved)
  {
  }

  // ---- whole runs -----------------------------------------------------------------------------

  datatype Op =
    | OpEnqueue(task: Task, priority: bool)
    | OpEnqueueMany(tasks: seq<Task>)
    | OpDequeue
    | OpMarkDone
    | OpReserve(id: TaskId)
    | OpConfirm(id: TaskId)
    | OpRelease(id: TaskId)

  function Apply(q: Queue, op: Op): Queue {
    match op
    case OpEnqueue(t, p) => TryEnqueue(q, t, p).0
    case OpEnqueueMany(ts) => TryEnqueueMany(q, ts).0
    case OpDequeue => Dequeue(q).0
    case OpMarkDone => MarkDone(q)
    case OpReserve(id) => Reserve(q, id).0
    case OpConfirm(id) => Confirm(q, id).0
    case OpRelease(id) => Release(q, id).0
  }

  function Run(q: Queue, ops: seq<Op>): Queue
    decreases |ops|
  {
    if |ops| == 0 then q else Run(Apply(q, ops[0]), ops[1..])
  }

  /** The process loop takes a task only after it marked the previous one done. */
  predicate OneAtATime(q: Queue, ops: seq<Op>)
    decreases |ops|
  {
    |ops| == 0 || ((ops[0].OpDequeue? ==> q.processing.None?) && OneAtATime(Apply(q, ops[0]), ops[1..]))
  }

  lemma StepLaw(q: Queue, op: Op)
    requires Inv(q) && (op.OpDequeue? ==> q.processing.None?)
    ensures Inv(Apply(q, op)) && Apply(q, op).capacity == q.capacity
  {
    hide Inv;
    match op
    case OpEnqueue(t, p) => EnqueueInv(q, t, p);
    case OpEnqueueMany(ts) => EnqueueManyInv(q, ts);
    case OpDequeue => DequeueInv(q);
    case OpMarkDone => MarkDoneInv(q);
    case OpReserve(id) => ReserveInv(q, id);
    case OpConfirm(id) => ConfirmInv(q, id);
    case OpRelease(id) => ReleaseInv(q, id);
  }

  /** The joint invariant holds after any run of the seven operations, from any queue that has it. */
  lemma {:induction false} RunLaw(q: Queue, ops: seq<Op>)
    requires Inv(q) && OneAtATime(q, ops)
    ensures Inv(Run(q, ops)) && Run(q, ops).capacity == q.capacity
    decreases |ops|
  {
    hide Inv, Apply;
    if |ops| == 0 {
    } else {
      StepLaw(q, ops[0]);
      RunLaw(Apply(q, ops[0]), ops[1..]);
    }
  }

  // ---- who is served when -----------------------------------------------------------------------

  /** The tasks the process loop takes along a run. */
  function TakenBy(q: Queue, ops: seq<Op>): seq<Task>
    decreases |ops|
  {
    if |ops| == 0 then [] else
      (if ops[0].OpDequeue? && Dequeue(q).1.Some? then [Dequeue(q).1.value] else []) +
      TakenBy(Apply(q, ops[0]), ops[1..])
  }

  /** No balance takes tasks out of the queue or puts them back. */
  predicate Undisturbed(ops: seq<Op>) {
    forall op <- ops :: !op.OpReserve? && !op.OpRelease?
  }

  predicate NoPriorityArrives(ops: seq<Op>) {
    forall op <- ops :: op.OpEnqueue? ==> !op.priority
  }

  /** As far as they reach, `a` and `b` agree. */
  predicate Agree(a: seq<Task>, b: seq<Task>) {
    if |a| <= |b| then a == b[..|a|] else b == a[..|b|]
  }

  lemma AgreeMore(a: seq<Task>, b: seq<Task>, more: seq<Task>)
    requires Agree(a, b + more)
    ensures Agree(a, b)
  {
    assert (b + more)[..|b|] == b;
    if |a| <= |b| { assert (b + more)[..|a|] == b[..|a|]; }
    else if |a| <= |b + more| { assert b == a[..|b|]; }
    else { assert a[..|b|] == a[..|b + more|][..|b|]; }
  }

  lemma AgreeHead(x: Task, a: seq<Task>, b: seq<Task>)
    requires Agree(a, b)
    ensures Agree([x] + a, [x] + b)
  {
    if |a| <= |b| { assert ([x] + b)[..1 + |a|] == [x] + b[..|a|]; }
    else { assert ([x] + a)[..1 + |b|] == [x] + a[..|b|]; }
  }

  /** What one undisturbed operation does to the two classes. */
  lemma OpClasses(q: Queue, op: Op)
    requires !op.OpReserve? && !op.OpRelease?
    ensures var r := Apply(q, op);
            && (op.OpDequeue? && |q.priority| > 0 ==>
                  r.priority == q.priority[1..] && r.normal == q.normal && Dequeue(q).1 == Some(q.priority[0]))
            && (op.OpDequeue? && |q.priority| == 0 && |q.normal| > 0 ==>
                  r.priority == [] && r.normal == q.normal[1..] && Dequeue(q).1 == Some(q.normal[0]))
            && (op.OpDequeue? && |q.priority| == 0 && |q.normal| == 0 ==> r == q && Dequeue(q).1.None?)
            && (!op.OpDequeue? ==>
                  && (r.priority == q.priority
                      || (op.OpEnqueue? && op.priority && r.priority == q.priority + [op.task]))
                  && |r.normal| >= |q.normal| && r.normal[..|q.normal|] == q.normal)
  {
  }

  /** Whatever arrives meanwhile, the waiting priority tasks are the next ones taken, in order. */
  lemma {:induction false} PriorityNext(q: Queue, ops: seq<Op>)
    requires Undisturbed(ops)
    ensures Agree(TakenBy(q, ops), q.priority)
    decreases |ops|
  {
    hide Apply, Dequeue;
    if |ops| == 0 {
    } else {
      assert ops[0] in ops && forall op <- ops[1..] :: op in ops;
      var r := Apply(q, ops[0]);
      var rest := TakenBy(r, ops[1..]);
      OpClasses(q, ops[0]);
      PriorityNext(r, ops[1..]);
      if ops[0].OpDequeue? && |q.priority| > 0 {
        AgreeHead(q.priority[0], rest, r.priority);
        assert q.priority == [q.priority[0]] + r.priority;
      } else if !ops[0].OpDequeue? {
        assert TakenBy(q, ops) == rest;
        AgreeMore(rest, q.priority, r.priority[|q.priority|..]);
      }
    }
  }

  lemma OpLine(q: Queue, op: Op)
    requires !op.OpReserve? && !op.OpRelease? && (op.OpEnqueue? ==> !op.priority)
    ensures var r := Apply(q, op);
            && (op.OpDequeue? && |Line(q)| > 0 ==>
                  Dequeue(q).1 == Some(Line(q)[0]) && Line(q) == [Line(q)[0]] + Line(r))
            && (op.OpDequeue? && |Line(q)| == 0 ==> Dequeue(q).1.None? && Line(r) == Line(q))
            && (!op.OpDequeue? ==> |Line(r)| >= |Line(q)| && Line(r) == Line(q) + Line(r)[|Line(q)|..])
  {
    hide Apply, Dequeue;
    OpClasses(q, op);
    var r := Apply(q, op);
    if !op.OpDequeue? { assert Line(r) == Line(q) + r.normal[|q.normal|..]; }
  }

  /** If no priority task arrives meanwhile, all waiting tasks are the next ones taken, in line order. */
  lemma {:induction false} LineNext(q: Queue, ops: seq<Op>)
    requires Undisturbed(ops) && NoPriorityArrives(ops)
    ensures Agree(TakenBy(q, ops), Line(q))
    decreases |ops|
  {
    hide Apply, Dequeue, Line, Agree;
    if |ops| == 0 {
      AgreeNone(Line(q));
    } else {
      assert ops[0] in ops && forall op <- ops[1..] :: op in ops;
      var r := Apply(q, ops[0]);
      var rest := TakenBy(r, ops[1..]);
      OpLine(q, ops[0]);
      LineNext(r, ops[1..]);
      if !ops[0].OpDequeue? {
        assert TakenBy(q, ops) == rest;
        AgreeMore(rest, Line(q), Line(r)[|Line(q)|..]);
      } else if |Line(q)| > 0 {
        AgreeHead(Line(q)[0], rest, Line(r));
      } else {
        assert TakenBy(q, ops) == rest;
      }
    }
  }

  lemma AgreeNone(b: seq<Task>)
    ensures Agree([], b)
  {
  }

  /**
   * An admitted priority task is taken after exactly the priority tasks that were waiting, and before every normal
   * one, whatever arrives meanwhile; an admitted normal task after exactly the tasks that were waiting, if no priority
   * task arrives meanwhile.
   */
  lemma TakenInTurn(q: Queue, t: Task, priority: bool, ops: seq<Op>)
    requires TryEnqueue(q, t, priority).1 == Admitted && Undisturbed(ops)
    ensures var taken := TakenBy(TryEnqueue(q, t, priority).0, ops);
            && (priority && |taken| > |q.priority| ==> taken[..|q.priority| + 1] == q.priority + [t])
            && (!priority && NoPriorityArrives(ops) && |taken| > |q.priority| + |q.normal| ==>
                  taken[..|q.priority| + |q.normal| + 1] == q.priority + q.normal + [t])
  {
    var r := TryEnqueue(q, t, priority).0;
    EnqueueLaw(q, t, priority);
    PriorityNext(r, ops);
    if NoPriorityArrives(ops) {
      LineNext(r, ops);
      if !priority { assert Line(r) == q.priority + q.normal + [t]; }
    }
  }

  /** Until it is confirmed or released, a reservation survives every run unchanged, its class included. */
  lemma ReservationStep(q: Queue, op: Op, id: TaskId)
    requires Inv(q) && id in q.reserved && op != OpConfirm(id) && op != OpRelease(id)
    ensures id in Apply(q, op).reserved && Apply(q, op).reserved[id] == q.reserved[id]
  {
    hide Inv;
    if op.OpReserve? { ReserveInv(q, op.id); }
  }

  lemma {:induction false} ReservationSurvives(q: Queue, ops: seq<Op>, id: TaskId)
    requires Inv(q) && OneAtATime(q, ops) && id in q.reserved
    requires forall op <- ops :: op != OpConfirm(id) && op != OpRelease(id)
    ensures var r := Run(q, ops);
            && Inv(r) && id in r.reserved && r.reserved[id] == q.reserved[id]
            && Release(r, id).1
            && (var back := if q.reserved[id].priority then Release(r, id).0.priority else Release(r, id).0.normal;
                |back| > 0 && back[0] == q.reserved[id].task)
    decreases |ops|
  {
    hide Inv, Apply;
    if |ops| == 0 {
    } else {
      assert ops[0] in ops;
      StepLaw(q, ops[0]);
      ReservationStep(q, ops[0], id);
      assert forall op <- ops[1..] :: op in ops;
      ReservationSurvives(Apply(q, ops[0]), ops[1..], id);
    }
  }
}
