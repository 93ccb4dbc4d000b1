/**
 * The worker's ready queue as a value (src/kvstore/worker/ready_queue.py): two FIFO classes, the
 * tasks reserved for a transfer that is not settled yet, and the ids the worker is still answerable for.
 * Class ReadyQueue (ReadyQueue.dfy) refines these functions method by method.
 */
module QueueSpec {
  import opened Basics
  import opened Models

  datatype Held = Held(task: Task, priority: bool)

  datatype Reason = Admitted | Duplicate | Full

  datatype Queue = Queue(
    capacity: int,
    normal: seq<Task>,
    priority: seq<Task>,
    reserved: map<TaskId, Held>,
    active: set<TaskId>,
    processing: Option<TaskId>)
  {
    function Size(): nat {
      |normal| + |priority| + |reserved|
    }

    /** More than 70% full, reserved tasks included. */
    predicate Warn() {
      10 * Size() > 7 * capacity
    }
  }

  function Empty(capacity: int): Queue {
    Queue(capacity, [], [], map[], {}, None)
  }

  function Ids(ts: seq<Task>): set<TaskId> {
    if |ts| == 0 then {} else {ts[0].id} + Ids(ts[1..])
  }

  ghost predicate Distinct(ts: seq<Task>) {
    |ts| == 0 || (ts[0].id !in Ids(ts[1..]) && Distinct(ts[1..]))
  }

  function ProcessingIds(q: Queue): set<TaskId> {
    if q.processing.Some? then {q.processing.value} else {}
  }

  /** The tasks waiting in either class. */
  function Queued(q: Queue): set<Task> {
    Elems(q.normal) + Elems(q.priority)
  }

  /** Four pairwise disjoint groups of ids that together are the active ones. */
  ghost predicate Groups(normal: set<TaskId>, priority: set<TaskId>, reserved: set<TaskId>, processing: set<TaskId>,
                         active: set<TaskId>) {
    && normal !! priority && normal !! reserved && normal !! processing
    && priority !! reserved && priority !! processing && reserved !! processing
    && active == normal + priority + reserved + processing
  }

  ghost predicate Grouped(q: Queue) {
    Groups(Ids(q.normal), Ids(q.priority), q.reserved.Keys, ProcessingIds(q), q.active)
  }

  ghost predicate Keyed(q: Queue) {
    forall id :: id in q.reserved ==> q.reserved[id].task.id == id
  }

  /** The joint invariant: four disjoint duplicate-free groups make up the active ids, within capacity. */
  ghost predicate Inv(q: Queue) {
    && Distinct(q.normal)
    && Distinct(q.priority)
    && Keyed(q)
    && Grouped(q)
    && q.Size() <= q.capacity
  }

  // ---- the operations -------------------------------------------------------------------------

  function TryEnqueue(q: Queue, t: Task, priority: bool): (Queue, Reason) {
    if t.id in q.active then (q, Duplicate)
    else if q.Size() >= q.capacity then (q, Full)
    else if priority then (q.(priority := q.priority + [t], active := q.active + {t.id}), Admitted)
    else (q.(normal := q.normal + [t], active := q.active + {t.id}), Admitted)
  }

  function TryEnqueueMany(q: Queue, ts: seq<Task>): (Queue, Reason) {
    if |Ids(ts)| != |ts| then (q, Duplicate)
    else if !(Ids(ts) !! q.active) then (q, Duplicate)
    else if q.Size() + |ts| > q.capacity then (q, Full)
    else (q.(normal := q.normal + ts, active := q.active + Ids(ts)), Admitted)
  }

  function Dequeue(q: Queue): (Queue, Option<Task>) {
    if |q.priority| > 0 then
      (q.(priority := q.priority[1..], processing := Some(q.priority[0].id)), Some(q.priority[0]))
    else if |q.normal| > 0 then
      (q.(normal := q.normal[1..], processing := Some(q.normal[0].id)), Some(q.normal[0]))
    else (q, None)
  }

  function MarkDone(q: Queue): Queue {
    q.(active := q.active - ProcessingIds(q), processing := None)
  }

  /** The last `count` normal tasks, topped up from the tail of the priority class. */
  function Peek(q: Queue, count: nat): (ts: seq<Task>)
    ensures |ts| <= count
  {
    var fromNormal := if |q.normal| < count then q.normal else q.normal[|q.normal| - count..];
    var needed := count - |fromNormal|;
    fromNormal + (if |q.priority| < needed then q.priority else q.priority[|q.priority| - needed..])
  }

  /** The first position holding the id, or |ts|. */
  function Find(ts: seq<Task>, id: TaskId): (i: nat)
    ensures i <= |ts|
    ensures i < |ts| ==> ts[i].id == id
    ensures forall j :: 0 <= j < i ==> ts[j].id != id
  {
    if |ts| == 0 || ts[0].id == id then 0 else
      var i := Find(ts[1..], id);
      assert forall j :: 1 <= j < i + 1 ==> ts[j] == ts[1..][j - 1];
      1 + i
  }

  function Without(ts: seq<Task>, i: nat): seq<Task>
    requires i < |ts|
  {
    ts[..i] + ts[i + 1..]
  }

  function Reserve(q: Queue, id: TaskId): (Queue, Option<Task>) {
    var i := Find(q.normal, id);
    var j := Find(q.priority, id);
    if i < |q.normal| then
      (q.(normal := Without(q.normal, i), reserved := q.reserved[id := Held(q.normal[i], false)]), Some(q.normal[i]))
    else if j < |q.priority| then
      (q.(priority := Without(q.priority, j), reserved := q.reserved[id := Held(q.priority[j], true)]),
          Some(q.priority[j]))
    else (q, None)
  }

  function Confirm(q: Queue, id: TaskId): (Queue, bool) {
    if id in q.reserved then (q.(reserved := q.reserved - {id}, active := q.active - {id}), true) else (q, false)
  }

  function Release(q: Queue, id: TaskId): (Queue, bool) {
    if id !in q.reserved then (q, false)
    else if q.reserved[id].priority then
      (q.(reserved := q.reserved - {id}, priority := [q.reserved[id].task] + q.priority), true)
    else (q.(reserved := q.reserved - {id}, normal := [q.reserved[id].task] + q.normal), true)
  }

  // ---- sequence facts -------------------------------------------------------------------------

  lemma IdsOne(t: Task)
    ensures Ids([t]) == {t.id} && Distinct([t]) && Elems([t]) == {t}
  {
  }

  lemma {:induction false} IdsSet(ts: seq<Task>)
    ensures Ids(ts) == (set t <- ts :: t.id)
  {
    if |ts| == 0 {
    } else {
      IdsSet(ts[1..]);
      assert ts == [ts[0]] + ts[1..];
    }
  }

  /** Distinct means that no two tasks share an id. */
  lemma {:induction false} DistinctPairs(ts: seq<Task>)
    ensures Distinct(ts) <==> forall i, j :: 0 <= i < j < |ts| ==> ts[i].id != ts[j].id
  {
    if |ts| == 0 {
    } else {
      IdsSet(ts[1..]);
      DistinctPairs(ts[1..]);
      assert forall i :: 1 <= i < |ts| ==> ts[i] == ts[1..][i - 1];
    }
  }

  lemma {:induction false} IdsConcat(a: seq<Task>, b: seq<Task>)
    ensures Ids(a + b) == Ids(a) + Ids(b)
    ensures Distinct(a + b) <==> Distinct(a) && Distinct(b) && Ids(a) !! Ids(b)
  {
    if |a| == 0 {
      assert a + b == b;
    } else {
      IdsConcat(a[1..], b);
      assert (a + b)[1..] == a[1..] + b;
    }
  }

  lemma {:induction false} IdsMember(ts: seq<Task>, t: Task)
    requires t in ts
    ensures t.id in Ids(ts)
  {
    if t != ts[0] {
      assert t in ts[1..];
      IdsMember(ts[1..], t);
    }
  }

  lemma {:induction false} DistinctCount(ts: seq<Task>)
    ensures |Ids(ts)| <= |ts|
    ensures |Ids(ts)| == |ts| <==> Distinct(ts)
  {
    if |ts| == 0 {
    } else {
      DistinctCount(ts[1..]);
      if ts[0].id in Ids(ts[1..]) { assert Ids(ts) == Ids(ts[1..]); }
    }
  }

  lemma {:induction false} FindLaw(ts: seq<Task>, id: TaskId)
    ensures Find(ts, id) < |ts| <==> id in Ids(ts)
  {
    if |ts| == 0 || ts[0].id == id {
    } else {
      FindLaw(ts[1..], id);
    }
  }

  /** Taking one task out of a duplicate-free sequence takes out its id and nothing else. */
  lemma WithoutIds(ts: seq<Task>, i: nat)
    requires i < |ts| && Distinct(ts)
    ensures Distinct(Without(ts, i))
    ensures Ids(Without(ts, i)) == Ids(ts) - {ts[i].id}
    ensures ts[i].id in Ids(ts)
    ensures ts[i] !in ts[..i] && ts[i] !in ts[i + 1..]
  {
    hide Ids, Distinct;
    var a, b := ts[..i], ts[i + 1..];
    assert ts == a + ([ts[i]] + b);
    IdsOne(ts[i]);
    IdsConcat([ts[i]], b);
    IdsConcat(a, [ts[i]] + b);
    IdsConcat(a, b);
    if ts[i] in a { IdsMember(a, ts[i]); }
    if ts[i] in b { IdsMember(b, ts[i]); }
  }

  lemma ElemsConcat(a: seq<Task>, b: seq<Task>)
    ensures Elems(a + b) == Elems(a) + Elems(b)
  {
  }

  lemma WithoutElems(ts: seq<Task>, i: nat)
    requires i < |ts| && Distinct(ts)
    ensures Elems(Without(ts, i)) == Elems(ts) - {ts[i]}
    ensures ts[i] in Elems(ts)
  {
    hide Ids, Distinct;
    WithoutIds(ts, i);
    var a, x, b := ts[..i], ts[i], ts[i + 1..];
    assert ts == a + ([x] + b);
    ElemsConcat(a, [x] + b);
    ElemsConcat([x], b);
    ElemsConcat(a, b);
    assert x !in Elems(a) && x !in Elems(b) && Elems([x]) == {x};
  }

  // ---- moving ids between the four groups -----------------------------------------------------

  lemma GroupsAdmit(n: set<TaskId>, p: set<TaskId>, r: set<TaskId>, x: set<TaskId>, a: set<TaskId>, ids: set<TaskId>)
    requires Groups(n, p, r, x, a) && ids !! a
    ensures Groups(n + ids, p, r, x, a + ids) && Groups(n, p + ids, r, x, a + ids)
    ensures n !! ids && p !! ids
  {
  }

  lemma GroupsTake(n: set<TaskId>, p: set<TaskId>, r: set<TaskId>, a: set<TaskId>, id: TaskId)
    requires Groups(n, p, r, {}, a)
    ensures id in n ==> Groups(n - {id}, p, r, {id}, a)
    ensures id in p ==> Groups(n, p - {id}, r, {id}, a)
  {
  }

  lemma GroupsReserve(n: set<TaskId>, p: set<TaskId>, r: set<TaskId>, x: set<TaskId>, a: set<TaskId>, id: TaskId)
    requires Groups(n, p, r, x, a)
    ensures id in n ==> Groups(n - {id}, p, r + {id}, x, a)
    ensures id in p ==> Groups(n, p - {id}, r + {id}, x, a)
    ensures id in n + p ==> id !in r && !(id in n && id in p)
  {
  }

  lemma GroupsRelease(n: set<TaskId>, p: set<TaskId>, r: set<TaskId>, x: set<TaskId>, a: set<TaskId>, id: TaskId)
    requires Groups(n, p, r, x, a) && id in r
    ensures Groups({id} + n, p, r - {id}, x, a) && Groups(n, {id} + p, r - {id}, x, a)
    ensures Groups(n, p, r - {id}, x, a - {id})
    ensures id !in n && id !in p
  {
  }

  lemma GroupsFinish(n: set<TaskId>, p: set<TaskId>, r: set<TaskId>, x: set<TaskId>, a: set<TaskId>)
    requires Groups(n, p, r, x, a)
    ensures Groups(n, p, r, {}, a - x)
  {
  }
}
