/**
 * The master's scheduler as a value, and its locked sections as functions on that value
 * (src/kvstore/master/runtime.py). The retry heap appears here as the FIFO queue it amounts to;
 * class MasterRuntime (MasterRuntime.dfy) keeps the heap itself and refines these functions.
 */
module MasterSpec {
  import opened Basics
  import opened Models

  datatype Status = Pending | Assigned | Retry | Done

  datatype Conn = Conn(connected: bool, size: int, capacity: int, held: set<TaskId>)

  datatype Master = Master(
    tasks: map<TaskId, Task>,
    state: map<TaskId, Status>,
    normal: seq<TaskId>,
    retry: seq<TaskId>,
    store: map<string, int>,
    workers: map<WorkerId, Conn>)

  // ---- choosing a worker ----------------------------------------------------------------------

  predicate Eligible(workers: map<WorkerId, Conn>, t: Task, w: WorkerId) {
    && w in workers
    && workers[w].connected
    && workers[w].size < workers[w].capacity
    && t.previous != Some(w)
  }

  function Room(workers: map<WorkerId, Conn>, w: WorkerId): int
    requires w in workers
  {
    workers[w].capacity - workers[w].size
  }

  /** `a` sorts no later than `b`: more room first, then the smaller id. */
  predicate Precedes(workers: map<WorkerId, Conn>, a: WorkerId, b: WorkerId)
    requires a in workers && b in workers
  {
    Room(workers, a) > Room(workers, b) || (Room(workers, a) == Room(workers, b) && LexLe(a, b))
  }

  ghost predicate IsBest(workers: map<WorkerId, Conn>, t: Task, w: WorkerId) {
    && Eligible(workers, t, w)
    && forall v :: Eligible(workers, t, v) ==> Precedes(workers, w, v)
  }

  ghost function Choose(workers: map<WorkerId, Conn>, t: Task): (r: Option<WorkerId>)
    ensures r.Some? ==> IsBest(workers, t, r.value)
  {
    if w :| IsBest(workers, t, w) then Some(w) else None
  }

  // ---- the locked sections --------------------------------------------------------------------

  function ClearAssignment(workers: map<WorkerId, Conn>, id: TaskId): map<WorkerId, Conn> {
    map w | w in workers :: workers[w].(held := workers[w].held - {id})
  }

  /** A result counts only if the worker named as assignee still holds the task. */
  predicate Accepts(m: Master, id: TaskId, assignee: WorkerId) {
    && id in m.tasks && id in m.state && m.state[id] == Assigned
    && assignee in m.workers && id in m.workers[assignee].held
  }

  function Succeed(m: Master, id: TaskId, assignee: WorkerId): Master {
    if !Accepts(m, id, assignee) then m else
      m.(workers := ClearAssignment(m.workers, id),
         store := m.store[m.tasks[id].key := m.tasks[id].value],
         state := m.state[id := Done])
  }

  function Fail(m: Master, sender: WorkerId, id: TaskId, assignee: WorkerId, overflow: bool): Master {
    if !Accepts(m, id, assignee) then m else
      var t := m.tasks[id];
      m.(workers := ClearAssignment(m.workers, id),
         tasks := m.tasks[id := t.(attempt := if overflow then t.attempt else t.attempt + 1, previous := Some(sender))],
         state := m.state[id := Retry],
         retry := m.retry + [id])
  }

  /** A QUEUE_STATUS is taken only if it describes a well-formed status. */
  predicate ValidReport(size: int, capacity: int) {
    capacity == QUEUE_CAPACITY && 0 <= size <= capacity
  }

  function Report(m: Master, w: WorkerId, size: int, capacity: int): Master {
    if w !in m.workers || !ValidReport(size, capacity) then m else
      m.(workers := m.workers[w := m.workers[w].(size := size, capacity := capacity)])
  }

  function Requeue(tasks: map<TaskId, Task>, ids: set<TaskId>, w: WorkerId): map<TaskId, Task> {
    map id | id in tasks :: if id in ids then tasks[id].(previous := Some(w)) else tasks[id]
  }

  function MarkRetry(state: map<TaskId, Status>, ids: set<TaskId>): map<TaskId, Status> {
    map id | id in state :: if id in ids then Retry else state[id]
  }

  /** `order` lists the set the source iterates over, in whatever order it comes. */
  ghost predicate Lists(order: seq<TaskId>, ids: set<TaskId>) {
    NoDup(order) && Elems(order) == ids
  }

  function Disconnect(m: Master, w: WorkerId, order: seq<TaskId>): Master {
    if w !in m.workers || !m.workers[w].connected then m else
      m.(workers := m.workers[w := m.workers[w].(connected := false, held := {})],
         tasks := Requeue(m.tasks, m.workers[w].held, w),
         state := MarkRetry(m.state, m.workers[w].held),
         retry := m.retry + order)
  }

  function AssignTo(m: Master, id: TaskId, w: WorkerId, now: real): Master
    requires id in m.tasks && w in m.workers
  {
    m.(tasks := m.tasks[id := m.tasks[id].(enqueuedAt := now, assignment := Some(w))],
       state := m.state[id := Assigned],
       workers := m.workers[w := m.workers[w].(held := m.workers[w].held + {id}, size := m.workers[w].size + 1)])
  }

  datatype Assignment = Assignment(id: TaskId, worker: WorkerId, priority: bool)

  /** The retry queue comes first; a retry task nobody may take goes to its end, a normal one stays in front. */
  ghost function NextAssignment(m: Master, now: real): (Master, Option<Assignment>) {
    if |m.retry| > 0 then
      var id := m.retry[0];
      if id !in m.tasks then (m, None) else
        match Choose(m.workers, m.tasks[id])
        case None => (m.(retry := m.retry[1..] + [id]), None)
        case Some(w) => (AssignTo(m.(retry := m.retry[1..]), id, w, now), Some(Assignment(id, w, true)))
    else if |m.normal| > 0 then
      var id := m.normal[0];
      if id !in m.tasks then (m, None) else
        match Choose(m.workers, m.tasks[id])
        case None => (m, None)
        case Some(w) => (AssignTo(m.(normal := m.normal[1..]), id, w, now), Some(Assignment(id, w, false)))
    else (m, None)
  }

  // ---- the invariant --------------------------------------------------------------------------

  /** One record and one state per task, under pairwise different keys. */
  ghost predicate Tables(tasks: map<TaskId, Task>, state: map<TaskId, Status>) {
    && state.Keys == tasks.Keys
    && (forall id :: id in tasks ==> tasks[id].id == id)
    && (forall a, b :: a in tasks && b in tasks && tasks[a].key == tasks[b].key ==> a == b)
  }

  /** `q` holds exactly the tasks in state `s`, each once. */
  ghost predicate Queues(state: map<TaskId, Status>, q: seq<TaskId>, s: Status) {
    NoDup(q) && Elems(q) == InState(state, s)
  }

  function InState(state: map<TaskId, Status>, s: Status): set<TaskId> {
    set id | id in state && state[id] == s
  }

  /** What `w` holds is assigned to `w` by the records, and `w` is connected and not its last failing worker. */
  ghost predicate Holds(tasks: map<TaskId, Task>, state: map<TaskId, Status>, conn: Conn, w: WorkerId) {
    forall id :: id in conn.held ==>
      && conn.connected
      && id in state && state[id] == Assigned
      && id in tasks && tasks[id].assignment == Some(w) && tasks[id].previous != Some(w)
  }

  ghost predicate Held(workers: map<WorkerId, Conn>, t: Task) {
    t.assignment.Some? && t.assignment.value in workers && t.id in workers[t.assignment.value].held
  }

  /** An assigned task is held by exactly one worker, a connected one, the one its record names. */
  ghost predicate Owned(tasks: map<TaskId, Task>, state: map<TaskId, Status>, workers: map<WorkerId, Conn>) {
    && (forall w :: w in workers ==> Holds(tasks, state, workers[w], w))
    && (forall id :: id in tasks && id in state && state[id] == Assigned ==> Held(workers, tasks[id]))
  }

  ghost predicate IsStored(tasks: map<TaskId, Task>, state: map<TaskId, Status>, key: string, value: int) {
    exists id :: id in tasks && id in state && state[id] == Done && tasks[id].key == key && tasks[id].value == value
  }

  /** The store is { key(t) -> value(t) | t done }, one entry per done task. */
  ghost predicate Stored(tasks: map<TaskId, Task>, state: map<TaskId, Status>, store: map<string, int>) {
    && (forall id :: id in tasks && id in state && state[id] == Done ==>
          tasks[id].key in store && store[tasks[id].key] == tasks[id].value)
    && (forall k :: k in store ==> IsStored(tasks, state, k, store[k]))
    && |store| == |InState(state, Done)|
  }

  ghost predicate Sizes(workers: map<WorkerId, Conn>) {
    forall w :: w in workers ==> 0 <= workers[w].size <= workers[w].capacity == QUEUE_CAPACITY
  }

  ghost predicate Inv(m: Master) {
    && Tables(m.tasks, m.state)
    && Queues(m.state, m.normal, Pending)
    && Queues(m.state, m.retry, Retry)
    && Owned(m.tasks, m.state, m.workers)
    && Stored(m.tasks, m.state, m.store)
    && Sizes(m.workers)
  }

  /** The generated tasks, all pending, and the registered workers, all connected and empty. */
  ghost predicate Initial(m: Master) {
    && m.state == (map id | id in m.tasks :: Pending)
    && Tables(m.tasks, m.state)
    && NoDup(m.normal) && Elems(m.normal) == m.tasks.Keys
    && m.retry == [] && m.store == map[]
    && (forall id :: id in m.tasks ==> m.tasks[id].attempt == 0 && m.tasks[id].previous.None?)
    && (forall w :: w in m.workers ==> m.workers[w] == Conn(true, 0, QUEUE_CAPACITY, {}))
  }
}
