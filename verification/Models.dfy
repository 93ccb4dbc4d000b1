/**
 * Tasks and worker statuses: the records of src/kvstore/common/models.py, what makes one valid, and their
 * journey through the dictionaries that messages carry.
 */
module Models {
  import opened Basics

  type TaskId = string
  type WorkerId = string
  type RequestId = string

  const QUEUE_CAPACITY: int := 10
  const MAX_KEYS: int := 65536

  datatype Task = Task(
    id: TaskId,
    key: string,
    value: int,
    attempt: int,
    previous: Option<WorkerId>,
    assignment: Option<WorkerId>,
    enqueuedAt: real)

  /** The ids of a list of tasks, in order. */
  function TaskIds(ts: seq<Task>): (r: seq<TaskId>)
    ensures |r| == |ts|
  {
    if |ts| == 0 then [] else [ts[0].id] + TaskIds(ts[1..])
  }

  lemma {:induction false} TaskIdsConcat(a: seq<Task>, b: seq<Task>)
    ensures TaskIds(a + b) == TaskIds(a) + TaskIds(b)
  {
    if |a| == 0 {
      assert a + b == b;
    } else {
      assert (a + b)[1..] == a[1..] + b;
      TaskIdsConcat(a[1..], b);
    }
  }

  lemma {:induction false} TaskIdsAt(ts: seq<Task>, i: nat)
    requires i < |ts|
    ensures TaskIds(ts)[i] == ts[i].id
  {
    if i == 0 {
    } else {
      TaskIdsAt(ts[1..], i - 1);
    }
  }

  lemma TaskIdsAppend(front: seq<Task>, last: Task)
    ensures TaskIds(front + [last]) == TaskIds(front) + [last.id]
  {
    TaskIdsConcat(front, [last]);
  }

  lemma TaskIdsLast(ts: seq<Task>)
    requires |ts| > 0
    ensures TaskIds(ts) == TaskIds(ts[..|ts| - 1]) + [ts[|ts| - 1].id]
  {
    hide TaskIds;
    var n := |ts| - 1;
    TaskIdsAppend(ts[..n], ts[n]);
    assert ts == ts[..n] + [ts[n]];
  }

  datatype WorkerStatus = WorkerStatus(worker: WorkerId, size: int, capacity: int, processing: Option<TaskId>) {
    function AvailableCapacity(): int {
      capacity - size
    }

    function EstimatedWaitSeconds(): int {
      2 * size
    }
  }

  datatype Error = Missing | Malformed | Invalid

  // ---- validity -------------------------------------------------------------------------------

  const HEX: string := "0123456789abcdef"

  /** str.lower, on the letters that matter for a key: any other letter is refused before and after. */
  function LowerChar(c: char): char {
    if 'A' <= c <= 'Z' then (c as int + 32) as char else c
  }

  function Lower(s: string): (r: string)
    ensures |r| == |s|
  {
    seq(|s|, i requires 0 <= i < |s| => LowerChar(s[i]))
  }

  predicate IsKey(key: string) {
    |key| == 4 && forall i :: 0 <= i < |key| ==> key[i] in HEX
  }

  predicate ValidTask(t: Task) {
    && t.id != "" && IsKey(t.key) && 1 <= t.value <= 100
    && t.attempt >= 0 && t.enqueuedAt >= 0.0
  }

  predicate ValidStatus(s: WorkerStatus) {
    s.worker != "" && s.capacity == QUEUE_CAPACITY && 0 <= s.size <= s.capacity
  }

  /** Construction: refuses an invalid record, and keeps the key in lower case. */
  function MakeTask(t: Task): Result<Task, Error> {
    var key := Lower(t.key);
    if t.id == "" then Err(Invalid)
    else if |key| != 4 || exists i :: 0 <= i < |key| && key[i] !in HEX then Err(Invalid)
    else if !(1 <= t.value <= 100) then Err(Invalid)
    else if t.attempt < 0 then Err(Invalid)
    else if t.enqueuedAt < 0.0 then Err(Invalid)
    else Ok(t.(key := key))
  }

  function MakeStatus(s: WorkerStatus): Result<WorkerStatus, Error> {
    if s.worker == "" then Err(Invalid)
    else if s.capacity != QUEUE_CAPACITY then Err(Invalid)
    else if !(0 <= s.size <= s.capacity) then Err(Invalid)
    else Ok(s)
  }

  // ---- dictionaries ---------------------------------------------------------------------------

  datatype Json = Null | Text(text: string) | Integer(whole: int) | Number(number: real) | Other

  /** Python's str(), int() and float() on decoded values; the last two may raise. */
  datatype Coercions = Coercions(toStr: Json -> string, toInt: Json -> Option<int>, toFloat: Json -> Option<real>)

  /** What the round trips need of them: a value that has the type already is left alone. */
  ghost predicate Faithful(c: Coercions) {
    && (forall s: string :: c.toStr(Text(s)) == s)
    && (forall i: int :: c.toInt(Integer(i)) == Some(i))
    && (forall r: real :: c.toFloat(Number(r)) == Some(r))
  }

  function Optional(name: Option<string>): Json {
    if name.Some? then Text(name.value) else Null
  }

  function Get(d: map<string, Json>, field: string, default: Json): Json {
    if field in d then d[field] else default
  }

  function OptionalStr(c: Coercions, v: Json): Option<string> {
    if v == Null then None else Some(c.toStr(v))
  }

  function TaskToDict(t: Task): map<string, Json> {
    map["task_id" := Text(t.id), "key" := Text(t.key), "value" := Integer(t.value), "attempt" := Integer(t.attempt),
        "previous_worker_id" := Optional(t.previous), "assignment_worker_id" := Optional(t.assignment),
        "enqueued_at" := Number(t.enqueuedAt)]
  }

  function TaskFromDict(c: Coercions, d: map<string, Json>): Result<Task, Error> {
    if "task_id" !in d || "key" !in d || "value" !in d then Err(Missing) else
      var value := c.toInt(d["value"]);
      var attempt := c.toInt(Get(d, "attempt", Integer(0)));
      var enqueuedAt := c.toFloat(Get(d, "enqueued_at", Number(0.0)));
      if value.None? || attempt.None? || enqueuedAt.None? then Err(Malformed) else
        MakeTask(Task(c.toStr(d["task_id"]), c.toStr(d["key"]), value.value, attempt.value,
                      OptionalStr(c, Get(d, "previous_worker_id", Null)),
                      OptionalStr(c, Get(d, "assignment_worker_id", Null)),
                      enqueuedAt.value))
  }

  function StatusToDict(s: WorkerStatus): map<string, Json> {
    map["worker_id" := Text(s.worker), "queue_size" := Integer(s.size), "queue_capacity" := Integer(s.capacity),
        "processing_task_id" := Optional(s.processing)]
  }

  function StatusFromDict(c: Coercions, d: map<string, Json>): Result<WorkerStatus, Error> {
    if "worker_id" !in d || "queue_size" !in d then Err(Missing) else
      var size := c.toInt(d["queue_size"]);
      var capacity := c.toInt(Get(d, "queue_capacity", Integer(QUEUE_CAPACITY)));
      if size.None? || capacity.None? then Err(Malformed) else
        MakeStatus(WorkerStatus(c.toStr(d["worker_id"]), size.value, capacity.value,
                                OptionalStr(c, Get(d, "processing_task_id", Null))))
  }

  // ---- laws -----------------------------------------------------------------------------------

  lemma LowerIdempotent(s: string)
    ensures Lower(Lower(s)) == Lower(s)
    ensures IsKey(s) ==> Lower(s) == s
  {
  }

  /**
   * Construction delivers valid tasks only, and exactly the valid ones come out as they went in. What it takes is an
   * id, four hexadecimal digits in either case, a value from 1 to 100 and no negative count or time; it changes
   * nothing but the case of the key.
   */
  lemma MakeTaskLaw(t: Task)
    ensures MakeTask(t).Ok? ==> ValidTask(MakeTask(t).value)
    ensures MakeTask(t) == Ok(t) <==> ValidTask(t)
    ensures MakeTask(t).Ok? <==>
            && |t.id| > 0 && |t.key| == 4
            && (forall i :: 0 <= i < 4 ==>
                  '0' <= t.key[i] <= '9' || 'a' <= t.key[i] <= 'f' || 'A' <= t.key[i] <= 'F')
            && 1 <= t.value <= 100 && t.attempt >= 0 && t.enqueuedAt >= 0.0
    ensures MakeTask(t).Ok? ==>
              var r := MakeTask(t).value;
              && r == t.(key := r.key) && |r.key| == 4
              && forall i :: 0 <= i < 4 ==>
                   r.key[i] == if 'A' <= t.key[i] <= 'F' then (t.key[i] as int + 32) as char else t.key[i]
  {
    LowerIdempotent(t.key);
    var key := t.key;
    forall i | 0 <= i < |key|
      ensures Lower(key)[i] in HEX <==> '0' <= key[i] <= '9' || 'a' <= key[i] <= 'f' || 'A' <= key[i] <= 'F'
    {
      assert Lower(key)[i] == LowerChar(key[i]);
      InHex(key[i]);
    }
  }

  lemma InHex(c: char)
    ensures c in HEX <==> '0' <= c <= '9' || 'a' <= c <= 'f'
    ensures LowerChar(c) in HEX <==> '0' <= c <= '9' || 'a' <= c <= 'f' || 'A' <= c <= 'F'
  {
    HexDigit(c);
    HexDigit(LowerChar(c));
  }

  lemma HexDigit(c: char)
    ensures c in HEX <==> '0' <= c <= '9' || 'a' <= c <= 'f'
  {
    if '0' <= c <= '9' { assert HEX[c as int - '0' as int] == c; }
    if 'a' <= c <= 'f' { assert HEX[c as int - 'a' as int + 10] == c; }
  }

  /** A status is built exactly for a named worker, the capacity 10 and a size within it. */
  lemma MakeStatusLaw(s: WorkerStatus)
    ensures MakeStatus(s).Ok? <==> |s.worker| > 0 && s.capacity == 10 && 0 <= s.size <= 10
    ensures MakeStatus(s).Ok? ==> MakeStatus(s) == Ok(s)
    ensures ValidStatus(s) <==> MakeStatus(s).Ok?
    ensures s.AvailableCapacity() == s.capacity - s.size && s.EstimatedWaitSeconds() == s.size * 2
  {
  }

  lemma TaskFields(t: Task)
    ensures var d := TaskToDict(t);
            && "task_id" in d && d["task_id"] == Text(t.id) && "key" in d && d["key"] == Text(t.key)
            && "value" in d && d["value"] == Integer(t.value)
            && Get(d, "attempt", Integer(0)) == Integer(t.attempt)
            && Get(d, "previous_worker_id", Null) == Optional(t.previous)
            && Get(d, "assignment_worker_id", Null) == Optional(t.assignment)
            && Get(d, "enqueued_at", Number(0.0)) == Number(t.enqueuedAt)
  {
  }

  /** Which dictionaries are refused, and how: a missing field is noticed before a value that is no number. */
  lemma ReadFaults(c: Coercions, d: map<string, Json>)
    ensures TaskFromDict(c, d) == Err(Missing) <==> "task_id" !in d || "key" !in d || "value" !in d
    ensures TaskFromDict(c, d) == Err(Malformed) <==>
            && "task_id" in d && "key" in d && "value" in d
            && (c.toInt(d["value"]).None? || ("attempt" in d && c.toInt(d["attempt"]).None?)
                || ("attempt" !in d && c.toInt(Integer(0)).None?)
                || ("enqueued_at" in d && c.toFloat(d["enqueued_at"]).None?)
                || ("enqueued_at" !in d && c.toFloat(Number(0.0)).None?))
    ensures StatusFromDict(c, d) == Err(Missing) <==> "worker_id" !in d || "queue_size" !in d
  {
  }

  /** What is read when fields are absent: no attempt, no stamp, no workers, the prescribed capacity. */
  lemma Defaults(c: Coercions, id: string, key: string, value: int, w: string, size: int)
    requires Faithful(c)
    ensures var d := map["task_id" := Text(id), "key" := Text(key), "value" := Integer(value)];
            TaskFromDict(c, d) == MakeTask(Task(id, key, value, 0, None, None, 0.0))
    ensures var d := map["worker_id" := Text(w), "queue_size" := Integer(size)];
            StatusFromDict(c, d) == MakeStatus(WorkerStatus(w, size, 10, None))
  {
    hide MakeTask;
  }

  lemma OptionalRoundTrip(c: Coercions, name: Option<string>)
    requires Faithful(c)
    ensures OptionalStr(c, Optional(name)) == name
  {
  }

  /**
   * A task survives the journey through a dictionary exactly if it is valid, and anything that arrives is valid. On
   * the way its fields have the names of the protocol.
   */
  lemma TaskRoundTrip(c: Coercions, t: Task)
    requires Faithful(c)
    ensures TaskFromDict(c, TaskToDict(t)) == Ok(t) <==> ValidTask(t)
    ensures TaskFromDict(c, TaskToDict(t)) == MakeTask(t)
    ensures TaskToDict(t).Keys ==
            {"task_id", "key", "value", "attempt", "previous_worker_id", "assignment_worker_id", "enqueued_at"}
    ensures var d := TaskToDict(t);
            && d["task_id"] == Text(t.id) && d["key"] == Text(t.key) && d["value"] == Integer(t.value)
            && d["attempt"] == Integer(t.attempt) && d["enqueued_at"] == Number(t.enqueuedAt)
            && d["previous_worker_id"] == (if t.previous.Some? then Text(t.previous.value) else Null)
            && d["assignment_worker_id"] == (if t.assignment.Some? then Text(t.assignment.value) else Null)
  {
    TaskNames(t);
    hide TaskToDict, MakeTask, ValidTask, OptionalStr, Get;
    MakeTaskLaw(t);
    TaskFields(t);
    OptionalRoundTrip(c, t.previous);
    OptionalRoundTrip(c, t.assignment);
  }

  lemma TaskNames(t: Task)
    ensures TaskToDict(t).Keys ==
            {"task_id", "key", "value", "attempt", "previous_worker_id", "assignment_worker_id", "enqueued_at"}
    ensures var d := TaskToDict(t);
            && d["task_id"] == Text(t.id) && d["key"] == Text(t.key) && d["value"] == Integer(t.value)
            && d["attempt"] == Integer(t.attempt) && d["enqueued_at"] == Number(t.enqueuedAt)
            && d["previous_worker_id"] == Optional(t.previous) ==
                 (if t.previous.Some? then Text(t.previous.value) else Null)
            && d["assignment_worker_id"] == Optional(t.assignment) ==
                 (if t.assignment.Some? then Text(t.assignment.value) else Null)
  {
  }

  /** Whatever dictionary was read, sending the result on and reading it again changes nothing. */
  lemma TaskReadTwice(c: Coercions, d: map<string, Json>)
    requires Faithful(c)
    ensures var r := TaskFromDict(c, d); r.Ok? ==> ValidTask(r.value) && TaskFromDict(c, TaskToDict(r.value)) == r
  {
    var r := TaskFromDict(c, d);
    if r.Ok? {
      var raw := Task(c.toStr(d["task_id"]), c.toStr(d["key"]), c.toInt(d["value"]).value,
                      c.toInt(Get(d, "attempt", Integer(0))).value,
                      OptionalStr(c, Get(d, "previous_worker_id", Null)),
                      OptionalStr(c, Get(d, "assignment_worker_id", Null)),
                      c.toFloat(Get(d, "enqueued_at", Number(0.0))).value);
      MakeTaskLaw(raw);
      TaskRoundTrip(c, r.value);
    }
  }

  lemma StatusRoundTrip(c: Coercions, s: WorkerStatus)
    requires Faithful(c)
    ensures StatusFromDict(c, StatusToDict(s)) == Ok(s) <==> ValidStatus(s)
    ensures StatusFromDict(c, StatusToDict(s)).Ok? ==> 0 <= s.AvailableCapacity() <= QUEUE_CAPACITY
    ensures StatusToDict(s).Keys == {"worker_id", "queue_size", "queue_capacity", "processing_task_id"}
    ensures var d := StatusToDict(s);
            && d["worker_id"] == Text(s.worker) && d["queue_size"] == Integer(s.size)
            && d["queue_capacity"] == Integer(s.capacity)
            && d["processing_task_id"] == (if s.processing.Some? then Text(s.processing.value) else Null)
  {
  }
}
