/** From the draw to the finished store: what the master's run() delivers when distribution returns. */
module MasterCompletion {
  import opened Basics
  import opened Models
  import opened Generation
  import opened MasterSpec
  import opened MasterLaws
  import opened MasterRuns
  import opened MasterScheduler

  /** Prepared with these tasks, with these workers registered. */
  ghost function Launch(ts: seq<Task>, workerIds: set<WorkerId>): Master {
    Master(TaskTable(ts), AllPending(ts), TaskIds(ts), [], map[],
           map w | w in workerIds :: Conn(true, 0, QUEUE_CAPACITY, {}))
  }

  lemma {:induction false} KeysAndValuesStay(h: History, es: seq<Event>)
    requires Inv(h.master) && AllPossible(h.master, es)
    ensures var r := Run(h, es).master;
            && r.tasks.Keys == h.master.tasks.Keys
            && forall id :: id in r.tasks ==>
                 r.tasks[id].key == h.master.tasks[id].key && r.tasks[id].value == h.master.tasks[id].value
    decreases |es|
  {
    hide Inv, Step, Effects, Effective, Possible;
    if |es| == 0 {
    } else {
      StepInv(h.master, es[0]);
      TasksStay(h.master, es[0]);
      KeysAndValuesStay(Record(h, es[0]), es[1..]);
    }
  }

  /** Every stored key is one that was drawn, stored with the value drawn for it. */
  ghost predicate DrawnEntries(store: map<string, int>, ts: seq<Task>) {
    forall k :: k in store ==> exists i :: 0 <= i < |ts| && ts[i].key == k && ts[i].value == store[k]
  }

  /** A four-digit key, read back, is one that was drawn, with this value. */
  ghost predicate FromDraw(k: string, value: int, keys: seq<nat>, values: seq<int>)
    requires |keys| == |values|
  {
    |k| == 4 && exists i :: 0 <= i < |keys| && NumeralValue(k, 16) == keys[i] && value == values[i]
  }

  ghost predicate StoredFor(store: map<string, int>, key: nat, value: int) {
    exists k :: k in store && NumeralValue(k, 16) == key && store[k] == value
  }

  ghost predicate Complete(store: map<string, int>, ts: seq<Task>) {
    forall i :: 0 <= i < |ts| ==> ts[i].key in store && store[ts[i].key] == ts[i].value
  }

  lemma StoredAreDrawn(m: Master, ts: seq<Task>)
    requires Stored(m.tasks, m.state, m.store)
    requires forall id :: id in m.tasks ==>
             exists i :: 0 <= i < |ts| && ts[i].key == m.tasks[id].key && ts[i].value == m.tasks[id].value
    ensures DrawnEntries(m.store, ts)
  {
  }

  lemma EveryTaskDrawn(h: History, es: seq<Event>, ts: seq<Task>)
    requires Inv(h.master) && AllPossible(h.master, es) && h.master.tasks == TaskTable(ts)
    ensures var r := Run(h, es).master;
            forall id :: id in r.tasks ==>
              exists i :: 0 <= i < |ts| && ts[i].key == r.tasks[id].key && ts[i].value == r.tasks[id].value
  {
    KeysAndValuesStay(h, es);
    TableEntries(ts);
    hide Run, TaskTable, Inv;
    var r := Run(h, es).master;
    forall id | id in r.tasks
      ensures exists i :: 0 <= i < |ts| && ts[i].key == r.tasks[id].key && ts[i].value == r.tasks[id].value
    {
      var i :| 0 <= i < |ts| && ts[i] == h.master.tasks[id];
    }
  }

  /**
   * In every run over every draw, the store holds drawn keys with the values drawn with them only, at most `count` of
   * them; and it holds `count`, the exit test of the distribution loop, exactly if every draw is stored, at which
   * point nothing is queued, waiting or assigned.
   */
  lemma ExactStore(count: int, keys: seq<nat>, values: seq<int>, ts: seq<Task>, workerIds: set<WorkerId>,
                   es: seq<Event>)
    requires |keys| == |values| && Drawn(count, keys, values) && GenerateTasks(count, keys, values) == Ok(ts)
    requires AllPossible(Launch(ts, workerIds), es)
    ensures var r := Run(Start(Launch(ts, workerIds)), es).master;
            && (forall k :: k in r.store ==> FromDraw(k, r.store[k], keys, values))
            && |r.store| <= count
            && (|r.store| == count <==> forall i :: 0 <= i < count ==> StoredFor(r.store, keys[i], values[i]))
            && (|r.store| == count ==>
                  r.normal == [] && r.retry == [] && forall w :: w in r.workers ==> r.workers[w].held == {})
  {
    hide Run, GenerateTasks, Drawn, Generated, Complete, DrawnEntries, Launch, NumeralValue, AllPossible, ValidTask;
    hide FromDraw, StoredFor;
    GeneratedLaw(count, keys, values);
    ExactEntries(ts, workerIds, es);
    DrawnApart(count, keys, values);
    StoreReads(Run(Start(Launch(ts, workerIds)), es).master.store, keys, values, ts);
  }

  /** The same for any generated tasks, on the tasks. */
  lemma ExactEntries(ts: seq<Task>, workerIds: set<WorkerId>, es: seq<Event>)
    requires Generated(ts) && AllPossible(Launch(ts, workerIds), es)
    ensures var r := Run(Start(Launch(ts, workerIds)), es).master;
            && DrawnEntries(r.store, ts) && |r.store| <= |ts|
            && (|r.store| == |ts| <==> Complete(r.store, ts))
            && (|r.store| == |ts| ==>
                  r.normal == [] && r.retry == [] && forall w :: w in r.workers ==> r.workers[w].held == {})
  {
    hide Inv, Run, Generated, TaskTable, IsStored, Complete, Launch;
    var m := Launch(ts, workerIds);
    Reached(ts, workerIds, es);
    EveryTaskDrawn(Start(m), es, ts);
    var r := Run(Start(m), es).master;
    Completion(r);
    InvStored(r);
    StoredAreDrawn(r, ts);
    StoreBound(r);
    AllStored(r, m, ts);
  }

  lemma DrawnApart(count: int, keys: seq<nat>, values: seq<int>)
    requires Drawn(count, keys, values)
    ensures |keys| == |values| == count && NoDup(keys)
  {
  }

  /** The same on keys and values themselves. */
  lemma StoreReads(store: map<string, int>, keys: seq<nat>, values: seq<int>, ts: seq<Task>)
    requires |keys| == |values| == |ts| && NoDup(keys) && DrawnEntries(store, ts)
    requires forall i :: 0 <= i < |ts| ==>
               ts[i].value == values[i] && |ts[i].key| == 4 && NumeralValue(ts[i].key, 16) == keys[i]
    ensures forall k :: k in store ==> FromDraw(k, store[k], keys, values)
    ensures Complete(store, ts) <==> forall i :: 0 <= i < |keys| ==> StoredFor(store, keys[i], values[i])
  {
    hide NumeralValue;
    forall k | k in store ensures FromDraw(k, store[k], keys, values) {
      var i :| 0 <= i < |ts| && ts[i].key == k && ts[i].value == store[k];
    }
    hide Complete, StoredFor, DrawnEntries;
    forall i | 0 <= i < |ts| ensures StoredFor(store, keys[i], values[i]) <==> IsStoredAs(store, ts[i]) {
      StoredReads(store, keys, values, ts, i);
    }
    CompleteMeans(store, ts);
  }

  predicate IsStoredAs(store: map<string, int>, t: Task) {
    t.key in store && store[t.key] == t.value
  }

  lemma CompleteMeans(store: map<string, int>, ts: seq<Task>)
    ensures Complete(store, ts) <==> forall i :: 0 <= i < |ts| ==> IsStoredAs(store, ts[i])
  {
  }

  lemma StoredReads(store: map<string, int>, keys: seq<nat>, values: seq<int>, ts: seq<Task>, i: nat)
    requires |keys| == |values| == |ts| && NoDup(keys) && DrawnEntries(store, ts) && i < |ts|
    requires forall j :: 0 <= j < |ts| ==>
               ts[j].value == values[j] && |ts[j].key| == 4 && NumeralValue(ts[j].key, 16) == keys[j]
    ensures StoredFor(store, keys[i], values[i]) <==> IsStoredAs(store, ts[i])
  {
    hide NumeralValue;
    if k :| k in store && NumeralValue(k, 16) == keys[i] && store[k] == values[i] {
      var j :| 0 <= j < |ts| && ts[j].key == k && ts[j].value == store[k];
      assert keys[j] == keys[i] && i == j;
    }
  }

  lemma InvStored(m: Master)
    requires Inv(m)
    ensures Stored(m.tasks, m.state, m.store) && m.state.Keys == m.tasks.Keys
  {
  }

  lemma Reached(ts: seq<Task>, workerIds: set<WorkerId>, es: seq<Event>)
    requires Generated(ts) && AllPossible(Launch(ts, workerIds), es)
    ensures var m := Launch(ts, workerIds);
            var r := Run(Start(m), es).master;
            && Initial(m) && Inv(m) && m.tasks == TaskTable(ts)
            && Inv(r) && r.tasks.Keys == m.tasks.Keys && |r.tasks| == |ts|
            && forall id :: id in r.tasks ==>
                 r.tasks[id].key == m.tasks[id].key && r.tasks[id].value == m.tasks[id].value
  {
    var m := Launch(ts, workerIds);
    PreparedInitial(ts, m.workers);
    TableIds(ts);
    hide Inv, Run, Generated, TaskTable, AllPending, TaskIds, Initial;
    EveryRun(m, es);
    InitialInv(m);
    KeysAndValuesStay(Start(m), es);
    MasterRuntime.SameCount(Run(Start(m), es).master.tasks, m.tasks);
  }

  lemma StoreBound(m: Master)
    requires Inv(m)
    ensures |m.store| <= |m.tasks|
  {
    assert InState(m.state, Done) <= m.tasks.Keys;
    SubsetCount(InState(m.state, Done), m.tasks.Keys);
  }

  lemma AllStored(r: Master, m: Master, ts: seq<Task>)
    requires Inv(r) && Generated(ts) && m.tasks == TaskTable(ts) && r.tasks.Keys == m.tasks.Keys
    requires forall id :: id in r.tasks ==> r.tasks[id].key == m.tasks[id].key && r.tasks[id].value == m.tasks[id].value
    ensures Complete(r.store, ts) <==> forall id :: id in r.tasks ==> r.state[id] == Done
  {
    hide Owned, Queues, Generated, TaskTable, Sizes;
    TableEntries(ts);
    if forall id :: id in r.tasks ==> r.state[id] == Done {
      forall i | 0 <= i < |ts| ensures ts[i].key in r.store && r.store[ts[i].key] == ts[i].value {
        TableAt(ts, i);
      }
    }
    if Complete(r.store, ts) {
      forall id | id in r.tasks ensures r.state[id] == Done {
        assert m.tasks[id] in ts;
        var i :| 0 <= i < |ts| && ts[i] == m.tasks[id];
        assert IsStored(r.tasks, r.state, ts[i].key, r.store[ts[i].key]);
      }
    }
  }
}
