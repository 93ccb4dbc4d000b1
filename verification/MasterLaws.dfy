/** What every locked section of the master keeps. */
module MasterLaws {
  import opened Basics
  import opened Models
  import opened MasterSpec

  // ---- the chosen worker ----------------------------------------------------------------------

  lemma PrecedesTransitive(workers: map<WorkerId, Conn>, a: WorkerId, b: WorkerId, c: WorkerId)
    requires a in workers && b in workers && c in workers
    requires Precedes(workers, a, b) && Precedes(workers, b, c)
    ensures Precedes(workers, a, c)
  {
    if LexLe(a, b) && LexLe(b, c) { LexTransitive(a, b, c); }
  }

  lemma {:induction false} BestOf(workers: map<WorkerId, Conn>, s: set<WorkerId>) returns (w: WorkerId)
    requires s != {} && s <= workers.Keys
    ensures w in s && forall v :: v in s ==> Precedes(workers, w, v)
    decreases |s|
  {
    w :| w in s;
    LexTotal(w, w);
    if s != {w} {
      var u := BestOf(workers, s - {w});
      LexTotal(u, w);
      if Precedes(workers, u, w) {
        w := u;
      } else {
        forall v | v in s - {w} ensures Precedes(workers, w, v) { PrecedesTransitive(workers, w, u, v); }
      }
    }
  }

  /**
   * Some worker is chosen exactly when one is connected, has room and was not the last to fail the task; the chosen
   * one has the most room of these, and of those with as much room the smallest id. There is only one such choice.
   */
  lemma ChooseLaw(workers: map<WorkerId, Conn>, t: Task)
    ensures Choose(workers, t).Some? <==>
            exists w :: w in workers && workers[w].connected && workers[w].size < workers[w].capacity
                        && t.previous != Some(w)
    ensures Choose(workers, t).Some? ==>
              var w := Choose(workers, t).value;
              && w in workers && workers[w].connected && workers[w].size < workers[w].capacity && t.previous != Some(w)
              && forall v :: v in workers && workers[v].connected && workers[v].size < workers[v].capacity
                             && t.previous != Some(v) ==>
                   var roomW, roomV := workers[w].capacity - workers[w].size, workers[v].capacity - workers[v].size;
                   roomW > roomV || (roomW == roomV && LexLe(w, v))
    ensures forall w :: IsBest(workers, t, w) ==> Choose(workers, t) == Some(w)
  {
    BestChosen(workers, t);
    if w :| w in workers && workers[w].connected && workers[w].size < workers[w].capacity && t.previous != Some(w) {
      assert Eligible(workers, t, w);
    }
    if Choose(workers, t).Some? { BestFields(workers, t, Choose(workers, t).value); }
  }

  /** What it is to be best, field by field. */
  lemma BestFields(workers: map<WorkerId, Conn>, t: Task, w: WorkerId)
    requires IsBest(workers, t, w)
    ensures w in workers && workers[w].connected && workers[w].size < workers[w].capacity && t.previous != Some(w)
    ensures forall v :: v in workers && workers[v].connected && workers[v].size < workers[v].capacity
                        && t.previous != Some(v) ==>
              var roomW, roomV := workers[w].capacity - workers[w].size, workers[v].capacity - workers[v].size;
              roomW > roomV || (roomW == roomV && LexLe(w, v))
  {
    forall v | v in workers && workers[v].connected && workers[v].size < workers[v].capacity && t.previous != Some(v)
      ensures var roomW, roomV := workers[w].capacity - workers[w].size, workers[v].capacity - workers[v].size;
              roomW > roomV || (roomW == roomV && LexLe(w, v))
    {
      assert Eligible(workers, t, v);
      assert Precedes(workers, w, v);
    }
  }

  lemma BestChosen(workers: map<WorkerId, Conn>, t: Task)
    ensures Choose(workers, t).Some? <==> exists w :: Eligible(workers, t, w)
    ensures forall w :: IsBest(workers, t, w) ==> Choose(workers, t) == Some(w)
  {
    var s := set w | w in workers && Eligible(workers, t, w);
    if exists w :: Eligible(workers, t, w) {
      var w0 :| Eligible(workers, t, w0);
      assert w0 in s;
      var w := BestOf(workers, s);
      assert IsBest(workers, t, w);
    }
    forall w | IsBest(workers, t, w) ensures Choose(workers, t) == Some(w) {
      BestUnique(workers, t, w, Choose(workers, t).value);
    }
  }

  lemma BestUnique(workers: map<WorkerId, Conn>, t: Task, a: WorkerId, b: WorkerId)
    requires IsBest(workers, t, a) && IsBest(workers, t, b)
    ensures a == b
  {
    assert Precedes(workers, a, b) && Precedes(workers, b, a);
    LexAntisymmetric(a, b);
  }

  // ---- the queues -----------------------------------------------------------------------------

  /** How one task's change of state shows in the queue of a state `s`. */
  lemma QueueMoves(state: map<TaskId, Status>, q: seq<TaskId>, s: Status, id: TaskId, s': Status)
    requires Queues(state, q, s) && id in state
    ensures state[id] != s && s' != s ==> Queues(state[id := s'], q, s)
    ensures state[id] != s && s' == s ==> Queues(state[id := s'], q + [id], s)
    ensures |q| > 0 && q[0] == id && s' != s ==> Queues(state[id := s'], q[1..], s)
  {
    var state' := state[id := s'];
    if state[id] != s {
      assert id !in Elems(q);
      if s' == s {
        assert Elems(q + [id]) == Elems(q) + {id} == InState(state', s);
      } else {
        assert InState(state', s) == InState(state, s);
      }
    } else if |q| > 0 && q[0] == id && s' != s {
      assert q == [q[0]] + q[1..];
      assert Elems(q[1..]) == Elems(q) - {id} == InState(state', s);
    }
  }

  lemma Rotates(q: seq<TaskId>)
    requires |q| > 0 && NoDup(q)
    ensures NoDup(q[1..] + [q[0]]) && Elems(q[1..] + [q[0]]) == Elems(q)
  {
  }

  lemma Appends(q: seq<TaskId>, more: seq<TaskId>)
    requires NoDup(q) && NoDup(more) && Elems(q) !! Elems(more)
    ensures NoDup(q + more) && Elems(q + more) == Elems(q) + Elems(more)
  {
    var s := q + more;
    forall i, j | 0 <= i < j < |s| ensures s[i] != s[j] {
      assert s[i] in Elems(if i < |q| then q else more) && s[j] in Elems(if j < |q| then q else more);
    }
  }

  // ---- accepted results -----------------------------------------------------------------------

  lemma FinishOwned(tasks: map<TaskId, Task>, state: map<TaskId, Status>, workers: map<WorkerId, Conn>,
                    id: TaskId, t: Task, s: Status)
    requires Owned(tasks, state, workers) && Tables(tasks, state)
    requires id in tasks && t.id == id && s != Assigned
    ensures Owned(tasks[id := t], state[id := s], ClearAssignment(workers, id))
  {
  }

  lemma FreshKey(m: Master, id: TaskId)
    requires Tables(m.tasks, m.state) && Stored(m.tasks, m.state, m.store)
    requires id in m.tasks && m.state[id] != Done
    ensures m.tasks[id].key !in m.store
  {
  }

  lemma OneMore(store: map<string, int>, key: string, value: int, state: map<TaskId, Status>, id: TaskId)
    requires key !in store && id in state && state[id] != Done && |store| == |InState(state, Done)|
    ensures |store[key := value]| == |InState(state[id := Done], Done)| == |store| + 1
  {
    assert InState(state[id := Done], Done) == InState(state, Done) + {id};
    assert store[key := value].Keys == store.Keys + {key};
  }

  lemma SucceedStored(m: Master, id: TaskId)
    requires Tables(m.tasks, m.state) && Stored(m.tasks, m.state, m.store)
    requires id in m.tasks && m.state[id] != Done
    ensures Stored(m.tasks, m.state[id := Done], m.store[m.tasks[id].key := m.tasks[id].value])
  {
    var state' := m.state[id := Done];
    var key := m.tasks[id].key;
    var store' := m.store[key := m.tasks[id].value];
    FreshKey(m, id);
    OneMore(m.store, key, m.tasks[id].value, m.state, id);
    hide InState;
    forall k | k in store' ensures IsStored(m.tasks, state', k, store'[k]) {
      if k == key { assert state'[id] == Done; } else {
        assert IsStored(m.tasks, m.state, k, m.store[k]);
        var x :| x in m.tasks && x in m.state && m.state[x] == Done && m.tasks[x].key == k &&
            m.tasks[x].value == m.store[k];
        assert state'[x] == Done;
      }
    }
  }

  lemma SucceedInv(m: Master, id: TaskId, assignee: WorkerId)
    requires Inv(m)
    ensures Inv(Succeed(m, id, assignee))
  {
    hide Queues, Owned, Stored;
    if Accepts(m, id, assignee) {
      QueueMoves(m.state, m.normal, Pending, id, Done);
      QueueMoves(m.state, m.retry, Retry, id, Done);
      FinishOwned(m.tasks, m.state, m.workers, id, m.tasks[id], Done);
      assert m.tasks[id := m.tasks[id]] == m.tasks;
      SucceedStored(m, id);
    }
  }

  /** Changing a task's bookkeeping, not its key, value or done state, leaves the store right. */
  lemma StoredFrame(tasks: map<TaskId, Task>, tasks': map<TaskId, Task>, state: map<TaskId, Status>,
                    state': map<TaskId, Status>, store: map<string, int>)
    requires Stored(tasks, state, store)
    requires tasks'.Keys == tasks.Keys && state'.Keys == state.Keys
    requires forall id :: id in tasks ==> tasks'[id].key == tasks[id].key && tasks'[id].value == tasks[id].value
    requires forall id :: id in state ==> (state'[id] == Done <==> state[id] == Done)
    ensures Stored(tasks', state', store)
  {
    assert InState(state', Done) == InState(state, Done);
    forall k | k in store ensures IsStored(tasks', state', k, store[k]) {
      assert IsStored(tasks, state, k, store[k]);
      var x :| x in tasks && x in state && state[x] == Done && tasks[x].key == k && tasks[x].value == store[k];
      assert x in tasks' && state'[x] == Done;
    }
  }

  /** Likewise for the tables, as long as the ids and keys stay. */
  lemma TablesFrame(tasks: map<TaskId, Task>, tasks': map<TaskId, Task>, state: map<TaskId, Status>,
      state': map<TaskId, Status>)
    requires Tables(tasks, state)
    requires tasks'.Keys == tasks.Keys && state'.Keys == state.Keys
    requires forall id :: id in tasks ==> tasks'[id].key == tasks[id].key && tasks'[id].id == tasks[id].id
    ensures Tables(tasks', state')
  {
  }

  /** A failure touches one task's bookkeeping and state, and who holds it. */
  lemma FailTouches(m: Master, sender: WorkerId, id: TaskId, assignee: WorkerId, overflow: bool)
    requires Accepts(m, id, assignee) && m.state.Keys == m.tasks.Keys
    ensures var r := Fail(m, sender, id, assignee, overflow);
            && r.state == m.state[id := Retry] && r.store == m.store
            && r.normal == m.normal && r.retry == m.retry + [id]
            && id in r.tasks && r.tasks == m.tasks[id := r.tasks[id]] && r.workers == ClearAssignment(m.workers, id)
            && r.tasks.Keys == m.tasks.Keys && r.state.Keys == m.state.Keys
            && (forall x :: x in m.tasks ==>
                  && r.tasks[x].key == m.tasks[x].key
                  && r.tasks[x].value == m.tasks[x].value
                  && r.tasks[x].id == m.tasks[x].id)
            && (forall x :: x in m.state ==> (r.state[x] == Done <==> m.state[x] == Done))
            && (Sizes(m.workers) ==> Sizes(r.workers))
  {
  }

  lemma FailInv(m: Master, sender: WorkerId, id: TaskId, assignee: WorkerId, overflow: bool)
    requires Inv(m)
    ensures Inv(Fail(m, sender, id, assignee, overflow))
  {
    hide Queues, Owned, Stored, Tables, Sizes, Fail, ClearAssignment;
    InvTables(m);
    if Accepts(m, id, assignee) {
      var r := Fail(m, sender, id, assignee, overflow);
      FailTouches(m, sender, id, assignee, overflow);
      QueueMoves(m.state, m.normal, Pending, id, Retry);
      QueueMoves(m.state, m.retry, Retry, id, Retry);
      FinishOwned(m.tasks, m.state, m.workers, id, r.tasks[id], Retry);
      TablesFrame(m.tasks, r.tasks, m.state, r.state);
      StoredFrame(m.tasks, r.tasks, m.state, r.state, m.store);
    } else {
      FailIgnored(m, sender, id, assignee, overflow);
    }
  }

  lemma FailIgnored(m: Master, sender: WorkerId, id: TaskId, assignee: WorkerId, overflow: bool)
    requires !Accepts(m, id, assignee)
    ensures Fail(m, sender, id, assignee, overflow) == m
  {
  }

  lemma InvTables(m: Master)
    requires Inv(m)
    ensures m.state.Keys == m.tasks.Keys && forall id :: id in m.tasks ==> m.tasks[id].id == id
  {
  }

  // ---- reports and disconnects ----------------------------------------------------------------

  lemma ReportInv(m: Master, w: WorkerId, size: int, capacity: int)
    requires Inv(m)
    ensures Inv(Report(m, w, size, capacity))
  {
  }

  lemma DisconnectQueues(m: Master, ids: set<TaskId>, order: seq<TaskId>)
    requires Queues(m.state, m.normal, Pending) && Queues(m.state, m.retry, Retry)
    requires ids <= InState(m.state, Assigned) && Lists(order, ids)
    ensures Queues(MarkRetry(m.state, ids), m.normal, Pending)
    ensures Queues(MarkRetry(m.state, ids), m.retry + order, Retry)
    ensures InState(MarkRetry(m.state, ids), Done) == InState(m.state, Done)
    ensures InState(MarkRetry(m.state, ids), Assigned) == InState(m.state, Assigned) - ids
  {
    var state' := MarkRetry(m.state, ids);
    assert InState(state', Pending) == InState(m.state, Pending);
    assert InState(state', Retry) == InState(m.state, Retry) + ids;
    Appends(m.retry, order);
  }

  lemma DisconnectOwned(m: Master, w: WorkerId, order: seq<TaskId>)
    requires Tables(m.tasks, m.state) && Owned(m.tasks, m.state, m.workers) && w in m.workers && m.workers[w].connected
    ensures var r := Disconnect(m, w, order); Owned(r.tasks, r.state, r.workers)
    ensures m.workers[w].held <= InState(m.state, Assigned)
  {
    var r := Disconnect(m, w, order);
    assert Holds(m.tasks, m.state, m.workers[w], w);
    forall v | v in r.workers ensures Holds(r.tasks, r.state, r.workers[v], v) {
      assert Holds(m.tasks, m.state, m.workers[v], v);
    }
    forall id | id in r.tasks && id in r.state && r.state[id] == Assigned ensures Held(r.workers, r.tasks[id]) {
      assert Held(m.workers, m.tasks[id]);
    }
  }

  lemma DisconnectTouches(m: Master, w: WorkerId, order: seq<TaskId>)
    requires w in m.workers && m.workers[w].connected
    requires forall x :: x in m.workers[w].held ==> x in m.state && m.state[x] == Assigned
    ensures var r := Disconnect(m, w, order);
            && r.state == MarkRetry(m.state, m.workers[w].held) && r.store == m.store
            && r.normal == m.normal && r.retry == m.retry + order
            && r.tasks.Keys == m.tasks.Keys && r.state.Keys == m.state.Keys && r.workers.Keys == m.workers.Keys
            && (forall x :: x in m.tasks ==>
                  && r.tasks[x].key == m.tasks[x].key
                  && r.tasks[x].value == m.tasks[x].value
                  && r.tasks[x].id == m.tasks[x].id)
            && (forall x :: x in m.state ==> (r.state[x] == Done <==> m.state[x] == Done))
            && (forall v :: v in m.workers ==>
                  r.workers[v].capacity == m.workers[v].capacity && r.workers[v].size == m.workers[v].size)
  {
  }

  lemma DisconnectInv(m: Master, w: WorkerId, order: seq<TaskId>)
    requires Inv(m) && w in m.workers && Lists(order, m.workers[w].held)
    ensures Inv(Disconnect(m, w, order))
  {
    hide Queues, Owned, Stored, Tables, Disconnect, MarkRetry, Lists;
    if m.workers[w].connected {
      var r := Disconnect(m, w, order);
      DisconnectOwned(m, w, order);
      assert forall x :: x in m.workers[w].held ==> x in InState(m.state, Assigned);
      DisconnectTouches(m, w, order);
      DisconnectQueues(m, m.workers[w].held, order);
      TablesFrame(m.tasks, r.tasks, m.state, r.state);
      StoredFrame(m.tasks, r.tasks, m.state, r.state, m.store);
    } else {
      LostTwice(m, w, order);
    }
  }

  /** Losing a worker that is gone already changes nothing. */
  lemma LostTwice(m: Master, w: WorkerId, order: seq<TaskId>)
    requires w in m.workers && !m.workers[w].connected
    ensures Disconnect(m, w, order) == m
  {
  }

  // ---- assignments ----------------------------------------------------------------------------

  lemma AssignOwned(m: Master, id: TaskId, w: WorkerId, now: real)
    requires Tables(m.tasks, m.state) && Owned(m.tasks, m.state, m.workers)
    requires id in m.tasks && m.state[id] != Assigned && Eligible(m.workers, m.tasks[id], w)
    ensures var r := AssignTo(m, id, w, now); Owned(r.tasks, r.state, r.workers)
  {
    var r := AssignTo(m, id, w, now);
    forall v | v in r.workers ensures Holds(r.tasks, r.state, r.workers[v], v) {
      assert Holds(m.tasks, m.state, m.workers[v], v);
    }
    forall x | x in r.tasks && x in r.state && r.state[x] == Assigned ensures Held(r.workers, r.tasks[x]) {
      assert x != id ==> Held(m.workers, m.tasks[x]);
    }
  }

  /** An assignment touches one task's bookkeeping and state, and one worker's size. */
  lemma AssignTouches(m: Master, id: TaskId, w: WorkerId, now: real)
    requires id in m.tasks && id in m.state && m.state[id] != Assigned && m.state[id] != Done && w in m.workers
    ensures var r := AssignTo(m, id, w, now);
            && r.state == m.state[id := Assigned] && r.store == m.store
            && r.tasks.Keys == m.tasks.Keys && r.state.Keys == m.state.Keys && r.workers.Keys == m.workers.Keys
            && (forall x :: x in m.tasks ==>
                  && r.tasks[x].key == m.tasks[x].key
                  && r.tasks[x].value == m.tasks[x].value
                  && r.tasks[x].id == m.tasks[x].id)
            && (forall x :: x in m.state ==> (r.state[x] == Done <==> m.state[x] == Done))
            && (forall v :: v in m.workers ==>
                  r.workers[v].capacity == m.workers[v].capacity &&
                      r.workers[v].size == m.workers[v].size + (if v == w then 1 else 0))
  {
  }

  /** All of the invariant but the two queues. */
  lemma AssignRest(m: Master, id: TaskId, w: WorkerId, now: real)
    requires Tables(m.tasks, m.state) && Owned(m.tasks, m.state, m.workers) && Stored(m.tasks, m.state, m.store)
    requires Sizes(m.workers)
    requires id in m.tasks && id in m.state && m.state[id] != Assigned && m.state[id] != Done
    requires Eligible(m.workers, m.tasks[id], w)
    ensures var r := AssignTo(m, id, w, now);
            && r.state == m.state[id := Assigned]
            && Tables(r.tasks, r.state) && Owned(r.tasks, r.state, r.workers)
            && Stored(r.tasks, r.state, r.store) && Sizes(r.workers)
  {
    hide Owned, Stored, Tables, AssignTo;
    var r := AssignTo(m, id, w, now);
    AssignTouches(m, id, w, now);
    AssignOwned(m, id, w, now);
    TablesFrame(m.tasks, r.tasks, m.state, r.state);
    StoredFrame(m.tasks, r.tasks, m.state, r.state, m.store);
  }

  lemma HeadIn(state: map<TaskId, Status>, q: seq<TaskId>, s: Status)
    requires Queues(state, q, s) && |q| > 0
    ensures q[0] in state && state[q[0]] == s
  {
    assert q[0] in Elems(q);
  }

  lemma AssignRetryInv(m: Master, w: WorkerId, now: real)
    requires Inv(m) && |m.retry| > 0 && m.retry[0] in m.tasks && Eligible(m.workers, m.tasks[m.retry[0]], w)
    ensures Inv(AssignTo(m.(retry := m.retry[1..]), m.retry[0], w, now))
    ensures m.state[m.retry[0]] == Retry
  {
    hide Owned, Stored, Tables, Queues, Eligible, Sizes;
    HeadIn(m.state, m.retry, Retry);
    QueueMoves(m.state, m.normal, Pending, m.retry[0], Assigned);
    QueueMoves(m.state, m.retry, Retry, m.retry[0], Assigned);
    AssignRest(m, m.retry[0], w, now);
  }

  lemma AssignNormalInv(m: Master, w: WorkerId, now: real)
    requires Inv(m) && |m.normal| > 0 && m.normal[0] in m.tasks && Eligible(m.workers, m.tasks[m.normal[0]], w)
    ensures Inv(AssignTo(m.(normal := m.normal[1..]), m.normal[0], w, now))
    ensures m.state[m.normal[0]] == Pending
  {
    hide Owned, Stored, Tables, Queues, Eligible, Sizes;
    HeadIn(m.state, m.normal, Pending);
    QueueMoves(m.state, m.normal, Pending, m.normal[0], Assigned);
    QueueMoves(m.state, m.retry, Retry, m.normal[0], Assigned);
    AssignRest(m, m.normal[0], w, now);
  }

  lemma NextInv(m: Master, now: real)
    requires Inv(m)
    ensures Inv(NextAssignment(m, now).0)
  {
    hide Owned, Stored;
    if |m.retry| > 0 {
      Rotates(m.retry);
      hide Queues;
      if m.retry[0] in m.tasks && Choose(m.workers, m.tasks[m.retry[0]]).Some? {
        AssignRetryInv(m, Choose(m.workers, m.tasks[m.retry[0]]).value, now);
      }
    } else if |m.normal| > 0 {
      hide Queues;
      if m.normal[0] in m.tasks && Choose(m.workers, m.tasks[m.normal[0]]).Some? {
        AssignNormalInv(m, Choose(m.workers, m.tasks[m.normal[0]]).value, now);
      }
    }
  }

  /** What one distribution step did: nothing to any task, or one waiting task became assigned to its best worker. */
  lemma NextLaw(m: Master, now: real)
    requires Inv(m)
    ensures var r := NextAssignment(m, now).0;
            var got := NextAssignment(m, now).1;
            && r.store == m.store
            && (got.None? ==>
                  r.tasks == m.tasks && r.state == m.state && r.workers == m.workers && r.normal == m.normal)
            && (got.None? ==> r.retry == m.retry || (|m.retry| > 0 && r.retry == m.retry[1..] + [m.retry[0]]))
            && (got.Some? ==>
                  && got.value.id in m.tasks && got.value.id in m.state && got.value.worker in m.workers
                  && IsBest(m.workers, m.tasks[got.value.id], got.value.worker)
                  && m.state[got.value.id] == (if got.value.priority then Retry else Pending)
                  && (got.value.priority <==> |m.retry| > 0) && |m.retry| + |m.normal| > 0
                  && r.retry == (if |m.retry| > 0 then m.retry[1..] else m.retry)
                  && r.normal == (if |m.retry| > 0 then m.normal else m.normal[1..])
                  && r == AssignTo(m, got.value.id, got.value.worker, now).(retry := r.retry, normal := r.normal))
  {
    hide Owned, Stored;
    if |m.retry| > 0 {
      assert m.retry[0] in Elems(m.retry);
    } else if |m.normal| > 0 {
      assert m.normal[0] in Elems(m.normal);
    }
  }

  /** What a failure leaves in each field. */
  lemma FailFields(m: Master, sender: WorkerId, id: TaskId, a: WorkerId, overflow: bool)
    ensures var r := Fail(m, sender, id, a, overflow);
            if id in m.tasks && id in m.state && m.state[id] == Assigned && a in m.workers && id in m.workers[a].held
            then
              var t := m.tasks[id];
              && r.tasks == m.tasks[id := t.(attempt := if overflow then t.attempt else t.attempt + 1,
                                             previous := Some(sender))]
              && r.state == m.state[id := Retry] && r.retry == m.retry + [id]
              && r.normal == m.normal && r.store == m.store && r.workers == ClearAssignment(m.workers, id)
            else r == m
  {
    hide ClearAssignment;
  }

  /** What a distribution step leaves in each field. */
  lemma NextFields(m: Master, now: real)
    requires Inv(m)
    ensures var (r, got) := NextAssignment(m, now);
            && r.store == m.store
            && (m.retry == [] && m.normal == [] ==> got.None? && r.retry == [])
            && (m.retry != [] || m.normal != [] ==>
                  var id := if m.retry != [] then m.retry[0] else m.normal[0];
                  && id in m.tasks
                  && (got.None? <==>
                        forall v :: v in m.workers && m.workers[v].connected
                                    && m.workers[v].size < m.workers[v].capacity ==>
                          m.tasks[id].previous == Some(v))
                  && (got.Some? ==> got.value.id == id && got.value.priority == (m.retry != []))
                  && r.retry == (if m.retry == [] then [] else if got.None? then m.retry[1..] + [id] else m.retry[1..])
                  && r.normal == (if m.retry != [] || got.None? then m.normal else m.normal[1..]))
            && (got.None? ==>
                  r.tasks == m.tasks && r.state == m.state && r.workers == m.workers && r.normal == m.normal)
            && (got.Some? ==>
                  var id, w, ws := got.value.id, got.value.worker, m.workers;
                  && id in m.tasks && w in ws
                  && r.tasks == m.tasks[id := m.tasks[id].(enqueuedAt := now, assignment := Some(w))]
                  && r.state == m.state[id := Assigned]
                  && r.workers == ws[w := ws[w].(held := ws[w].held + {id}, size := ws[w].size + 1)]
                  && ws[w].connected && ws[w].size < ws[w].capacity && m.tasks[id].previous != Some(w)
                  && forall v :: v in ws && ws[v].connected && ws[v].size < ws[v].capacity
                                 && m.tasks[id].previous != Some(v) ==>
                       && ws[w].capacity - ws[w].size >= ws[v].capacity - ws[v].size
                       && (ws[w].capacity - ws[w].size == ws[v].capacity - ws[v].size ==> LexLe(w, v)))
  {
    hide NextAssignment, Owned, Stored, Tables, Sizes, Queues;
    NextLaw(m, now);
    NextHead(m, now);
    var got := NextAssignment(m, now).1;
    if got.Some? { BestFields(m.workers, m.tasks[got.value.id], got.value.worker); }
  }

  /** Which task is tried, and when nobody gets it. */
  lemma NextHead(m: Master, now: real)
    requires Inv(m)
    ensures var (r, got) := NextAssignment(m, now);
            && (m.retry == [] && m.normal == [] ==> got.None? && r.retry == [])
            && (m.retry != [] || m.normal != [] ==>
                  var id := if m.retry != [] then m.retry[0] else m.normal[0];
                  && id in m.tasks
                  && (got.None? <==>
                        forall v :: v in m.workers && m.workers[v].connected
                                    && m.workers[v].size < m.workers[v].capacity ==>
                          m.tasks[id].previous == Some(v))
                  && (got.Some? ==> got.value.id == id)
                  && (got.None? ==> r.retry == if m.retry == [] then [] else m.retry[1..] + [id]))
  {
    hide Choose, Owned, Stored, Tables, Sizes, AssignTo;
    if m.retry != [] {
      assert m.retry[0] in Elems(m.retry);
      TaskKnown(m, m.retry[0]);
      ChooseLaw(m.workers, m.tasks[m.retry[0]]);
    } else if m.normal != [] {
      assert m.normal[0] in Elems(m.normal);
      TaskKnown(m, m.normal[0]);
      ChooseLaw(m.workers, m.tasks[m.normal[0]]);
    }
  }

  lemma TaskKnown(m: Master, id: TaskId)
    requires Inv(m) && id in m.state
    ensures id in m.tasks
  {
  }

  lemma {:induction false} InitialInv(m: Master)
    requires Initial(m)
    ensures Inv(m)
  {
  }
}
