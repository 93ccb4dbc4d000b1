/**
 * What one undisturbed balance_once does to its own queue (src/kvstore/worker/p2p.py): reserve the
 * candidates one by one, then confirm them all or release them all, one by one.
 */
module QueueBalance {
  import opened Basics
  import opened Models
  import opened QueueSpec
  import opened QueueLaws

  /** Reserves each id in turn and appends what was found to `got`. */
  function ReserveAll(q: Queue, ids: seq<TaskId>, got: seq<Task>): (Queue, seq<Task>)
    decreases |ids|
  {
    if |ids| == 0 then (q, got) else
      var (q', t) := Reserve(q, ids[0]);
      ReserveAll(q', ids[1..], if t.Some? then got + [t.value] else got)
  }

  function ReleaseAll(q: Queue, ts: seq<Task>): Queue
    decreases |ts|
  {
    if |ts| == 0 then q else ReleaseAll(Release(q, ts[0].id).0, ts[1..])
  }

  function ConfirmAll(q: Queue, ts: seq<Task>): Queue
    decreases |ts|
  {
    if |ts| == 0 then q else ConfirmAll(Confirm(q, ts[0].id).0, ts[1..])
  }

  function Reverse(ts: seq<Task>): seq<Task> {
    if |ts| == 0 then [] else Reverse(ts[1..]) + [ts[0]]
  }

  /** Each of `ts` is reserved, out of the given class. */
  ghost predicate AllHeld(reserved: map<TaskId, Held>, ts: seq<Task>, priority: bool) {
    forall t <- ts :: t.id in reserved && reserved[t.id] == Held(t, priority)
  }

  // ---- reserving a tail -----------------------------------------------------------------------

  lemma {:induction false} FindPast(a: seq<Task>, b: seq<Task>)
    requires |b| > 0 && b[0].id !in Ids(a)
    ensures Find(a + b, b[0].id) == |a|
  {
    if |a| == 0 {
      assert a + b == b;
    } else {
      assert (a + b)[1..] == a[1..] + b;
      FindPast(a[1..], b);
    }
  }

  lemma {:induction false} FindNone(ts: seq<Task>, id: TaskId)
    requires id !in Ids(ts)
    ensures Find(ts, id) == |ts|
  {
    FindLaw(ts, id);
  }

  /** The reserved map grows by the tail, and shrinks back when the tail's ids are taken out. */
  ghost predicate Grown(before: map<TaskId, Held>, after: map<TaskId, Held>, ts: seq<Task>, priority: bool) {
    && AllHeld(after, ts, priority) && after.Keys == before.Keys + Ids(ts)
    && forall id <- before :: after[id] == before[id]
  }

  lemma GrownOne(before: map<TaskId, Held>, after: map<TaskId, Held>, ts: seq<Task>, priority: bool)
    requires |ts| > 0 && Distinct(ts) && Ids(ts) !! before.Keys
    requires Grown(before[ts[0].id := Held(ts[0], priority)], after, ts[1..], priority)
    ensures Grown(before, after, ts, priority)
  {
  }

  lemma {:induction false} ReserveNormalTail(q: Queue, a: seq<Task>, c: seq<Task>, rest: seq<TaskId>, got: seq<Task>)
    requires q.normal == a + c && Distinct(q.normal) && Ids(c) !! q.reserved.Keys
    ensures exists r :: Grown(q.reserved, r, c, false) &&
                        ReserveAll(q, TaskIds(c) + rest, got) ==
                            ReserveAll(q.(normal := a, reserved := r), rest, got + c)
    decreases |c|
  {
    hide Distinct, Ids, Grown;
    if |c| == 0 {
      assert TaskIds(c) + rest == rest && got + c == got && a + c == a;
      assert Grown(q.reserved, q.reserved, c, false) by { GrownNone(q.reserved, false); assert c == []; }
    } else {
      TailHead(a, c);
      FindPast(a, c);
      assert Without(q.normal, |a|) == a + c[1..];
      assert (TaskIds(c) + rest)[1..] == TaskIds(c[1..]) + rest && (TaskIds(c) + rest)[0] == c[0].id;
      var q' := q.(normal := a + c[1..], reserved := q.reserved[c[0].id := Held(c[0], false)]);
      assert Reserve(q, c[0].id) == (q', Some(c[0]));
      HeadMoves(got, c);
      ReserveNormalTail(q', a, c[1..], rest, got + [c[0]]);
      var r :| Grown(q'.reserved, r, c[1..], false) &&
               ReserveAll(q', TaskIds(c[1..]) + rest, got + [c[0]]) ==
                   ReserveAll(q'.(normal := a, reserved := r), rest, got + [c[0]] + c[1..]);
      GrownOne(q.reserved, r, c, false);
    }
  }

  lemma HeadMoves(got: seq<Task>, c: seq<Task>)
    requires |c| > 0
    ensures got + c == got + [c[0]] + c[1..]
  {
  }

  lemma GrownNone(m: map<TaskId, Held>, priority: bool)
    ensures Grown(m, m, [], priority)
  {
  }

  /** The head of a tail occurs nowhere else. */
  lemma TailHead(a: seq<Task>, c: seq<Task>)
    requires |c| > 0 && Distinct(a + c)
    ensures c[0].id !in Ids(a) && c[0].id in Ids(c) && c[0].id !in Ids(c[1..])
    ensures Distinct(c) && Distinct(a + c[1..]) && Ids(c[1..]) <= Ids(c)
  {
    IdsConcat(a, c);
    IdsConcat(a, c[1..]);
  }

  lemma {:induction false} ReservePriorityTail(q: Queue, a: seq<Task>, c: seq<Task>, got: seq<Task>)
    requires q.priority == a + c && Distinct(q.priority) && Ids(c) !! q.reserved.Keys && Ids(c) !! Ids(q.normal)
    ensures exists r :: Grown(q.reserved, r, c, true) &&
                        ReserveAll(q, TaskIds(c), got) == (q.(priority := a, reserved := r), got + c)
    decreases |c|
  {
    hide Distinct, Ids, Grown;
    if |c| == 0 {
      assert got + c == got && a + c == a;
      assert Grown(q.reserved, q.reserved, c, true) by { GrownNone(q.reserved, true); assert c == []; }
    } else {
      TailHead(a, c);
      FindPast(a, c);
      FindNone(q.normal, c[0].id);
      assert Without(q.priority, |a|) == a + c[1..];
      assert TaskIds(c)[1..] == TaskIds(c[1..]) && TaskIds(c)[0] == c[0].id;
      var q' := q.(priority := a + c[1..], reserved := q.reserved[c[0].id := Held(c[0], true)]);
      assert Reserve(q, c[0].id) == (q', Some(c[0]));
      HeadMoves(got, c);
      ReservePriorityTail(q', a, c[1..], got + [c[0]]);
      var r :| Grown(q'.reserved, r, c[1..], true) &&
               ReserveAll(q', TaskIds(c[1..]), got + [c[0]]) ==
                   (q'.(priority := a, reserved := r), got + [c[0]] + c[1..]);
      GrownOne(q.reserved, r, c, true);
    }
  }

  // ---- settling -------------------------------------------------------------------------------

  /** Releasing one class's tasks in the order they were taken stacks them, reversed, in front of that class. */
  lemma {:induction false} ReleaseClass(q: Queue, ts: seq<Task>, priority: bool, rest: seq<Task>)
    requires Distinct(ts) && AllHeld(q.reserved, ts, priority)
    ensures ReleaseAll(q, ts + rest) ==
            ReleaseAll(if priority then q.(priority := Reverse(ts) + q.priority, reserved := q.reserved - Ids(ts))
                       else q.(normal := Reverse(ts) + q.normal, reserved := q.reserved - Ids(ts)), rest)
    decreases |ts|
  {
    hide Distinct;
    if |ts| == 0 {
      assert ts + rest == rest && q.reserved - {} == q.reserved;
      assert Reverse(ts) + q.priority == q.priority && Reverse(ts) + q.normal == q.normal;
    } else {
      var q' := Release(q, ts[0].id).0;
      assert ts[0] in ts;
      assert (ts + rest)[1..] == ts[1..] + rest;
      HeldRest(q.reserved, ts, priority);
      ReleaseClass(q', ts[1..], priority, rest);
      assert Reverse(ts) + q.priority == Reverse(ts[1..]) + ([ts[0]] + q.priority);
      assert Reverse(ts) + q.normal == Reverse(ts[1..]) + ([ts[0]] + q.normal);
      assert q.reserved - {ts[0].id} - Ids(ts[1..]) == q.reserved - Ids(ts);
    }
  }

  lemma HeldRest(reserved: map<TaskId, Held>, ts: seq<Task>, priority: bool)
    requires |ts| > 0 && Distinct(ts) && AllHeld(reserved, ts, priority)
    ensures Distinct(ts[1..]) && AllHeld(reserved - {ts[0].id}, ts[1..], priority)
  {
    forall t | t in ts[1..] ensures t in ts && t.id != ts[0].id { IdsMember(ts[1..], t); }
  }

  /** Confirming removes the ids from the reserved and the active ones, and nothing else. */
  lemma {:induction false} ConfirmBatch(q: Queue, ts: seq<Task>)
    requires Distinct(ts) && Ids(ts) <= q.reserved.Keys
    ensures ConfirmAll(q, ts) == q.(reserved := q.reserved - Ids(ts), active := q.active - Ids(ts))
    decreases |ts|
  {
    if |ts| == 0 {
      assert q.reserved - {} == q.reserved && q.active - {} == q.active;
    } else {
      var q' := Confirm(q, ts[0].id).0;
      ConfirmBatch(q', ts[1..]);
      assert q.reserved - {ts[0].id} - Ids(ts[1..]) == q.reserved - Ids(ts);
      assert q.active - {ts[0].id} - Ids(ts[1..]) == q.active - Ids(ts);
    }
  }

  // ---- the whole balance ----------------------------------------------------------------------

  /** How a queue splits when `count` candidates are taken: what stays and what goes, class by class. */
  datatype Split = Split(normal: seq<Task>, normalTail: seq<Task>, priority: seq<Task>, priorityTail: seq<Task>) {
    function Candidates(): seq<Task> {
      normalTail + priorityTail
    }
  }

  function SplitAt(ts: seq<Task>, count: nat): (r: (seq<Task>, seq<Task>))
    ensures r.0 + r.1 == ts && |r.1| == if |ts| < count then |ts| else count
  {
    if |ts| < count then ([], ts) else (ts[..|ts| - count], ts[|ts| - count..])
  }

  function SplitQueue(q: Queue, count: nat): (s: Split)
    ensures s.normal + s.normalTail == q.normal && s.priority + s.priorityTail == q.priority
    ensures s.Candidates() == Peek(q, count) && |s.Candidates()| <= count
    ensures s.priorityTail == [] || s.normal == []
  {
    var n := SplitAt(q.normal, count);
    var p := SplitAt(q.priority, count - |n.1|);
    Split(n.0, n.1, p.0, p.1)
  }

  /** The candidates and what holds of their ids, split by class. */
  lemma SplitIds(q: Queue, s: Split)
    requires Inv(q) && s.normal + s.normalTail == q.normal && s.priority + s.priorityTail == q.priority
    ensures Distinct(s.normalTail) && Distinct(s.priorityTail) && Distinct(s.Candidates())
    ensures Ids(s.Candidates()) == Ids(s.normalTail) + Ids(s.priorityTail)
    ensures Ids(s.normalTail) !! Ids(s.priorityTail)
    ensures Ids(s.Candidates()) !! q.reserved.Keys && Ids(s.priorityTail) !! Ids(s.normal)
  {
    hide Ids, Distinct;
    IdsConcat(s.normal, s.normalTail);
    IdsConcat(s.priority, s.priorityTail);
    IdsConcat(s.normalTail, s.priorityTail);
  }

  /** Undisturbed, every candidate is reserved, and each class keeps exactly what was not a candidate. */
  lemma ReserveCandidates(q: Queue, count: nat)
    requires Inv(q)
    ensures var s := SplitQueue(q, count);
            exists r, r' :: Grown(q.reserved, r', s.normalTail, false) && Grown(r', r, s.priorityTail, true) &&
              ReserveAll(q, TaskIds(Peek(q, count)), []) ==
              (q.(normal := s.normal, priority := s.priority, reserved := r), Peek(q, count))
  {
    hide Ids, Distinct, Grown, Grouped, Keyed, SplitQueue, Peek;
    var s := SplitQueue(q, count);
    SplitIds(q, s);
    TaskIdsConcat(s.normalTail, s.priorityTail);
    ReserveNormalTail(q, s.normal, s.normalTail, TaskIds(s.priorityTail), []);
    assert [] + s.normalTail == s.normalTail;
    var r' :| Grown(q.reserved, r', s.normalTail, false) &&
              ReserveAll(q, TaskIds(s.normalTail) + TaskIds(s.priorityTail), []) ==
              ReserveAll(q.(normal := s.normal, reserved := r'), TaskIds(s.priorityTail), s.normalTail);
    var q' := q.(normal := s.normal, reserved := r');
    GrownKeys(q.reserved, r', s.normalTail, false);
    ReservePriorityTail(q', s.priority, s.priorityTail, s.normalTail);
    var r :| Grown(r', r, s.priorityTail, true) &&
             ReserveAll(q', TaskIds(s.priorityTail), s.normalTail) ==
                 (q'.(priority := s.priority, reserved := r), s.normalTail + s.priorityTail);
  }

  lemma GrownKeys(before: map<TaskId, Held>, after: map<TaskId, Held>, ts: seq<Task>, priority: bool)
    requires Grown(before, after, ts, priority)
    ensures after.Keys == before.Keys + Ids(ts)
    ensures Ids(ts) !! before.Keys ==> after - Ids(ts) == before
  {
  }

  lemma GrownTwice(m: map<TaskId, Held>, m': map<TaskId, Held>, m'': map<TaskId, Held>, s: Split)
    requires Grown(m, m', s.normalTail, false) && Grown(m', m'', s.priorityTail, true)
    requires Ids(s.normalTail) !! Ids(s.priorityTail) && Ids(s.normalTail) + Ids(s.priorityTail) !! m.Keys
    ensures AllHeld(m'', s.normalTail, false) && AllHeld(m'' - Ids(s.normalTail), s.priorityTail, true)
    ensures m'' - Ids(s.normalTail) - Ids(s.priorityTail) == m
    ensures m''.Keys == m.Keys + Ids(s.normalTail) + Ids(s.priorityTail)
  {
    hide Ids;
    forall t | t in s.normalTail ensures t.id in m'' && m''[t.id] == Held(t, false) { IdsMember(s.normalTail, t); }
    forall t | t in s.priorityTail ensures t.id !in Ids(s.normalTail) { IdsMember(s.priorityTail, t); }
  }

  /** A failed balance, undisturbed: each class goes from X ++ C to reverse(C) ++ X, and nothing else changes. */
  lemma FailedBalance(q: Queue, count: nat)
    requires Inv(q)
    ensures var s := SplitQueue(q, count);
            var (q', got) := ReserveAll(q, TaskIds(Peek(q, count)), []);
            && got == Peek(q, count)
            && ReleaseAll(q', got) ==
                 q.(normal := Reverse(s.normalTail) + s.normal, priority := Reverse(s.priorityTail) + s.priority)
  {
    hide Ids, Distinct, Grown, SplitQueue, Inv, Peek, ReserveAll, ReleaseAll, AllHeld;
    var s := SplitQueue(q, count);
    SplitIds(q, s);
    ReserveCandidates(q, count);
    var r, r' :| Grown(q.reserved, r', s.normalTail, false) && Grown(r', r, s.priorityTail, true) &&
                 ReserveAll(q, TaskIds(Peek(q, count)), []) ==
                 (q.(normal := s.normal, priority := s.priority, reserved := r), Peek(q, count));
    var q' := q.(normal := s.normal, priority := s.priority, reserved := r);
    GrownTwice(q.reserved, r', r, s);
    ReleaseClass(q', s.normalTail, false, s.priorityTail);
    var q'' := q'.(normal := Reverse(s.normalTail) + s.normal, reserved := r - Ids(s.normalTail));
    ReleaseClass(q'', s.priorityTail, true, []);
    assert s.priorityTail + [] == s.priorityTail;
    ReleaseNone(q''.(priority := Reverse(s.priorityTail) + s.priority, reserved := q''.reserved - Ids(s.priorityTail)));
  }

  lemma ReleaseNone(q: Queue)
    ensures ReleaseAll(q, []) == q
  {
  }

  /** A completed one removes exactly the candidates: each class loses its tail, and their ids are free again. */
  lemma CompletedBalance(q: Queue, count: nat)
    requires Inv(q)
    ensures var s := SplitQueue(q, count);
            var (q', got) := ReserveAll(q, TaskIds(Peek(q, count)), []);
            ConfirmAll(q', got) ==
              q.(normal := s.normal, priority := s.priority, active := q.active - Ids(s.Candidates()))
  {
    hide Ids, Distinct, Grown, SplitQueue, Inv, Peek, ReserveAll, ConfirmAll, AllHeld;
    var s := SplitQueue(q, count);
    SplitIds(q, s);
    ReserveCandidates(q, count);
    var r, r' :| Grown(q.reserved, r', s.normalTail, false) && Grown(r', r, s.priorityTail, true) &&
                 ReserveAll(q, TaskIds(Peek(q, count)), []) ==
                 (q.(normal := s.normal, priority := s.priority, reserved := r), Peek(q, count));
    GrownTwice(q.reserved, r', r, s);
    var q' := q.(normal := s.normal, priority := s.priority, reserved := r);
    ConfirmBatch(q', s.Candidates());
    assert r - Ids(s.Candidates()) == r - Ids(s.normalTail) - Ids(s.priorityTail);
  }

  lemma {:induction false} ReverseKeeps(ts: seq<Task>)
    ensures |Reverse(ts)| == |ts| && multiset(Reverse(ts)) == multiset(ts)
    ensures forall i :: 0 <= i < |ts| ==> Reverse(ts)[i] == ts[|ts| - 1 - i]
  {
    if |ts| == 0 {
    } else {
      ReverseKeeps(ts[1..]);
      assert ts == [ts[0]] + ts[1..];
    }
  }
}
