/** What the distributor can and cannot get done: rotation of the retry queue, and when it stalls for good. */
module MasterProgress {
  import opened Basics
  import opened Models
  import opened MasterSpec
  import opened MasterLaws
  import opened MasterRuns

  /** The master after one distribution call per entry of `nows`. */
  ghost function Calls(m: Master, nows: seq<real>): Master
    decreases |nows|
  {
    if |nows| == 0 then m else Calls(NextAssignment(m, nows[0]).0, nows[1..])
  }

  /** No worker may take the task now. */
  ghost predicate Blocked(m: Master, id: TaskId) {
    id in m.tasks && forall w :: !Eligible(m.workers, m.tasks[id], w)
  }

  /** Calls that find their retry task blocked only rotate the queue. */
  lemma {:induction false} Rotation(m: Master, nows: seq<real>)
    requires |nows| <= |m.retry|
    requires forall j :: 0 <= j < |nows| ==> Blocked(m, m.retry[j])
    ensures Calls(m, nows) == m.(retry := m.retry[|nows|..] + m.retry[..|nows|])
    decreases |nows|
  {
    if |nows| == 0 {
      assert m.retry[0..] + m.retry[..0] == m.retry;
    } else {
      assert Blocked(m, m.retry[0]);
      var r := NextAssignment(m, nows[0]).0;
      assert r == m.(retry := m.retry[1..] + [m.retry[0]]);
      forall j | 0 <= j < |nows| - 1 ensures Blocked(r, r.retry[j]) {
        assert r.retry[j] == m.retry[j + 1] && Blocked(m, m.retry[j + 1]);
      }
      var k := |nows|;
      Rotation(r, nows[1..]);
      assert r.retry[k - 1..] + r.retry[..k - 1] == m.retry[k..] + m.retry[..k];
    }
  }

  /** The first retry task that somebody may take is assigned by the call that reaches it. */
  lemma FirstUnblocked(m: Master, nows: seq<real>, now: real)
    requires Inv(m) && |nows| < |m.retry|
    requires forall j :: 0 <= j < |nows| ==> Blocked(m, m.retry[j])
    requires !Blocked(m, m.retry[|nows|])
    ensures var got := NextAssignment(Calls(m, nows), now).1;
            got.Some? && got.value.id == m.retry[|nows|] && got.value.priority
            && got.value.id in m.tasks && IsBest(m.workers, m.tasks[got.value.id], got.value.worker)
  {
    var k := |nows|;
    Rotation(m, nows);
    assert m.retry[k] in Elems(m.retry);
    hide Owned, Stored, Calls;
    assert (m.retry[k..] + m.retry[..k])[0] == m.retry[k];
    ChooseLaw(m.workers, m.tasks[m.retry[k]]);
  }

  /** If every retry task is blocked, a full round of calls leaves the master exactly as it was. */
  lemma FullRound(m: Master, nows: seq<real>)
    requires |nows| == |m.retry|
    requires forall j :: 0 <= j < |nows| ==> Blocked(m, m.retry[j])
    ensures Calls(m, nows) == m
  {
    Rotation(m, nows);
    assert m.retry[|nows|..] + m.retry[..|nows|] == m.retry;
  }

  /** With two connected workers that have room, a call never comes back empty-handed while a task waits. */
  lemma TwoWorkersSuffice(m: Master, a: WorkerId, b: WorkerId, now: real)
    requires Inv(m) && a != b && a in m.workers && b in m.workers
    requires m.workers[a].connected && m.workers[a].size < m.workers[a].capacity
    requires m.workers[b].connected && m.workers[b].size < m.workers[b].capacity
    ensures NextAssignment(m, now).1.Some? <==> m.normal != [] || m.retry != []
  {
    if |m.retry| > 0 {
      assert m.retry[0] in Elems(m.retry);
      hide Owned, Stored;
      var t := m.tasks[m.retry[0]];
      assert Eligible(m.workers, t, a) || Eligible(m.workers, t, b);
      ChooseLaw(m.workers, t);
    } else if |m.normal| > 0 {
      assert m.normal[0] in Elems(m.normal);
      hide Owned, Stored;
      var t := m.tasks[m.normal[0]];
      assert Eligible(m.workers, t, a) || Eligible(m.workers, t, b);
      ChooseLaw(m.workers, t);
    }
  }

  /** Some call of the round that starts here assigns a task. */
  ghost predicate RoundAssigns(m: Master, nows: seq<real>) {
    exists k :: 0 <= k < |nows| && NextAssignment(Calls(m, nows[..k]), nows[k]).1.Some?
  }

  lemma BlockedBySole(m: Master, w: WorkerId, id: TaskId)
    requires Inv(m) && Connected(m) == {w} && m.workers[w].size < m.workers[w].capacity && id in m.retry
    ensures w in m.workers && id in m.tasks && (Blocked(m, id) <==> m.tasks[id].previous == Some(w))
  {
    assert w in Connected(m);
    assert id in Elems(m.retry);
    hide Owned, Stored;
    assert Eligible(m.workers, m.tasks[id], w) <==> m.tasks[id].previous != Some(w);
    forall v | Eligible(m.workers, m.tasks[id], v) ensures v == w { assert v in Connected(m); }
  }

  lemma BlockedRound(m: Master, nows: seq<real>, k: nat)
    requires |nows| == |m.retry| && k < |nows| && forall j :: 0 <= j < |m.retry| ==> Blocked(m, m.retry[j])
    ensures NextAssignment(Calls(m, nows[..k]), nows[k]).1.None?
  {
    Rotation(m, nows[..k]);
    var r := Calls(m, nows[..k]);
    assert r.retry[0] == m.retry[k];
    assert Blocked(m, m.retry[k]);
  }

  lemma {:induction false} FirstFree(m: Master, i: nat) returns (k: nat)
    requires i < |m.retry| && exists j :: i <= j < |m.retry| && !Blocked(m, m.retry[j])
    ensures i <= k < |m.retry| && !Blocked(m, m.retry[k]) && forall j :: i <= j < k ==> Blocked(m, m.retry[j])
    decreases |m.retry| - i
  {
    if Blocked(m, m.retry[i]) { k := FirstFree(m, i + 1); } else { k := i; }
  }

  /**
   * With one worker left that has room, a round over the retry queue assigns something exactly if some retry
   * task last failed elsewhere; a connected worker with room alone is not enough.
   */
  lemma SoleWorkerServes(m: Master, w: WorkerId, nows: seq<real>)
    requires Inv(m) && Connected(m) == {w} && w in m.workers && m.workers[w].size < m.workers[w].capacity
    requires m.retry != [] && |nows| == |m.retry|
    ensures RoundAssigns(m, nows) <==> exists id <- m.retry :: id in m.tasks && m.tasks[id].previous != Some(w)
  {
    hide Inv, NextAssignment, Calls, Blocked, Connected;
    forall id | id in m.retry ensures id in m.tasks && (Blocked(m, id) <==> m.tasks[id].previous == Some(w)) {
      BlockedBySole(m, w, id);
    }
    if j :| 0 <= j < |m.retry| && !Blocked(m, m.retry[j]) {
      assert m.retry[j] in m.retry;
      var k := FirstFree(m, 0);
      FirstUnblocked(m, nows[..k], nows[k]);
    } else {
      forall k | 0 <= k < |nows| ensures NextAssignment(Calls(m, nows[..k]), nows[k]).1.None? {
        BlockedRound(m, nows, k);
      }
    }
  }

  // ---- the stall ------------------------------------------------------------------------------

  /**
   * Only `w` may still be connected, nothing is out, and every retry task failed at `w` last:
   * the retry queue blocks itself and every normal task behind it.
   */
  ghost predicate Stalled(m: Master, w: WorkerId) {
    && m.retry != [] && Connected(m) <= {w}
    && InState(m.state, Assigned) == {}
    && m.state.Keys == m.tasks.Keys
    && (forall id :: id in m.retry ==> id in m.tasks && m.tasks[id].previous == Some(w))
  }

  lemma StalledStep(m: Master, w: WorkerId, e: Event)
    requires Stalled(m, w) && Possible(m, e) && !(e.Lost? && e.worker == w)
    ensures Stalled(Step(m, e), w) && Step(m, e).store == m.store && Step(m, e).normal == m.normal
  {
    match e
    case Distribute(now) =>
      assert m.retry[0] in m.retry;
      assert Blocked(m, m.retry[0]) by {
        forall v ensures !Eligible(m.workers, m.tasks[m.retry[0]], v) {
          assert v in m.workers && m.workers[v].connected ==> v in Connected(m);
        }
      }
      assert Step(m, e) == m.(retry := m.retry[1..] + [m.retry[0]]);
      assert forall id :: id in m.retry[1..] ==> id in m.retry;
    case Success(id, a) => assert id in m.state && m.state[id] == Assigned ==> id in InState(m.state, Assigned);
    case Failure(_, id, a, _) => assert id in m.state && m.state[id] == Assigned ==> id in InState(m.state, Assigned);
    case QueueStatus(v, size, capacity) => assert Connected(Step(m, e)) == Connected(m);
    case Lost(v, order) =>
      assert v !in Connected(m);
  }

  /** A stalled master stays stalled, storing nothing and starting nothing, until `w` itself is lost. */
  lemma {:induction false} StalledForever(h: History, w: WorkerId, es: seq<Event>)
    requires Stalled(h.master, w) && AllPossible(h.master, es)
    requires forall e <- es :: !(e.Lost? && e.worker == w)
    ensures var r := Run(h, es).master; Stalled(r, w) && r.store == h.master.store && r.normal == h.master.normal
    decreases |es|
  {
    if |es| == 0 {
    } else {
      assert es[0] in es;
      StalledStep(h.master, w, es[0]);
      hide Stalled, Step, Effects, Effective;
      assert forall e <- es[1..] :: e in es;
      StalledForever(Record(h, es[0]), w, es[1..]);
    }
  }

  /** The only worker is given the first task. */
  lemma FirstGiven(m: Master, w: WorkerId, now: real)
    requires Initial(m) && m.workers.Keys == {w} && m.tasks.Keys != {}
    ensures m.normal != [] && m.normal[0] in m.tasks
    ensures var m1 := AssignTo(m.(normal := m.normal[1..]), m.normal[0], w, now);
            Step(m, Distribute(now)) == m1 && Accepts(m1, m.normal[0], w)
  {
    hide Choose;
    NonEmpty(m.normal);
    var id := m.normal[0];
    assert id in Elems(m.normal);
    assert Eligible(m.workers, m.tasks[id], w);
    LexTotal(w, w);
    assert IsBest(m.workers, m.tasks[id], w);
    ChooseLaw(m.workers, m.tasks[id]);
  }

  /** The stall is reachable: one worker, and its first task fails. */
  lemma OneFailureStalls(m: Master, w: WorkerId, now: real)
    requires Initial(m) && m.workers.Keys == {w} && m.tasks.Keys != {}
    ensures m.normal != []
    ensures var es := [Distribute(now), Failure(w, m.normal[0], w, false)];
            AllPossible(m, es) && Stalled(Run(Start(m), es).master, w)
  {
    FirstGiven(m, w, now);
    var id := m.normal[0];
    var e0, e1 := Distribute(now), Failure(w, id, w, false);
    var m1 := AssignTo(m.(normal := m.normal[1..]), id, w, now);
    hide NextAssignment;
    var m2 := Step(m1, e1);
    OnlyRetry(m, m1, m2, id, w);
    hide Stalled, Initial, Step, Effects, Effective;
    var es := [e0, e1];
    assert es[1..] == [e1] && es[1..][1..] == [];
    assert AllPossible(m1, es[1..]);
    assert Run(Start(m), es) == Run(Record(Start(m), e0), es[1..]) == Record(Record(Start(m), e0), e1);
  }

  lemma OnlyRetry(m: Master, m1: Master, m2: Master, id: TaskId, w: WorkerId)
    requires Initial(m) && m.workers.Keys == {w} && id in m.tasks
    requires m1.state == m.state[id := Assigned] && m1.tasks.Keys == m.tasks.Keys && m1.retry == []
    requires m1.workers.Keys == {w} && Accepts(m1, id, w)
    requires m2 == Fail(m1, w, id, w, false)
    ensures Stalled(m2, w)
  {
  }
}
