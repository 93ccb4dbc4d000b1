/** What each section of a worker does to its invariant and to its firm copies. */
module NodeLaws {
  import opened Basics
  import opened Models
  import opened QueueSpec
  import opened QueueLaws
  import opened NodeSpec

  /** The active ids, less what was handed over and what was reported. */
  function Answerable(n: Node, taken: bool): set<TaskId> {
    n.q.active - (if taken then n.q.reserved.Keys else {}) - (if n.reported then ProcessingIds(n.q) else {})
  }

  lemma FirmIsAnswerable(n: Node, taken: bool)
    requires NodeInv(n)
    ensures FirmIds(n, taken) == Answerable(n, taken)
  {
  }

  lemma AdmitInv(n: Node, t: Task, priority: bool)
    requires NodeInv(n)
    ensures NodeInv(Admit(n, t, priority))
  {
    hide Inv, Ids, Distinct;
    EnqueueInv(n.q, t, priority);
  }

  lemma TakeNodeInv(n: Node)
    requires NodeInv(n)
    ensures NodeInv(Take(n))
  {
    hide Inv, Ids, Distinct;
    NotBusy(n);
    DequeueInv(n.q);
  }

  lemma NotBusy(n: Node)
    requires NodeInv(n)
    ensures n.q.processing.None? <==> n.working.None?
  {
  }

  lemma FinishInv(n: Node)
    requires NodeInv(n)
    ensures NodeInv(Finish(n))
  {
    hide Inv, Ids, Distinct;
    MarkDoneInv(n.q);
  }

  lemma ReservedOne(q: Queue, q': Queue, ts: seq<Task>, t: Task, priority: bool)
    requires Reserves(q, ts) && t.id !in q.reserved && q'.reserved == q.reserved[t.id := Held(t, priority)]
    ensures Reserves(q', ts + [t])
  {
    hide Ids, Distinct;
    IdsOne(t);
    IdsConcat(ts, [t]);
  }

  lemma PickInv(n: Node)
    requires NodeInv(n)
    ensures NodeInv(Pick(n))
  {
    hide Inv, Ids, Reserves, ProcessingIds;
    if n.phase.Picking? && |n.phase.todo| > 0 {
      var id := n.phase.todo[0];
      ReserveInv(n.q, id);
      var (q', got) := Reserve(n.q, id);
      KeepsProcessing(n.q, id);
      hide Reserve;
      if got.Some? {
        ReservedOne(n.q, q', n.phase.picked, got.value, id !in Ids(n.q.normal));
      }
    }
  }

  lemma KeepsProcessing(q: Queue, id: TaskId)
    ensures ProcessingIds(Reserve(q, id).0) == ProcessingIds(q)
    ensures Reserve(q, id).1.None? ==> Reserve(q, id).0 == q
  {
  }

  lemma SettledOne(q: Queue, q': Queue, ts: seq<Task>)
    requires Reserves(q, ts) && |ts| > 0 && q'.reserved == q.reserved - {ts[0].id}
    ensures Reserves(q', ts[1..])
  {
    hide Ids, Distinct;
    WithoutIds(ts, 0);
    assert Without(ts, 0) == ts[1..];
    forall x | x in ts[1..] ensures x.id in q'.reserved {
      IdsMember(ts[1..], x);
    }
  }

  lemma ConfirmOneInv(n: Node)
    requires NodeInv(n)
    ensures NodeInv(ConfirmOne(n))
  {
    hide Inv, Reserves;
    if n.phase.Confirming? && |n.phase.left| > 0 {
      HeadReserved(n.q, n.phase.left);
      ConfirmInv(n.q, n.phase.left[0].id);
      SettledOne(n.q, Confirm(n.q, n.phase.left[0].id).0, n.phase.left);
    }
  }

  lemma HeadReserved(q: Queue, ts: seq<Task>)
    requires Reserves(q, ts) && |ts| > 0
    ensures ts[0].id in q.reserved && q.reserved[ts[0].id].task == ts[0]
  {
  }

  lemma ReleaseOneInv(n: Node)
    requires NodeInv(n)
    ensures NodeInv(ReleaseOne(n))
  {
    hide Inv, Reserves;
    if n.phase.Releasing? && |n.phase.left| > 0 {
      HeadReserved(n.q, n.phase.left);
      ReleaseInv(n.q, n.phase.left[0].id);
      SettledOne(n.q, Release(n.q, n.phase.left[0].id).0, n.phase.left);
    }
  }

  lemma ReceiveInv(n: Node, rid: RequestId, ts: seq<Task>, now: real)
    requires NodeInv(n)
    ensures NodeInv(Receive(n, rid, ts, now))
  {
    hide Inv, Ids, Distinct;
    EnqueueManyInv(n.q, Stamp(ts, now));
  }

  /** The sections that only move the transfer from one phase to the next. */
  lemma PhaseInv(n: Node, peer: WorkerId, count: nat, rid: RequestId, a: Ack)
    requires NodeInv(n)
    ensures NodeInv(StartPick(n, peer, count)) && NodeInv(Send(n, rid)) && NodeInv(AckArrives(n, a))
    ensures NodeInv(GiveUp(n)) && NodeInv(Settle(n)) && NodeInv(Report(n))
  {
    hide Inv, Reserves, Ids;
    TaskIdsLength(Peek(n.q, count));
    assert n.phase.Picking? && |n.phase.picked| == 0 ==> n.phase.picked == [];
    assert n.phase.Confirming? && |n.phase.left| == 0 ==> n.phase.left == [];
    assert n.phase.Releasing? && |n.phase.left| == 0 ==> n.phase.left == [];
  }

  lemma {:induction false} TaskIdsLength(ts: seq<Task>)
    ensures |TaskIds(ts)| == |ts| && Elems(TaskIds(ts)) == Ids(ts)
  {
    if |ts| == 0 {
    } else {
      TaskIdsLength(ts[1..]);
    }
  }

  // ---- firm copies, by id ---------------------------------------------------------------------

  lemma FirmAdmit(n: Node, t: Task, priority: bool, taken: bool)
    requires NodeInv(n)
    ensures var ok := TryEnqueue(n.q, t, priority).1 == Admitted;
            && FirmIds(Admit(n, t, priority), taken) == FirmIds(n, taken) + (if ok then {t.id} else {})
            && (ok ==> t.id !in FirmIds(n, taken))
  {
    hide NodeInv, FirmIds, Admit, TryEnqueue;
    FirmIsAnswerable(n, taken);
    AdmitInv(n, t, priority);
    AdmitActive(n, t, priority);
    FirmIsAnswerable(Admit(n, t, priority), taken);
    ReservedActive(n);
  }

  lemma AdmitActive(n: Node, t: Task, priority: bool)
    ensures var n' := Admit(n, t, priority);
            var ok := TryEnqueue(n.q, t, priority).1 == Admitted;
            && n'.q.active == n.q.active + (if ok then {t.id} else {}) && (ok ==> t.id !in n.q.active)
            && n'.working == n.working && n'.reported == n.reported && n'.phase == n.phase
            && n'.q.reserved == n.q.reserved && ProcessingIds(n'.q) == ProcessingIds(n.q)
  {
    EnqueueFrame(n.q, t, priority);
    hide TryEnqueue, ProcessingIds;
  }

  lemma EnqueueFrame(q: Queue, t: Task, priority: bool)
    ensures var (r, why) := TryEnqueue(q, t, priority);
            && r.active == q.active + (if why == Admitted then {t.id} else {})
            && (why == Admitted ==> t.id !in q.active)
            && r.reserved == q.reserved && ProcessingIds(r) == ProcessingIds(q)
  {
  }

  lemma ReservedActive(n: Node)
    requires NodeInv(n)
    ensures n.q.reserved.Keys <= n.q.active && ProcessingIds(n.q) <= n.q.active
    ensures n.q.reserved.Keys !! ProcessingIds(n.q)
  {
  }

  lemma FirmTake(n: Node, taken: bool)
    requires NodeInv(n)
    ensures FirmIds(Take(n), taken) == FirmIds(n, taken)
  {
  }

  lemma HeadHeld(n: Node)
    requires NodeInv(n) && |PhaseTasks(n.phase)| > 0
    ensures var x := PhaseTasks(n.phase)[0]; x.id in n.q.reserved && n.q.reserved[x.id].task == x
  {
  }

  lemma ReportedWorks(n: Node)
    requires NodeInv(n)
    ensures n.reported ==> n.working.Some?
    ensures ProcessingIds(n.q) == (if n.working.Some? then {n.working.value.id} else {})
  {
  }

  lemma FirmReport(n: Node, taken: bool)
    requires NodeInv(n)
    ensures n.working.Some? && !n.reported ==> n.working.value.id in FirmIds(n, taken)
    ensures FirmIds(Report(n), taken) ==
            FirmIds(n, taken) - (if n.working.Some? && !n.reported then {n.working.value.id} else {})
  {
    hide NodeInv, FirmIds;
    FirmIsAnswerable(n, taken);
    PhaseInv(n, "", 0, "", Ack(false, []));
    FirmIsAnswerable(Report(n), taken);
    ReservedActive(n);
    ReportedWorks(n);
  }

  lemma FirmFinish(n: Node, taken: bool)
    requires NodeInv(n)
    ensures FirmIds(Finish(n), taken) == FirmIds(n, taken)
  {
  }

  lemma FirmPick(n: Node)
    requires NodeInv(n)
    ensures FirmIds(Pick(n), false) == FirmIds(n, false)
  {
    hide NodeInv, FirmIds;
    FirmIsAnswerable(n, false);
    PickInv(n);
    FirmIsAnswerable(Pick(n), false);
  }

  /** Confirming a handed-over task removes no firm copy. */
  lemma FirmConfirm(n: Node)
    requires NodeInv(n)
    ensures FirmIds(ConfirmOne(n), true) == FirmIds(n, true)
  {
    hide NodeInv, FirmIds;
    FirmIsAnswerable(n, true);
    ConfirmOneInv(n);
    FirmIsAnswerable(ConfirmOne(n), true);
    ReservedActive(n);
    if n.phase.Confirming? && |n.phase.left| > 0 { HeadHeld(n); }
  }

  /** Taking a task back makes its copy firm again if the receiver has it too. */
  lemma FirmRelease(n: Node, taken: bool)
    requires NodeInv(n) && n.phase.Releasing? && |n.phase.left| > 0
    ensures FirmIds(ReleaseOne(n), taken) == FirmIds(n, taken) + (if taken then {n.phase.left[0].id} else {})
    ensures n.phase.left[0].id in FirmIds(n, taken) <==> !taken
  {
    hide NodeInv, FirmIds;
    FirmIsAnswerable(n, taken);
    ReleaseOneInv(n);
    FirmIsAnswerable(ReleaseOne(n), taken);
    ReservedActive(n);
    HeadHeld(n);
  }

  /** Was this transfer taken just now? */
  predicate Took(n: Node, rid: RequestId, ts: seq<Task>, now: real) {
    rid !in n.handled && rid in Receive(n, rid, ts, now).handled && Receive(n, rid, ts, now).handled[rid].accepted
  }

  /** What an intake does to the waiting tasks: it adds the stamped batch, or nothing; the rest stays. */
  lemma ReceiveQueued(n: Node, rid: RequestId, ts: seq<Task>, now: real)
    ensures var r := Receive(n, rid, ts, now);
            && Queued(r.q) == Queued(n.q) + (if Took(n, rid, ts, now) then Elems(Stamp(ts, now)) else {})
            && r.working == n.working && r.reported == n.reported && r.phase == n.phase
            && (!Took(n, rid, ts, now) ==> r.q == n.q)
  {
    hide Queued, Stamp, TaskIds, TryEnqueueMany;
    var many := TryEnqueueMany(n.q, Stamp(ts, now));
    if many.1 == Admitted { EnqueueManyTasks(n.q, Stamp(ts, now)); } else { RefusedSame(n.q, Stamp(ts, now)); }
  }

  lemma TookLaw(n: Node, rid: RequestId, ts: seq<Task>, now: real)
    requires NodeInv(n)
    ensures var r := Receive(n, rid, ts, now);
            && r.q.reserved == n.q.reserved && ProcessingIds(r.q) == ProcessingIds(n.q)
            && r.reported == n.reported && r.working == n.working && r.phase == n.phase
            && r.q.active == n.q.active + (if Took(n, rid, ts, now) then Ids(ts) else {})
            && (Took(n, rid, ts, now) ==> Ids(ts) !! n.q.active && Distinct(ts) && Elems(r.handled[rid].ids) == Ids(ts))
  {
    hide NodeInv, Stamp, Ids, Distinct, TaskIds, Elems, TryEnqueueMany, ProcessingIds;
    StampIds(ts, now);
    TaskIdsLength(ts);
    ManyLaw(n, Stamp(ts, now));
    ManyFrame(n.q, Stamp(ts, now));
  }

  lemma ManyFrame(q: Queue, ts: seq<Task>)
    ensures TryEnqueueMany(q, ts).0.reserved == q.reserved
    ensures ProcessingIds(TryEnqueueMany(q, ts).0) == ProcessingIds(q)
    ensures TryEnqueueMany(q, ts).0.active == q.active + (if TryEnqueueMany(q, ts).1 == Admitted then Ids(ts) else {})
  {
    ManyVerdict(q, ts);
    IdsSet(ts);
    hide Ids, TryEnqueueMany;
  }

  lemma FirmReceive(n: Node, rid: RequestId, ts: seq<Task>, now: real, taken: bool)
    requires NodeInv(n)
    ensures FirmIds(Receive(n, rid, ts, now), taken) ==
            FirmIds(n, taken) + (if Took(n, rid, ts, now) then Ids(ts) else {})
    ensures Took(n, rid, ts, now) ==> Ids(ts) !! FirmIds(n, taken)
  {
    hide NodeInv, FirmIds, Receive, Took, ProcessingIds;
    FirmIsAnswerable(n, taken);
    ReceiveInv(n, rid, ts, now);
    FirmIsAnswerable(Receive(n, rid, ts, now), taken);
    ReservedActive(n);
    TookLaw(n, rid, ts, now);
  }

  lemma ManyLaw(n: Node, ts: seq<Task>)
    requires NodeInv(n)
    ensures TryEnqueueMany(n.q, ts).1 == Admitted <==>
            Distinct(ts) && Ids(ts) !! n.q.active && n.q.Size() + |ts| <= n.q.capacity
  {
    EnqueueManyInv(n.q, ts);
    hide NodeInv, Ids, Distinct;
  }

  lemma {:induction false} StampIds(ts: seq<Task>, now: real)
    ensures Ids(Stamp(ts, now)) == Ids(ts) && |Stamp(ts, now)| == |ts| && (Distinct(Stamp(ts, now)) <==> Distinct(ts))
    ensures forall i :: 0 <= i < |ts| ==> Stamp(ts, now)[i] == ts[i].(enqueuedAt := now)
  {
    if |ts| == 0 {
    } else {
      StampIds(ts[1..], now);
      assert Stamp(ts, now)[1..] == Stamp(ts[1..], now);
    }
  }

  lemma FirmPhases(n: Node, peer: WorkerId, count: nat, rid: RequestId, a: Ack, taken: bool)
    requires NodeInv(n)
    ensures FirmIds(StartPick(n, peer, count), taken) == FirmIds(n, taken)
    ensures FirmIds(Send(n, rid), taken) == FirmIds(n, taken)
    ensures FirmIds(AckArrives(n, a), taken) == FirmIds(n, taken)
    ensures FirmIds(GiveUp(n), taken) == FirmIds(n, taken)
    ensures Settle(n) != n ==> FirmIds(Settle(n), false) == FirmIds(n, taken)
  {
    hide NodeInv;
  }
}
