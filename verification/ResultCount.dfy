/**
 * The success count against the store (src/kvstore/master/runtime.py): a handler stores its result under the
 * lock and records it after leaving the lock, under an event id made from the message's request id.
 */
module ResultCount {
  import opened Basics
  import opened Models
  import opened MasterSpec
  import opened MasterLaws
  import MR = MasterRuns
  import opened Statistics

  /** `pending` holds the handlers that have stored a result and not recorded it yet, by request id. */
  datatype Tally = Tally(master: Master, stats: Stats, pending: map<RequestId, WorkerId>)

  function Tag(rid: RequestId): string {
    "result:" + rid
  }

  datatype Turn =
    | Stores(rid: RequestId, sender: WorkerId, id: TaskId, assignee: WorkerId)
    | Records(rid: RequestId, wait: real)
    | Elsewhere(event: MR.Event)
    | Notes(record: Record)

  /**
   * A success message has a request id no other message has; no other record counts a success or uses a result's
   * id.
   */
  ghost predicate Possible(t: Tally, turn: Turn) {
    match turn
    case Stores(rid, _, _, _) => rid !in t.pending && Tag(rid) !in t.stats.seen
    case Records(rid, _) => rid in t.pending
    case Elsewhere(event) => !event.Success? && MR.Possible(t.master, event)
    case Notes(record) => !record.Success? && forall rid <- t.pending :: EventOf(record) != Some(Tag(rid))
  }

  ghost function Turned(t: Tally, turn: Turn): Tally {
    match turn
    case Stores(rid, sender, id, assignee) =>
      t.(master := Succeed(t.master, id, assignee),
         pending := if Accepts(t.master, id, assignee) then t.pending[rid := sender] else t.pending)
    case Records(rid, wait) =>
      if rid !in t.pending then t else
        t.(stats := TaskSuccess(t.stats, t.pending[rid], wait, Some(Tag(rid))), pending := t.pending - {rid})
    case Elsewhere(event) => t.(master := MR.Step(t.master, event))
    case Notes(record) => t.(stats := Note(t.stats, record))
  }

  ghost predicate AllPossible(t: Tally, turns: seq<Turn>)
    decreases |turns|
  {
    |turns| == 0 || (Possible(t, turns[0]) && AllPossible(Turned(t, turns[0]), turns[1..]))
  }

  ghost function RunTurns(t: Tally, turns: seq<Turn>): Tally
    decreases |turns|
  {
    if |turns| == 0 then t else RunTurns(Turned(t, turns[0]), turns[1..])
  }

  ghost predicate Unrecorded(t: Tally) {
    forall rid :: rid in t.pending ==> Tag(rid) !in t.stats.seen
  }

  ghost predicate Counted(t: Tally) {
    Sum(Successes(t.stats.workers)) + |t.pending| == |t.master.store|
  }

  ghost predicate TallyInv(t: Tally) {
    Inv(t.master) && Unrecorded(t) && Counted(t)
  }

  lemma TagInjective(a: RequestId, b: RequestId)
    ensures Tag(a) == Tag(b) ==> a == b
  {
    assert Tag(a)[7..] == a && Tag(b)[7..] == b;
  }

  lemma StoreCount(m: Master, id: TaskId, assignee: WorkerId)
    requires Inv(m)
    ensures |Succeed(m, id, assignee).store| == |m.store| + MR.Bit(Accepts(m, id, assignee))
  {
  }

  lemma StoresInv(t: Tally, rid: RequestId, sender: WorkerId, id: TaskId, assignee: WorkerId)
    requires TallyInv(t) && Possible(t, Stores(rid, sender, id, assignee))
    ensures TallyInv(Turned(t, Stores(rid, sender, id, assignee)))
  {
    hide Inv, Sum, Successes, Accepts, Tag;
    SucceedInv(t.master, id, assignee);
    StoreCount(t.master, id, assignee);
  }

  lemma RecordsInv(t: Tally, rid: RequestId, wait: real)
    requires TallyInv(t) && rid in t.pending
    ensures TallyInv(Turned(t, Records(rid, wait)))
  {
    hide Inv, Sum, Successes, Tag;
    var w := t.pending[rid];
    var r := Turned(t, Records(rid, wait));
    PutSuccesses(See(t.stats, Some(Tag(rid))), w, Of(r.stats, w));
    assert (t.pending - {rid}).Keys == t.pending.Keys - {rid};
    forall other | other in r.pending ensures Tag(other) !in r.stats.seen { TagInjective(other, rid); }
  }

  lemma NotesInv(t: Tally, record: Record)
    requires TallyInv(t) && Possible(t, Notes(record))
    ensures TallyInv(Turned(t, Notes(record)))
  {
    hide Inv, Sum, Tag, Successes, Note, EventOf;
    NoteSuccesses(t.stats, record);
    NoteSeen(t.stats, record);
  }

  lemma NoteSuccesses(s: Stats, r: Record)
    requires !r.Success?
    ensures Sum(Successes(Note(s, r).workers)) == Sum(Successes(s.workers))
  {
    hide Sum, Successes, SentEvents, SentTasks;
    match r
    case Failure(w, _, _) => PutSuccesses(s, w, Of(Note(s, r), w));
    case Overflowed(w) => PutSuccesses(s, w, Of(Note(s, r), w));
    case Transferred(a, b, count, event) =>
      var sent := Sending(See(s, event), a, count);
      PutSuccesses(See(s, event), a, Of(sent, a));
      PutSuccesses(sent, b, Of(Receiving(sent, b, count), b));
    case Reallocated(_) =>
    case Reported(w, p) => PutSuccesses(s, w, Merged(Of(s, w), p));
    case Looked(w) => PutSuccesses(s, w, Of(s, w));
  }

  lemma NoteSeen(s: Stats, r: Record)
    ensures Note(s, r).seen <= s.seen + (if EventOf(r).Some? then {EventOf(r).value} else {})
  {
  }

  lemma TurnInv(t: Tally, turn: Turn)
    requires TallyInv(t) && Possible(t, turn)
    ensures TallyInv(Turned(t, turn))
  {
    match turn
    case Stores(rid, sender, id, assignee) => StoresInv(t, rid, sender, id, assignee);
    case Records(rid, wait) => RecordsInv(t, rid, wait);
    case Notes(record) => NotesInv(t, record);
    case Elsewhere(event) =>
      MR.StoreKept(t.master, event);
      MR.StepInv(t.master, event);
      hide Inv, MR.Step;
  }

  /**
   * In every run, however the handlers interleave, the successes counted over all workers and the results
   * stored but not counted yet make up the store.
   */
  lemma {:induction false} EverySuccessCounted(t: Tally, turns: seq<Turn>)
    requires TallyInv(t) && AllPossible(t, turns)
    ensures var r := RunTurns(t, turns);
            TallyInv(r) && Sum(Successes(r.stats.workers)) + |r.pending| == |r.master.store|
    decreases |turns|
  {
    if |turns| == 0 {
    } else {
      TurnInv(t, turns[0]);
      hide TallyInv, Turned, Possible;
      EverySuccessCounted(Turned(t, turns[0]), turns[1..]);
    }
  }

  // ---- each worker's own count ------------------------------------------------------------------

  function PendingOf(pending: map<RequestId, WorkerId>, w: WorkerId): set<RequestId> {
    set rid | rid in pending && pending[rid] == w
  }

  /** The results of `w` that were stored along a run. */
  ghost function StoredFrom(t: Tally, turns: seq<Turn>, w: WorkerId): nat
    decreases |turns|
  {
    if |turns| == 0 then 0 else
      (if turns[0].Stores? && turns[0].sender == w && Accepts(t.master, turns[0].id, turns[0].assignee) then 1 else 0) +
      StoredFrom(Turned(t, turns[0]), turns[1..], w)
  }

  function SuccessesOf(s: Stats, w: WorkerId): nat {
    if w in s.workers then s.workers[w].successCount else 0
  }

  lemma NoteKeepsOwn(s: Stats, r: Record, w: WorkerId)
    requires !r.Success?
    ensures SuccessesOf(Note(s, r), w) == SuccessesOf(s, w)
  {
    hide Sum, SentEvents, SentTasks;
  }

  lemma OwnStored(pending: map<RequestId, WorkerId>, rid: RequestId, sender: WorkerId, w: WorkerId)
    requires rid !in pending
    ensures |PendingOf(pending[rid := sender], w)| == |PendingOf(pending, w)| + (if sender == w then 1 else 0)
  {
    assert PendingOf(pending[rid := sender], w) == PendingOf(pending, w) + (if sender == w then {rid} else {});
  }

  lemma OwnRecorded(pending: map<RequestId, WorkerId>, rid: RequestId, w: WorkerId)
    requires rid in pending
    ensures |PendingOf(pending - {rid}, w)| == |PendingOf(pending, w)| - (if pending[rid] == w then 1 else 0)
  {
    assert PendingOf(pending - {rid}, w) == PendingOf(pending, w) - {rid};
  }

  lemma OwnSuccess(s: Stats, v: WorkerId, wait: real, event: Option<string>, w: WorkerId)
    requires !Duplicate(s, event)
    ensures SuccessesOf(TaskSuccess(s, v, wait, event), w) == SuccessesOf(s, w) + (if v == w then 1 else 0)
  {
  }

  lemma OwnStep(t: Tally, turn: Turn, w: WorkerId)
    requires TallyInv(t) && Possible(t, turn)
    ensures var r := Turned(t, turn);
            SuccessesOf(r.stats, w) + |PendingOf(r.pending, w)| ==
            SuccessesOf(t.stats, w) + |PendingOf(t.pending, w)| + StoredFrom(t, [turn], w)
  {
    hide Inv, Counted, MR.Step, Note, Succeed, Accepts, Tag, PendingOf, SuccessesOf, TaskSuccess;
    match turn
    case Stores(rid, sender, id, assignee) => OwnStored(t.pending, rid, sender, w);
    case Records(rid, wait) =>
      OwnRecorded(t.pending, rid, w);
      OwnSuccess(t.stats, t.pending[rid], wait, Some(Tag(rid)), w);
    case Notes(record) => NoteKeepsOwn(t.stats, record, w);
    case Elsewhere(event) =>
  }

  /**
   * Nor is a result counted for anyone but its sender: in every run, what was counted for a worker and what is still
   * to be counted for it grow by exactly its own stored results.
   */
  lemma {:induction false} OwnSuccessesCounted(t: Tally, turns: seq<Turn>, w: WorkerId)
    requires TallyInv(t) && AllPossible(t, turns)
    ensures var r := RunTurns(t, turns);
            SuccessesOf(r.stats, w) + |PendingOf(r.pending, w)| ==
            SuccessesOf(t.stats, w) + |PendingOf(t.pending, w)| + StoredFrom(t, turns, w)
    decreases |turns|
  {
    if |turns| == 0 {
    } else {
      TurnInv(t, turns[0]);
      OwnStep(t, turns[0], w);
      hide TallyInv, Turned, Possible, Accepts, PendingOf, SuccessesOf;
      assert StoredFrom(t, turns, w) == StoredFrom(t, [turns[0]], w) + StoredFrom(Turned(t, turns[0]), turns[1..], w);
      OwnSuccessesCounted(Turned(t, turns[0]), turns[1..], w);
    }
  }

  lemma StartCounted(m: Master)
    requires Initial(m)
    ensures TallyInv(Tally(m, NOTHING, map[]))
  {
    InitialInv(m);
    hide Inv;
    assert Successes(NOTHING.workers) == map[];
  }
}
