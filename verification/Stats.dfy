/** The statistics collector (src/kvstore/common/stats.py): counters per worker, totals, and event ids seen. */
module Statistics {
  import opened Basics
  import opened Models

  datatype WorkerStats = WorkerStats(
    throughput: nat,
    successCount: nat,
    failCount: nat,
    overflowCount: nat,
    totalWait: real,
    processedCount: nat,
    sentEvents: int,
    sentTasks: int,
    receivedEvents: int,
    receivedTasks: int)

  const BLANK: WorkerStats := WorkerStats(0, 0, 0, 0, 0.0, 0, 0, 0, 0, 0)

  datatype Stats = Stats(
    workers: map<WorkerId, WorkerStats>,
    reallocations: nat,
    p2pEvents: int,
    p2pTasks: int,
    seen: set<string>)

  datatype Snapshot = Snapshot(sentEvents: int, sentTasks: int, receivedEvents: int, receivedTasks: int)

  const NOTHING: Stats := Stats(map[], 0, 0, 0, {})

  // ---- sums over workers ----------------------------------------------------------------------

  ghost function Sum(m: map<WorkerId, int>): int
    decreases |m|
  {
    if m == map[] then 0 else
      var w :| w in m;
      assert |m - {w}| < |m| by { FewerKeys(m, w); }
      m[w] + Sum(m - {w})
  }

  lemma FewerKeys(m: map<WorkerId, int>, w: WorkerId)
    requires w in m
    ensures |m - {w}| == |m| - 1
  {
  }

  /** The sum does not depend on where it starts. */
  lemma {:induction false} SumWithout(m: map<WorkerId, int>, w: WorkerId)
    requires w in m
    ensures Sum(m) == m[w] + Sum(m - {w})
    decreases |m|
  {
    var v :| v in m && Sum(m) == m[v] + Sum(m - {v});
    if v != w {
      FewerKeys(m, v);
      FewerKeys(m, w);
      SumWithout(m - {v}, w);
      SumWithout(m - {w}, v);
      assert m - {v} - {w} == m - {w} - {v};
    }
  }

  lemma SumUpdate(m: map<WorkerId, int>, w: WorkerId, value: int)
    ensures Sum(m[w := value]) == Sum(m) - (if w in m then m[w] else 0) + value
  {
    SumWithout(m[w := value], w);
    assert m[w := value] - {w} == m - {w};
    if w in m { SumWithout(m, w); } else { assert m - {w} == m; }
  }

  function SentEvents(ws: map<WorkerId, WorkerStats>): map<WorkerId, int> {
    map w | w in ws :: ws[w].sentEvents
  }

  function SentTasks(ws: map<WorkerId, WorkerStats>): map<WorkerId, int> {
    map w | w in ws :: ws[w].sentTasks
  }

  function Successes(ws: map<WorkerId, WorkerStats>): map<WorkerId, int> {
    map w | w in ws :: ws[w].successCount
  }

  // ---- the operations -------------------------------------------------------------------------

  predicate Duplicate(s: Stats, event: Option<string>) {
    event.Some? && event.value in s.seen
  }

  function See(s: Stats, event: Option<string>): Stats {
    if event.Some? then s.(seen := s.seen + {event.value}) else s
  }

  function Of(s: Stats, w: WorkerId): WorkerStats {
    if w in s.workers then s.workers[w] else BLANK
  }

  function Put(s: Stats, w: WorkerId, ws: WorkerStats): Stats {
    s.(workers := s.workers[w := ws])
  }

  function Waited(ws: WorkerStats, wait: real): WorkerStats {
    ws.(processedCount := ws.processedCount + 1, totalWait := if wait > 0.0 then ws.totalWait + wait else ws.totalWait)
  }

  function TaskSuccess(s: Stats, w: WorkerId, wait: real, event: Option<string>): Stats {
    if Duplicate(s, event) then s else
      var ws := Waited(Of(s, w), wait);
      Put(See(s, event), w, ws.(throughput := ws.throughput + 1, successCount := ws.successCount + 1))
  }

  function TaskFail(s: Stats, w: WorkerId, wait: real, event: Option<string>): Stats {
    if Duplicate(s, event) then s else
      var ws := Waited(Of(s, w), wait);
      Put(See(s, event), w, ws.(failCount := ws.failCount + 1))
  }

  function Overflow(s: Stats, w: WorkerId): Stats {
    Put(s, w, Of(s, w).(overflowCount := Of(s, w).overflowCount + 1))
  }

  function SentBatch(ws: WorkerStats, count: int): WorkerStats {
    ws.(sentEvents := ws.sentEvents + 1, sentTasks := ws.sentTasks + count)
  }

  function ReceivedBatch(ws: WorkerStats, count: int): WorkerStats {
    ws.(receivedEvents := ws.receivedEvents + 1, receivedTasks := ws.receivedTasks + count)
  }

  function Sending(s: Stats, w: WorkerId, count: int): Stats {
    Put(s, w, SentBatch(Of(s, w), count))
  }

  function Receiving(s: Stats, w: WorkerId, count: int): Stats {
    Put(s, w, ReceivedBatch(Of(s, w), count))
  }

  function Transfer(s: Stats, sender: WorkerId, receiver: WorkerId, count: int, event: Option<string>): Stats {
    if count <= 0 || Duplicate(s, event) then s else
      var r := Receiving(Sending(See(s, event), sender, count), receiver, count);
      r.(p2pEvents := s.p2pEvents + 1, p2pTasks := s.p2pTasks + count)
  }

  function Reallocation(s: Stats, event: Option<string>): Stats {
    if Duplicate(s, event) then s else See(s, event).(reallocations := s.reallocations + 1)
  }

  function Max(a: int, b: int): int {
    if a < b then b else a
  }

  predicate Refused(p: Snapshot) {
    p.sentEvents < 0 || p.sentTasks < 0 || p.receivedEvents < 0 || p.receivedTasks < 0
  }

  function Merged(ws: WorkerStats, p: Snapshot): WorkerStats {
    ws.(sentEvents := Max(ws.sentEvents, p.sentEvents), sentTasks := Max(ws.sentTasks, p.sentTasks),
        receivedEvents := Max(ws.receivedEvents, p.receivedEvents),
        receivedTasks := Max(ws.receivedTasks, p.receivedTasks))
  }

  /**
   * A worker's report of its running counts: keeps the maxima and recomputes the totals; negative counts are
   * refused.
   */
  ghost function Update(s: Stats, w: WorkerId, p: Snapshot): Stats {
    if Refused(p) then s else
      var r := Put(s, w, Merged(Of(s, w), p));
      r.(p2pEvents := Sum(SentEvents(r.workers)), p2pTasks := Sum(SentTasks(r.workers)))
  }

  // ---- totals ---------------------------------------------------------------------------------

  datatype Record =
    | Success(worker: WorkerId, wait: real, event: Option<string>)
    | Failure(worker: WorkerId, wait: real, event: Option<string>)
    | Overflowed(worker: WorkerId)
    | Transferred(sender: WorkerId, receiver: WorkerId, count: int, event: Option<string>)
    | Reallocated(event: Option<string>)
    | Reported(worker: WorkerId, snapshot: Snapshot)
    | Looked(worker: WorkerId)

  ghost function Note(s: Stats, r: Record): Stats {
    match r
    case Success(w, wait, event) => TaskSuccess(s, w, wait, event)
    case Failure(w, wait, event) => TaskFail(s, w, wait, event)
    case Overflowed(w) => Overflow(s, w)
    case Transferred(a, b, count, event) => Transfer(s, a, b, count, event)
    case Reallocated(event) => Reallocation(s, event)
    case Reported(w, p) => Update(s, w, p)
    case Looked(w) => Put(s, w, Of(s, w))
  }

  ghost function NoteAll(s: Stats, rs: seq<Record>): Stats
    decreases |rs|
  {
    if |rs| == 0 then s else NoteAll(Note(s, rs[0]), rs[1..])
  }

  ghost predicate TotalsMatch(s: Stats) {
    s.p2pEvents == Sum(SentEvents(s.workers)) && s.p2pTasks == Sum(SentTasks(s.workers))
  }

  lemma PutSums(s: Stats, w: WorkerId, ws: WorkerStats)
    ensures Sum(SentEvents(Put(s, w, ws).workers)) == Sum(SentEvents(s.workers)) - Of(s, w).sentEvents + ws.sentEvents
    ensures Sum(SentTasks(Put(s, w, ws).workers)) == Sum(SentTasks(s.workers)) - Of(s, w).sentTasks + ws.sentTasks
  {
    hide Sum;
    SumUpdate(SentEvents(s.workers), w, ws.sentEvents);
    SumUpdate(SentTasks(s.workers), w, ws.sentTasks);
    assert SentEvents(s.workers[w := ws]) == SentEvents(s.workers)[w := ws.sentEvents];
    assert SentTasks(s.workers[w := ws]) == SentTasks(s.workers)[w := ws.sentTasks];
  }

  lemma PutSuccesses(s: Stats, w: WorkerId, ws: WorkerStats)
    ensures Sum(Successes(Put(s, w, ws).workers)) == Sum(Successes(s.workers)) - Of(s, w).successCount + ws.successCount
  {
    hide Sum;
    SumUpdate(Successes(s.workers), w, ws.successCount);
    assert Successes(s.workers[w := ws]) == Successes(s.workers)[w := ws.successCount];
  }

  lemma NoteTotals(s: Stats, r: Record)
    requires TotalsMatch(s)
    ensures TotalsMatch(Note(s, r))
  {
    hide Sum, SentEvents, SentTasks, Successes;
    match r
    case Success(w, _, _) => PutSums(s, w, Of(Note(s, r), w));
    case Failure(w, _, _) => PutSums(s, w, Of(Note(s, r), w));
    case Overflowed(w) => PutSums(s, w, Of(Note(s, r), w));
    case Transferred(a, b, count, event) =>
      var sent := Sending(See(s, event), a, count);
      PutSums(See(s, event), a, Of(sent, a));
      PutSums(sent, b, Of(Receiving(sent, b, count), b));
    case Reallocated(_) =>
    case Reported(_, _) =>
    case Looked(w) => PutSums(s, w, Of(s, w));
  }

  /** In every run the two P2P totals are the sums of the workers' sent counters. */
  lemma {:induction false} TotalsAlwaysMatch(s: Stats, rs: seq<Record>)
    requires TotalsMatch(s)
    ensures TotalsMatch(NoteAll(s, rs))
    decreases |rs|
  {
    hide TotalsMatch, Note;
    if |rs| == 0 {
    } else {
      NoteTotals(s, rs[0]);
      TotalsAlwaysMatch(Note(s, rs[0]), rs[1..]);
    }
  }

  lemma NothingMatches()
    ensures TotalsMatch(NOTHING)
  {
  }

  // ---- duplicates -----------------------------------------------------------------------------

  function EventOf(r: Record): Option<string> {
    match r
    case Success(_, _, event) => event
    case Failure(_, _, event) => event
    case Transferred(_, _, count, event) => if count > 0 then event else None
    case Reallocated(event) => event
    case Overflowed(_) => None
    case Reported(_, _) => None
    case Looked(_) => None
  }

  lemma SeenGrows(s: Stats, r: Record)
    ensures s.seen <= Note(s, r).seen
    ensures EventOf(r).Some? ==> EventOf(r).value in Note(s, r).seen
    ensures Duplicate(s, EventOf(r)) ==> Note(s, r) == s
  {
  }

  lemma {:induction false} SeenStays(s: Stats, rs: seq<Record>)
    ensures s.seen <= NoteAll(s, rs).seen
    decreases |rs|
  {
    hide Note;
    if |rs| == 0 {
    } else {
      SeenGrows(s, rs[0]);
      SeenStays(Note(s, rs[0]), rs[1..]);
    }
  }

  /** A record whose event id occurred earlier, on any record of any kind, changes nothing, whatever came between. */
  lemma CountedOnce(s: Stats, first: Record, between: seq<Record>, again: Record)
    requires EventOf(first).Some? && EventOf(again) == EventOf(first)
    ensures var t := NoteAll(Note(s, first), between); Note(t, again) == t
  {
    hide Note, NoteAll;
    SeenGrows(s, first);
    SeenStays(Note(s, first), between);
    SeenGrows(NoteAll(Note(s, first), between), again);
  }

  // ---- snapshots ------------------------------------------------------------------------------

  datatype Report = Report(worker: WorkerId, snapshot: Snapshot)

  ghost function UpdateAll(s: Stats, rs: seq<Report>): Stats
    decreases |rs|
  {
    if |rs| == 0 then s else UpdateAll(Update(s, rs[0].worker, rs[0].snapshot), rs[1..])
  }

  predicate Covers(ws: WorkerStats, p: Snapshot) {
    && p.sentEvents <= ws.sentEvents && p.sentTasks <= ws.sentTasks
    && p.receivedEvents <= ws.receivedEvents && p.receivedTasks <= ws.receivedTasks
  }

  /** Taking in what is covered already changes nothing. */
  lemma Absorbs(s: Stats, w: WorkerId, p: Snapshot)
    requires TotalsMatch(s) && w in s.workers && Covers(s.workers[w], p)
    ensures Update(s, w, p) == s
  {
    assert Merged(s.workers[w], p) == s.workers[w];
    assert s.workers[w := s.workers[w]] == s.workers;
  }

  lemma UpdateLaw(s: Stats, w: WorkerId, p: Snapshot)
    ensures TotalsMatch(s) ==> TotalsMatch(Update(s, w, p))
    ensures !Refused(p) ==> w in Update(s, w, p).workers && Covers(Update(s, w, p).workers[w], p)
  {
  }

  /** Two reports commute. */
  lemma Commute(s: Stats, a: Report, b: Report)
    ensures Update(Update(s, a.worker, a.snapshot), b.worker, b.snapshot) ==
            Update(Update(s, b.worker, b.snapshot), a.worker, a.snapshot)
  {
    hide Sum, SentEvents, SentTasks;
    if !Refused(a.snapshot) && !Refused(b.snapshot) {
      if a.worker == b.worker {
        assert Merged(Merged(Of(s, a.worker), a.snapshot), b.snapshot) ==
            Merged(Merged(Of(s, a.worker), b.snapshot), a.snapshot);
        assert Update(Update(s, a.worker, a.snapshot), b.worker, b.snapshot).workers ==
               s.workers[a.worker := Merged(Merged(Of(s, a.worker), a.snapshot), b.snapshot)];
        assert Update(Update(s, b.worker, b.snapshot), a.worker, a.snapshot).workers ==
               s.workers[a.worker := Merged(Merged(Of(s, a.worker), a.snapshot), b.snapshot)];
      } else {
        assert Update(Update(s, a.worker, a.snapshot), b.worker, b.snapshot).workers ==
               Update(Update(s, b.worker, b.snapshot), a.worker, a.snapshot).workers;
      }
    }
  }

  /** A report can be moved from anywhere in a run to its front. */
  lemma {:induction false} MoveFirst(s: Stats, rs: seq<Report>, i: nat)
    requires i < |rs|
    ensures UpdateAll(s, rs) == UpdateAll(s, [rs[i]] + rs[..i] + rs[i + 1..])
    decreases |rs|
  {
    hide Update;
    var r := rs[i];
    var whole := [r] + rs[..i] + rs[i + 1..];
    if i == 0 {
      assert whole == rs;
    } else {
      var next := Update(s, rs[0].worker, rs[0].snapshot);
      var rest := rs[1..];
      MoveFirst(next, rest, i - 1);
      var moved := [r] + rest[..i - 1] + rest[i..];
      assert rest[i - 1] == r && rest[i - 1 + 1..] == rest[i..];
      assert moved[0] == r;
      assert moved[1..] == rest[..i - 1] + rest[i..];
      Commute(s, rs[0], r);
      assert rs[..i] == [rs[0]] + rest[..i - 1];
      assert rs[i + 1..] == rest[i..];
      assert whole[1..] == [rs[0]] + moved[1..];
    }
  }

  /** Taking the same report out of two arrangements of the same reports leaves the same reports. */
  lemma PullOut(a: seq<Report>, b: seq<Report>, i: nat)
    requires |a| > 0 && i < |b| && b[i] == a[0] && multiset(a) == multiset(b)
    ensures multiset(a[1..]) == multiset(b[..i] + b[i + 1..])
  {
    assert a == [a[0]] + a[1..];
    assert b == b[..i] + [b[i]] + b[i + 1..];
    assert multiset(a[1..]) == multiset(a) - multiset{a[0]};
    assert multiset(b[..i] + b[i + 1..]) == multiset(b) - multiset{b[i]};
  }

  /** Snapshot-only runs do not depend on the order in which the reports arrive. */
  lemma {:induction false} OrderIndependent(s: Stats, a: seq<Report>, b: seq<Report>)
    requires multiset(a) == multiset(b)
    ensures UpdateAll(s, a) == UpdateAll(s, b)
    decreases |a|
  {
    hide Update;
    if |a| == 0 {
      assert |b| == |multiset(b)| == 0;
    } else {
      assert a[0] in multiset(a);
      var i :| 0 <= i < |b| && b[i] == a[0];
      var rest := b[..i] + b[i + 1..];
      PullOut(a, b, i);
      MoveFirst(s, b, i);
      assert [b[i]] + b[..i] + b[i + 1..] == [b[i]] + rest;
      OrderIndependent(Update(s, a[0].worker, a[0].snapshot), a[1..], rest);
    }
  }

  /** Nor on how often one arrives. */
  lemma RepeatAbsorbed(s: Stats, rs: seq<Report>, i: nat)
    requires TotalsMatch(s) && i < |rs|
    ensures UpdateAll(s, [rs[i]] + rs) == UpdateAll(s, rs)
  {
    hide Update, TotalsMatch, Sum, SentEvents, SentTasks;
    var r := rs[i];
    MoveFirst(s, rs, i);
    var moved := [r] + rs[..i] + rs[i + 1..];
    MoveFirst(s, [r] + rs, i + 1);
    var again := [r] + ([r] + rs)[..i + 1] + ([r] + rs)[i + 2..];
    assert ([r] + rs)[i + 1] == r && ([r] + rs)[..i + 1] == [r] + rs[..i] && ([r] + rs)[i + 2..] == rs[i + 1..];
    assert again[1..] == moved && again[0] == r;
    var once := Update(s, r.worker, r.snapshot);
    Twice(s, r);
    assert UpdateAll(once, moved) == UpdateAll(Update(once, r.worker, r.snapshot), moved[1..]);
  }

  lemma Twice(s: Stats, r: Report)
    requires TotalsMatch(s)
    ensures Update(Update(s, r.worker, r.snapshot), r.worker, r.snapshot) == Update(s, r.worker, r.snapshot)
  {
    hide Sum, SentEvents, SentTasks;
    UpdateLaw(s, r.worker, r.snapshot);
    if !Refused(r.snapshot) { Absorbs(Update(s, r.worker, r.snapshot), r.worker, r.snapshot); }
  }

  /** What one batch adds to which counters. */
  lemma BothSides(s: Stats, sender: WorkerId, receiver: WorkerId, count: int)
    ensures var r := Receiving(Sending(s, sender, count), receiver, count);
            && r.workers.Keys == s.workers.Keys + {sender, receiver}
            && (forall v :: v in r.workers ==>
                  var ws := if v in s.workers then s.workers[v] else WorkerStats(0, 0, 0, 0, 0.0, 0, 0, 0, 0, 0);
                  r.workers[v] == ws.(sentEvents := ws.sentEvents + (if v == sender then 1 else 0),
                                      sentTasks := ws.sentTasks + (if v == sender then count else 0),
                                      receivedEvents := ws.receivedEvents + (if v == receiver then 1 else 0),
                                      receivedTasks := ws.receivedTasks + (if v == receiver then count else 0)))
            && r.reallocations == s.reallocations && r.seen == s.seen
  {
  }

  /** Creating both workers' counters before changing them makes no difference. */
  lemma CreatedFirst(s: Stats, a: WorkerId, b: WorkerId, count: int)
    ensures var t := Put(s, a, Of(s, a));
            var u := Put(t, b, Of(t, b));
            && Of(u, a) == Of(s, a) && a in u.workers && b in u.workers
            && Receiving(Sending(u, a, count), b, count) == Receiving(Sending(s, a, count), b, count)
  {
    hide SentBatch, ReceivedBatch;
    if a == b { CreatedBoth(s, a); } else { CreatedApart(s, a, b); }
  }

  lemma CreatedBoth(s: Stats, a: WorkerId)
    ensures Put(Put(s, a, Of(s, a)), a, Of(Put(s, a, Of(s, a)), a)) == Put(s, a, Of(s, a))
    ensures forall ws :: Put(Put(s, a, Of(s, a)), a, ws) == Put(s, a, ws)
  {
  }

  lemma CreatedApart(s: Stats, a: WorkerId, b: WorkerId)
    requires a != b
    ensures var u := Put(Put(s, a, Of(s, a)), b, Of(Put(s, a, Of(s, a)), b));
            && Of(u, a) == Of(s, a) && Of(u, b) == Of(s, b)
            && forall x, y :: Put(Put(u, a, x), b, y) == Put(Put(s, a, x), b, y)
    ensures forall x :: Of(Put(s, a, x), b) == Of(s, b)
  {
    forall x, y ensures var u := Put(Put(s, a, Of(s, a)), b, Of(Put(s, a, Of(s, a)), b));
                        Put(Put(u, a, x), b, y) == Put(Put(s, a, x), b, y)
    {
      SetTwice(s.workers, a, b, Of(s, a), Of(Put(s, a, Of(s, a)), b), x, y);
    }
  }

  lemma SetTwice(m: map<WorkerId, WorkerStats>, a: WorkerId, b: WorkerId, p: WorkerStats, q: WorkerStats,
                 x: WorkerStats, y: WorkerStats)
    ensures m[a := p][b := q][a := x][b := y] == m[a := x][b := y]
  {
  }

  class StatsCollector {
    var workers: map<WorkerId, WorkerStats>
    var totalReallocations: nat
    var totalP2PEvents: int
    var totalP2PTasks: int
    var seenEventIds: set<string>

    function State(): Stats
      reads this
    {
      Stats(workers, totalReallocations, totalP2PEvents, totalP2PTasks, seenEventIds)
    }

    constructor ()
      ensures State() == NOTHING && TotalsMatch(State())
      ensures workers == map[] && seenEventIds == {}
      ensures totalReallocations == totalP2PEvents == totalP2PTasks == 0
    {
      workers, totalReallocations, totalP2PEvents, totalP2PTasks, seenEventIds := map[], 0, 0, 0, {};
      new;
      NothingMatches();
    }

    method IsDuplicateLocked(event: Option<string>) returns (duplicate: bool)
      modifies this`seenEventIds
      ensures duplicate == Duplicate(old(State()), event)
      ensures State() == See(old(State()), event)
      ensures duplicate == (event.Some? && event.value in old(seenEventIds))
      ensures seenEventIds == old(seenEventIds) + (if event.Some? then {event.value} else {})
    {
      if event.None? {
        return false;
      }
      if event.value in seenEventIds {
        assert seenEventIds == seenEventIds + {event.value};
        return true;
      }
      seenEventIds := seenEventIds + {event.value};
      duplicate := false;
    }

    method GetOrCreateWorkerLocked(w: WorkerId) returns (ws: WorkerStats)
      modifies this`workers
      ensures ws == Of(old(State()), w) && State() == Put(old(State()), w, ws)
      ensures workers == old(workers)[w := ws]
      ensures ws == if w in old(workers) then old(workers)[w] else WorkerStats(0, 0, 0, 0, 0.0, 0, 0, 0, 0, 0)
    {
      if w !in workers {
        workers := workers[w := BLANK];
      } else {
        assert workers[w := workers[w]] == workers;
      }
      ws := workers[w];
    }

    method RecordTaskSuccess(w: WorkerId, wait: real, event: Option<string>) returns (counted: bool)
      modifies this
      ensures State() == TaskSuccess(old(State()), w, wait, event) && counted == !Duplicate(old(State()), event)
      ensures counted <==> event.None? || event.value !in old(seenEventIds)
      ensures !counted ==> State() == old(State())
      ensures counted ==>
                var ws := if w in old(workers) then old(workers)[w] else WorkerStats(0, 0, 0, 0, 0.0, 0, 0, 0, 0, 0);
                && workers == old(workers)[w :=
                     ws.(throughput := ws.throughput + 1, successCount := ws.successCount + 1,
                         processedCount := ws.processedCount + 1,
                         totalWait := if wait > 0.0 then ws.totalWait + wait else ws.totalWait)]
                && seenEventIds == old(seenEventIds) + (if event.Some? then {event.value} else {})
      ensures totalReallocations == old(totalReallocations)
      ensures totalP2PEvents == old(totalP2PEvents) && totalP2PTasks == old(totalP2PTasks)
    {
      var duplicate := IsDuplicateLocked(event);
      if duplicate {
        assert See(old(State()), event) == old(State());
        return false;
      }
      var ws := GetOrCreateWorkerLocked(w);
      ws := ws.(throughput := ws.throughput + 1, successCount := ws.successCount + 1,
          processedCount := ws.processedCount + 1);
      if wait > 0.0 {
        ws := ws.(totalWait := ws.totalWait + wait);
      }
      workers := workers[w := ws];
      counted := true;
    }

    method RecordTaskFail(w: WorkerId, wait: real, event: Option<string>) returns (counted: bool)
      modifies this
      ensures State() == TaskFail(old(State()), w, wait, event) && counted == !Duplicate(old(State()), event)
      ensures counted <==> event.None? || event.value !in old(seenEventIds)
      ensures !counted ==> State() == old(State())
      ensures counted ==>
                var ws := if w in old(workers) then old(workers)[w] else WorkerStats(0, 0, 0, 0, 0.0, 0, 0, 0, 0, 0);
                && workers == old(workers)[w :=
                     ws.(failCount := ws.failCount + 1, processedCount := ws.processedCount + 1,
                         totalWait := if wait > 0.0 then ws.totalWait + wait else ws.totalWait)]
                && seenEventIds == old(seenEventIds) + (if event.Some? then {event.value} else {})
      ensures totalReallocations == old(totalReallocations)
      ensures totalP2PEvents == old(totalP2PEvents) && totalP2PTasks == old(totalP2PTasks)
    {
      var duplicate := IsDuplicateLocked(event);
      if duplicate {
        assert See(old(State()), event) == old(State());
        return false;
      }
      var ws := GetOrCreateWorkerLocked(w);
      ws := ws.(failCount := ws.failCount + 1, processedCount := ws.processedCount + 1);
      if wait > 0.0 {
        ws := ws.(totalWait := ws.totalWait + wait);
      }
      workers := workers[w := ws];
      counted := true;
    }

    method RecordQueueOverflow(w: WorkerId)
      modifies this
      ensures State() == Overflow(old(State()), w)
      ensures var ws := if w in old(workers) then old(workers)[w] else WorkerStats(0, 0, 0, 0, 0.0, 0, 0, 0, 0, 0);
              workers == old(workers)[w := ws.(overflowCount := ws.overflowCount + 1)]
      ensures totalReallocations == old(totalReallocations) && seenEventIds == old(seenEventIds)
      ensures totalP2PEvents == old(totalP2PEvents) && totalP2PTasks == old(totalP2PTasks)
    {
      var ws := GetOrCreateWorkerLocked(w);
      workers := workers[w := ws.(overflowCount := ws.overflowCount + 1)];
    }

    method RecordP2PTransfer(sender: WorkerId, receiver: WorkerId, count: int, event: Option<string>)
      returns (counted: bool)
      modifies this
      ensures State() == Transfer(old(State()), sender, receiver, count, event)
      ensures counted == (count > 0 && !Duplicate(old(State()), event))
      ensures counted <==> count > 0 && (event.None? || event.value !in old(seenEventIds))
      ensures !counted ==> State() == old(State())
      ensures counted ==>
                && workers.Keys == old(workers).Keys + {sender, receiver}
                && (forall v :: v in workers ==>
                      var ws := if v in old(workers) then old(workers)[v]
                                else WorkerStats(0, 0, 0, 0, 0.0, 0, 0, 0, 0, 0);
                      workers[v] == ws.(sentEvents := ws.sentEvents + (if v == sender then 1 else 0),
                                        sentTasks := ws.sentTasks + (if v == sender then count else 0),
                                        receivedEvents := ws.receivedEvents + (if v == receiver then 1 else 0),
                                        receivedTasks := ws.receivedTasks + (if v == receiver then count else 0)))
                && totalP2PEvents == old(totalP2PEvents) + 1 && totalP2PTasks == old(totalP2PTasks) + count
                && seenEventIds == old(seenEventIds) + (if event.Some? then {event.value} else {})
      ensures totalReallocations == old(totalReallocations)
    {
      if count <= 0 {
        return false;
      }
      var duplicate := IsDuplicateLocked(event);
      if duplicate {
        assert See(old(State()), event) == old(State());
        return false;
      }
      BothSides(State(), sender, receiver, count);
      hide Sending, Receiving, Put, Of;
      CountBatchLocked(sender, receiver, count);
      totalP2PEvents := totalP2PEvents + 1;
      totalP2PTasks := totalP2PTasks + count;
      counted := true;
    }

    /** One batch on the counters of both sides. */
    method CountBatchLocked(sender: WorkerId, receiver: WorkerId, count: int)
      modifies this
      ensures State() == Receiving(Sending(old(State()), sender, count), receiver, count)
    {
      ghost var s := State();
      CreatedFirst(s, sender, receiver, count);
      var from := GetOrCreateWorkerLocked(sender);
      var into := GetOrCreateWorkerLocked(receiver);
      ghost var both := State();
      assert from == Of(both, sender);
      from := from.(sentEvents := from.sentEvents + 1, sentTasks := from.sentTasks + count);
      workers := workers[sender := from];
      assert State() == Sending(both, sender, count);
      into := workers[receiver];
      into := into.(receivedEvents := into.receivedEvents + 1, receivedTasks := into.receivedTasks + count);
      workers := workers[receiver := into];
    }

    method RecordReallocation(event: Option<string>) returns (counted: bool)
      modifies this
      ensures State() == Reallocation(old(State()), event) && counted == !Duplicate(old(State()), event)
      ensures counted <==> event.None? || event.value !in old(seenEventIds)
      ensures totalReallocations == if counted then old(totalReallocations) + 1 else old(totalReallocations)
      ensures seenEventIds == old(seenEventIds) + (if event.Some? then {event.value} else {})
      ensures workers == old(workers)
      ensures totalP2PEvents == old(totalP2PEvents) && totalP2PTasks == old(totalP2PTasks)
    {
      var duplicate := IsDuplicateLocked(event);
      if duplicate {
        assert See(old(State()), event) == old(State());
        return false;
      }
      totalReallocations := totalReallocations + 1;
      counted := true;
    }

    static method SumOf(m: map<WorkerId, int>) returns (total: int)
      ensures total == Sum(m)
    {
      total := 0;
      var left := m;
      while left != map[]
        invariant total + Sum(left) == Sum(m)
        decreases |left|
      {
        var w :| w in left;
        SumWithout(left, w);
        FewerKeys(left, w);
        total := total + left[w];
        left := left - {w};
      }
    }

    method UpdateP2PSnapshot(w: WorkerId, p: Snapshot) returns (r: Result<(), Error>)
      modifies this
      ensures State() == Update(old(State()), w, p) && (r.Ok? <==> !Refused(p))
      ensures r.Ok? <==> p.sentEvents >= 0 && p.sentTasks >= 0 && p.receivedEvents >= 0 && p.receivedTasks >= 0
      ensures r.Err? ==> State() == old(State())
      ensures r.Ok? ==>
                var ws := if w in old(workers) then old(workers)[w] else WorkerStats(0, 0, 0, 0, 0.0, 0, 0, 0, 0, 0);
                && workers == old(workers)[w :=
                     ws.(sentEvents := if ws.sentEvents < p.sentEvents then p.sentEvents else ws.sentEvents,
                         sentTasks := if ws.sentTasks < p.sentTasks then p.sentTasks else ws.sentTasks,
                         receivedEvents := if ws.receivedEvents < p.receivedEvents then p.receivedEvents
                                           else ws.receivedEvents,
                         receivedTasks := if ws.receivedTasks < p.receivedTasks then p.receivedTasks
                                          else ws.receivedTasks)]
                && totalP2PEvents == Sum(map v | v in workers :: workers[v].sentEvents)
                && totalP2PTasks == Sum(map v | v in workers :: workers[v].sentTasks)
      ensures totalReallocations == old(totalReallocations) && seenEventIds == old(seenEventIds)
    {
      if p.sentEvents < 0 || p.sentTasks < 0 || p.receivedEvents < 0 || p.receivedTasks < 0 {
        return Err(Invalid);
      }
      var ws := GetOrCreateWorkerLocked(w);
      workers := workers[w := ws.(sentEvents := Max(ws.sentEvents, p.sentEvents),
                                  sentTasks := Max(ws.sentTasks, p.sentTasks),
                                  receivedEvents := Max(ws.receivedEvents, p.receivedEvents),
                                  receivedTasks := Max(ws.receivedTasks, p.receivedTasks))];
      assert workers == old(workers)[w := Merged(ws, p)];
      totalP2PEvents := SumOf(SentEvents(workers));
      totalP2PTasks := SumOf(SentTasks(workers));
      r := Ok(());
    }

    /** A copy of the worker's counters; looking creates them. */
    method GetWorkerStats(w: WorkerId) returns (ws: WorkerStats)
      modifies this
      ensures State() == Put(old(State()), w, ws) && ws == Of(old(State()), w)
      ensures ws == if w in old(workers) then old(workers)[w] else WorkerStats(0, 0, 0, 0, 0.0, 0, 0, 0, 0, 0)
      ensures workers == old(workers)[w := ws]
    {
      ws := GetOrCreateWorkerLocked(w);
    }
  }
}
