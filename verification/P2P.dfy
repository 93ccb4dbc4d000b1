/**
 * The P2P service of one worker as the source has it (src/kvstore/worker/p2p.py): a mutable queue and clock
 * shared with the process loop, the answers given so far, one balancing thread and one serving thread.
 * Peers' replies, the random draws and the fresh request ids are parameters.
 */
module P2P {
  import opened Basics
  import opened Models
  import opened QueueSpec
  import opened QueueLaws
  import opened QueueBalance
  import opened NodeSpec
  import opened NodeLaws
  import opened WorkerQueue
  import Clock
  import Statistics
  import opened Timing

  const OVERLOAD_WAIT_SECONDS: int := 15
  const TRANSFER: string := "P2P_TRANSFER"

  datatype Body =
    | StatusRequest
    | StatusResponse(available: int)
    | Transfer(tasks: Option<seq<map<string, Json>>>)
    | Answer(acknowledged: string, ack: Ack)
    | Unsupported

  datatype Message = Message(sender: WorkerId, rid: RequestId, stamp: real, body: Body)

  /** One request over its own connection: no connection, a connection without a usable reply, or a reply. */
  datatype Exchange = NoConnection | NoReply | Reply(message: Message)

  datatype Probe = Probe(rid: RequestId, exchange: Exchange)

  // ---- sections of one transfer ---------------------------------------------------------------

  /** The sections of balance_once, and of the intake, that the protocol proofs are about. */
  datatype Section =
    | Starts(peer: WorkerId, count: nat)
    | Picks
    | Sends(rid: RequestId)
    | Agreed(ack: Ack)
    | GivesUp
    | Confirms
    | Releases
    | Settles

  function Perform(n: Node, s: Section): Node {
    match s
    case Starts(peer, count) => StartPick(n, peer, count)
    case Picks => Pick(n)
    case Sends(rid) => Send(n, rid)
    case Agreed(ack) => AckArrives(n, ack)
    case GivesUp => GiveUp(n)
    case Confirms => ConfirmOne(n)
    case Releases => ReleaseOne(n)
    case Settles => Settle(n)
  }

  function PerformAll(n: Node, ss: seq<Section>): Node
    decreases |ss|
  {
    if |ss| == 0 then n else Perform(PerformAll(n, ss[..|ss| - 1]), ss[|ss| - 1])
  }

  lemma PerformNext(n: Node, ss: seq<Section>, s: Section)
    ensures PerformAll(n, ss + [s]) == Perform(PerformAll(n, ss), s)
  {
  }

  lemma SectionApart(n: Node, s: Section, working: Option<Task>, reported: bool)
    ensures Perform(n.(working := working, reported := reported), s) ==
            Perform(n, s).(working := working, reported := reported)
  {
  }

  /** The process loop's part of a worker takes no part in a transfer. */
  lemma {:induction false} PerformApart(n: Node, ss: seq<Section>, working: Option<Task>, reported: bool)
    ensures PerformAll(n.(working := working, reported := reported), ss) ==
            PerformAll(n, ss).(working := working, reported := reported)
    decreases |ss|
  {
    hide Perform;
    if |ss| == 0 {
    } else {
      var front := ss[..|ss| - 1];
      PerformApart(n, front, working, reported);
      SectionApart(PerformAll(n, front), ss[|ss| - 1], working, reported);
    }
  }

  lemma {:induction false} PerformConcat(n: Node, a: seq<Section>, b: seq<Section>)
    ensures PerformAll(n, a + b) == PerformAll(PerformAll(n, a), b)
    decreases |b|
  {
    hide Perform;
    if |b| == 0 {
      assert a + b == a;
    } else {
      assert (a + b)[..|a + b| - 1] == a + b[..|b| - 1];
      PerformConcat(n, a, b[..|b| - 1]);
    }
  }

  // ---- choosing a peer ------------------------------------------------------------------------

  /** The room a peer offers, if it answered a status request properly and has any. */
  function Offer(peer: WorkerId, p: Probe): Option<int> {
    if p.exchange.Reply? && p.exchange.message.rid == p.rid && p.exchange.message.sender == peer
       && p.exchange.message.body.StatusResponse? && p.exchange.message.body.available > 0
    then Some(p.exchange.message.body.available) else None
  }

  /** Most room first, then the smaller id. */
  predicate Before(a: (int, WorkerId), b: (int, WorkerId)) {
    a.0 > b.0 || (a.0 == b.0 && LexLe(a.1, b.1))
  }

  /** The peer answered this very request, with this body. */
  predicate Replied(p: Probe, peer: WorkerId, body: Body) {
    && p.exchange.Reply? && p.exchange.message.rid == p.rid
    && p.exchange.message.sender == peer && p.exchange.message.body == body
  }

  ghost predicate Offered(peers: seq<WorkerId>, probes: seq<Probe>, o: (int, WorkerId))
    requires |peers| == |probes|
  {
    exists i :: 0 <= i < |peers| && peers[i] == o.1 && Offer(peers[i], probes[i]) == Some(o.0)
  }

  /** An offer that sorts before every other. */
  ghost predicate BestOffer(peers: seq<WorkerId>, probes: seq<Probe>, o: (int, WorkerId))
    requires |peers| == |probes|
  {
    Offered(peers, probes, o) && forall v :: Offered(peers, probes, v) ==> Before(o, v)
  }

  lemma OffersMean(peers: seq<WorkerId>, probes: seq<Probe>)
    requires |peers| == |probes|
    ensures (exists o :: Offered(peers, probes, o)) <==>
            exists i, n :: 0 <= i < |peers| && n > 0 && Replied(probes[i], peers[i], StatusResponse(n))
    ensures forall i, n :: 0 <= i < |peers| && n > 0 && Replied(probes[i], peers[i], StatusResponse(n)) ==>
              Offered(peers, probes, (n, peers[i]))
  {
    forall i, n | 0 <= i < |peers| && n > 0 && Replied(probes[i], peers[i], StatusResponse(n))
      ensures Offered(peers, probes, (n, peers[i]))
    {
      assert Offer(peers[i], probes[i]) == Some(n);
    }
    if o :| Offered(peers, probes, o) {
      var i :| 0 <= i < |peers| && peers[i] == o.1 && Offer(peers[i], probes[i]) == Some(o.0);
      assert Replied(probes[i], peers[i], StatusResponse(o.0)) && o.0 > 0;
    }
  }

  lemma BestMeans(peers: seq<WorkerId>, probes: seq<Probe>, o: (int, WorkerId))
    requires |peers| == |probes| && BestOffer(peers, probes, o)
    ensures exists i :: 0 <= i < |peers| && peers[i] == o.1 && Replied(probes[i], peers[i], StatusResponse(o.0))
    ensures forall i, n :: 0 <= i < |peers| && n > 0 && Replied(probes[i], peers[i], StatusResponse(n)) ==>
              o.0 > n || (o.0 == n && LexLe(o.1, peers[i]))
  {
    OffersMean(peers, probes);
    var i :| 0 <= i < |peers| && peers[i] == o.1 && Offer(peers[i], probes[i]) == Some(o.0);
    assert Replied(probes[i], peers[i], StatusResponse(o.0));
    hide Offered, Replied;
    forall i, n | 0 <= i < |peers| && n > 0 && Replied(probes[i], peers[i], StatusResponse(n))
      ensures o.0 > n || (o.0 == n && LexLe(o.1, peers[i]))
    {
      assert Before(o, (n, peers[i]));
    }
  }

  lemma BestOfferUnique(peers: seq<WorkerId>, probes: seq<Probe>, a: (int, WorkerId), b: (int, WorkerId))
    requires |peers| == |probes| && BestOffer(peers, probes, a) && BestOffer(peers, probes, b)
    ensures a == b
  {
    assert Before(a, b) && Before(b, a);
    LexAntisymmetric(a.1, b.1);
  }

  lemma BeforeTransitive(a: (int, WorkerId), b: (int, WorkerId), c: (int, WorkerId))
    requires Before(a, b) && Before(b, c)
    ensures Before(a, c)
  {
    if a.0 == b.0 == c.0 { LexTransitive(a.1, b.1, c.1); }
  }

  /** sort()[0] of the collected offers. */
  method First(offers: seq<(int, WorkerId)>) returns (best: (int, WorkerId))
    requires |offers| > 0
    ensures best in offers && forall o <- offers :: Before(best, o)
    ensures forall o <- offers :: best.0 > o.0 || (best.0 == o.0 && LexLe(best.1, o.1))
  {
    best := offers[0];
    LexTotal(best.1, best.1);
    for i := 1 to |offers|
      invariant best in offers && forall j :: 0 <= j < i ==> Before(best, offers[j])
    {
      if !Before(best, offers[i]) {
        LexTotal(best.1, offers[i].1);
        forall j | 0 <= j < i ensures Before(offers[i], offers[j]) { BeforeTransitive(offers[i], best, offers[j]); }
        best := offers[i];
        LexTotal(best.1, best.1);
      }
    }
  }

  /** The six tests a reply must pass before the sender lets its tasks go. */
  predicate Agrees(e: Exchange, peer: WorkerId, rid: RequestId, batch: seq<Task>) {
    && e.Reply? && e.message.rid == rid && e.message.sender == peer
    && e.message.body.Answer? && e.message.body.acknowledged == TRANSFER && Matches(e.message.body.ack, batch)
  }

  /** What a call of balance_once set out to do. */
  datatype Plan = Plan(peer: WorkerId, available: int, count: nat)

  function ParseTasks(c: Coercions, ds: seq<map<string, Json>>): Result<seq<Task>, Error>
    decreases |ds|
  {
    if |ds| == 0 then Ok([]) else
      match TaskFromDict(c, ds[0])
      case Err(e) => Err(e)
      case Ok(t) =>
        match ParseTasks(c, ds[1..])
        case Err(e) => Err(e)
        case Ok(ts) => Ok([t] + ts)
  }

  function Dicts(ts: seq<Task>): seq<map<string, Json>> {
    if |ts| == 0 then [] else [TaskToDict(ts[0])] + Dicts(ts[1..])
  }

  /** What a sender puts on the wire is what the receiver parses, for valid tasks. */
  lemma {:induction false} BatchRoundTrip(c: Coercions, ts: seq<Task>)
    requires Faithful(c) && forall t <- ts :: ValidTask(t)
    ensures ParseTasks(c, Dicts(ts)) == Ok(ts) && |Dicts(ts)| == |ts|
  {
    hide TaskToDict, TaskFromDict, ValidTask, Faithful, ParseTasks;
    if |ts| == 0 {
      ParseNone(c);
    } else {
      assert ts[0] in ts;
      TaskRoundTrip(c, ts[0]);
      assert forall t <- ts[1..] :: t in ts;
      BatchRoundTrip(c, ts[1..]);
      ParseOneMore(c, TaskToDict(ts[0]), Dicts(ts[1..]));
      assert ts == [ts[0]] + ts[1..];
    }
  }

  lemma ParseNone(c: Coercions)
    ensures ParseTasks(c, []) == Ok([])
  {
  }

  lemma ParseOneMore(c: Coercions, d: map<string, Json>, ds: seq<map<string, Json>>)
    requires TaskFromDict(c, d).Ok? && ParseTasks(c, ds).Ok?
    ensures ParseTasks(c, [d] + ds) == Ok([TaskFromDict(c, d).value] + ParseTasks(c, ds).value)
  {
    hide TaskFromDict;
    assert ([d] + ds)[1..] == ds;
  }

  /** A batch parses exactly if each record does, in order; else the first fault is what is reported. */
  lemma {:induction false} ParseLaw(c: Coercions, ds: seq<map<string, Json>>)
    ensures ParseTasks(c, ds).Ok? <==> forall d <- ds :: TaskFromDict(c, d).Ok?
    ensures ParseTasks(c, ds).Ok? ==>
              var ts := ParseTasks(c, ds).value;
              |ts| == |ds| && forall i :: 0 <= i < |ds| ==> TaskFromDict(c, ds[i]) == Ok(ts[i])
    ensures ParseTasks(c, ds).Err? ==>
              exists i :: 0 <= i < |ds| && TaskFromDict(c, ds[i]) == Err(ParseTasks(c, ds).error)
                          && forall j :: 0 <= j < i ==> TaskFromDict(c, ds[j]).Ok?
    decreases |ds|
  {
    hide TaskFromDict, ParseTasks;
    if |ds| == 0 {
      ParseNone(c);
    } else {
      var rest := ds[1..];
      ParseLaw(c, rest);
      ParseStep(c, ds);
      assert ds[0] in ds && forall d <- rest :: d in ds;
      assert forall j :: 1 <= j < |ds| ==> ds[j] == rest[j - 1];
      if TaskFromDict(c, ds[0]).Ok? && ParseTasks(c, rest).Err? {
        var i :| 0 <= i < |rest| && TaskFromDict(c, rest[i]) == Err(ParseTasks(c, rest).error)
                 && forall j :: 0 <= j < i ==> TaskFromDict(c, rest[j]).Ok?;
        assert TaskFromDict(c, ds[i + 1]) == Err(ParseTasks(c, ds).error);
      } else if TaskFromDict(c, ds[0]).Ok? {
        assert forall d <- ds :: d == ds[0] || d in rest;
      }
    }
  }

  lemma ParseStep(c: Coercions, ds: seq<map<string, Json>>)
    requires |ds| > 0
    ensures TaskFromDict(c, ds[0]).Err? ==> ParseTasks(c, ds) == Err(TaskFromDict(c, ds[0]).error)
    ensures TaskFromDict(c, ds[0]).Ok? && ParseTasks(c, ds[1..]).Err? ==>
              ParseTasks(c, ds) == Err(ParseTasks(c, ds[1..]).error)
    ensures TaskFromDict(c, ds[0]).Ok? && ParseTasks(c, ds[1..]).Ok? ==>
              ParseTasks(c, ds) == Ok([TaskFromDict(c, ds[0]).value] + ParseTasks(c, ds[1..]).value)
  {
    hide TaskFromDict;
  }

  /** The tasks of a transfer, if it is well-formed: one to three, each a valid record. */
  function Batch(c: Coercions, b: Body): Option<seq<Task>> {
    if b.Transfer? && b.tasks.Some? && 1 <= |b.tasks.value| <= MAX_TRANSFER && ParseTasks(c, b.tasks.value).Ok?
    then Some(ParseTasks(c, b.tasks.value).value) else None
  }

  /** A transfer in which an id, key or value is missing at the first faulty record. */
  predicate LacksField(c: Coercions, b: Body) {
    b.Transfer? && b.tasks.Some? && 1 <= |b.tasks.value| <= MAX_TRANSFER && ParseTasks(c, b.tasks.value) == Err(Missing)
  }

  // ---- loops keep the queue valid and timely --------------------------------------------------

  lemma {:induction false} ReserveAllKeeps(q: Queue, ids: seq<TaskId>, got: seq<Task>, now: real)
    requires Inv(q) && Timely(q, now)
    ensures Inv(ReserveAll(q, ids, got).0) && Timely(ReserveAll(q, ids, got).0, now)
    ensures ReserveAll(q, ids, got).0.capacity == q.capacity
    decreases |ids|
  {
    hide Inv, Timely;
    if |ids| == 0 {
    } else {
      ReserveInv(q, ids[0]);
      ReserveTimely(q, ids[0], now);
      var (q', t) := QueueSpec.Reserve(q, ids[0]);
      ReserveAllKeeps(q', ids[1..], if t.Some? then got + [t.value] else got, now);
    }
  }

  lemma {:induction false} ReleaseAllKeeps(q: Queue, ts: seq<Task>, now: real)
    requires Inv(q) && Timely(q, now)
    ensures Inv(ReleaseAll(q, ts)) && Timely(ReleaseAll(q, ts), now)
    decreases |ts|
  {
    hide Inv, Timely;
    if |ts| == 0 {
    } else {
      ReleaseInv(q, ts[0].id);
      ReleaseTimely(q, ts[0].id, now);
      ReleaseAllKeeps(QueueSpec.Release(q, ts[0].id).0, ts[1..], now);
    }
  }

  lemma {:induction false} ConfirmAllKeeps(q: Queue, ts: seq<Task>, now: real)
    requires Inv(q) && Timely(q, now)
    ensures Inv(ConfirmAll(q, ts)) && Timely(ConfirmAll(q, ts), now)
    decreases |ts|
  {
    hide Inv, Timely;
    if |ts| == 0 {
    } else {
      ConfirmInv(q, ts[0].id);
      ReleaseTimely(q, ts[0].id, now);
      ConfirmAllKeeps(QueueSpec.Confirm(q, ts[0].id).0, ts[1..], now);
    }
  }

  class P2PService {
    const workerId: WorkerId
    const peers: seq<WorkerId>
    const queue: ReadyQueue
    const clock: Clock.LogicalClock
    const stats: Statistics.StatsCollector
    var handled: map<RequestId, Ack>
    var serving: bool
    ghost var phase: Phase

    /** The worker as the protocol sees it, leaving out the process loop. */
    ghost function View(): Node
      reads this, queue
    {
      Node(queue.State(), None, false, phase, handled)
    }

    ghost predicate Valid()
      reads this, queue, clock
    {
      && NoDup(peers) && workerId !in peers && workerId != ""
      && Inv(queue.State()) && queue.capacity == QUEUE_CAPACITY
      && clock.value >= 0.0 && Timely(queue.State(), clock.value)
    }

    constructor (workerId: WorkerId, peers: seq<WorkerId>, queue: ReadyQueue, clock: Clock.LogicalClock,
        stats: Statistics.StatsCollector)
      requires workerId != "" && NoDup(peers)
      requires Inv(queue.State()) && queue.capacity == QUEUE_CAPACITY
      requires clock.value >= 0.0 && Timely(queue.State(), clock.value)
      ensures this.workerId == workerId && this.queue == queue && this.clock == clock && this.stats == stats
      ensures Valid() && handled == map[] && phase == Idle && serving
      ensures Elems(this.peers) == Elems(peers) - {workerId}
      ensures workerId !in peers ==> this.peers == peers
      ensures forall i :: 0 <= i < |peers| && peers[i] == workerId ==> this.peers == peers[..i] + peers[i + 1..]
    {
      this.workerId := workerId;
      this.peers := Others(peers, workerId);
      this.queue, this.clock, this.stats := queue, clock, stats;
      handled, serving, phase := map[], true, Idle;
      OthersLaw(peers, workerId);
      if workerId !in peers { OthersSame(peers, workerId); }
      forall i | 0 <= i < |peers| && peers[i] == workerId
        ensures Others(peers, workerId) == peers[..i] + peers[i + 1..]
      {
        OthersOrder(peers, workerId, i);
      }
    }

    static function Others(peers: seq<WorkerId>, me: WorkerId): seq<WorkerId> {
      if |peers| == 0 then [] else (if peers[0] == me then [] else [peers[0]]) + Others(peers[1..], me)
    }

    static lemma {:induction false} OthersSame(peers: seq<WorkerId>, me: WorkerId)
      requires me !in peers
      ensures Others(peers, me) == peers
    {
      if |peers| == 0 {
      } else {
        OthersSame(peers[1..], me);
        assert peers == [peers[0]] + peers[1..];
      }
    }

    /** The own id is left out, the order of the rest is kept. */
    static lemma {:induction false} OthersOrder(peers: seq<WorkerId>, me: WorkerId, i: nat)
      requires NoDup(peers) && i < |peers| && peers[i] == me
      ensures Others(peers, me) == peers[..i] + peers[i + 1..]
    {
      var rest := peers[1..];
      if i == 0 {
        OthersSame(rest, me);
        assert [] + rest == rest && peers[..0] + peers[1..] == rest;
      } else {
        assert rest[i - 1] == me;
        OthersOrder(rest, me, i - 1);
        assert peers[..i] == [peers[0]] + rest[..i - 1] && peers[i + 1..] == rest[i..];
        assert [peers[0]] + (rest[..i - 1] + rest[i..]) == ([peers[0]] + rest[..i - 1]) + rest[i..];
      }
    }

    static lemma {:induction false} OthersLaw(peers: seq<WorkerId>, me: WorkerId)
      requires NoDup(peers)
      ensures NoDup(Others(peers, me)) && Elems(Others(peers, me)) == Elems(peers) - {me}
    {
      if |peers| == 0 {
        assert Elems(peers) == {};
      } else {
        OthersLaw(peers[1..], me);
        assert peers[0] !in Elems(peers[1..]);
        assert Elems(peers) == {peers[0]} + Elems(peers[1..]);
        assert Elems([peers[0]] + Others(peers[1..], me)) == {peers[0]} + Elems(Others(peers[1..], me));
        assert [] + Others(peers[1..], me) == Others(peers[1..], me);
        assert peers[0] !in Elems(Others(peers[1..], me));
      }
    }

    // ---- one request ----------------------------------------------------------------------------

    /** The clock after a request: a send costs one unit, a reply is observed. */
    static ghost function ClockAfter(now: real, e: Exchange): real {
      match e
      case NoConnection => now
      case NoReply => now + Clock.COMMUNICATION_DELAY
      case Reply(m) => Clock.Max(now + Clock.COMMUNICATION_DELAY, m.stamp)
    }

    method Request(e: Exchange, rid: RequestId) returns (response: Option<Message>)
      requires e.Reply? ==> e.message.stamp >= 0.0
      modifies clock
      ensures clock.value == ClockAfter(old(clock.value), e) >= old(clock.value)
      ensures response == if e.Reply? && e.message.rid == rid then Some(e.message) else None
      ensures e.NoConnection? ==> clock.value == old(clock.value)
      ensures e.NoReply? ==> clock.value == old(clock.value) + 1.0
      ensures e.Reply? && e.message.stamp > old(clock.value) + 1.0 ==> clock.value == e.message.stamp
      ensures e.Reply? && e.message.stamp <= old(clock.value) + 1.0 ==> clock.value == old(clock.value) + 1.0
    {
      if e.NoConnection? {
        return None;
      }
      var _ := clock.Advance(Clock.COMMUNICATION_DELAY);
      if e.NoReply? {
        return None;
      }
      var _ := clock.Observe(e.message.stamp);
      if e.message.rid != rid {
        return None;
      }
      response := Some(e.message);
    }

    /** Asks every peer in turn and collects the offers. */
    method CollectOffers(probes: seq<Probe>) returns (offers: seq<(int, WorkerId)>)
      requires |probes| == |peers|
      requires forall p <- probes :: p.exchange.Reply? ==> p.exchange.message.stamp >= 0.0
      modifies clock
      ensures clock.value >= old(clock.value)
      ensures forall o :: o in offers <==> Offered(peers, probes, o)
      ensures forall o :: o in offers <==>
                exists i :: 0 <= i < |peers| && peers[i] == o.1 && probes[i].exchange.Reply? && o.0 > 0
                            && probes[i].exchange.message == Message(peers[i], probes[i].rid,
                                                                     probes[i].exchange.message.stamp,
                                                                     StatusResponse(o.0))
    {
      offers := [];
      for i := 0 to |peers|
        invariant clock.value >= old(clock.value)
        invariant forall o :: o in offers <==>
                  exists j :: 0 <= j < i && peers[j] == o.1 && Offer(peers[j], probes[j]) == Some(o.0)
      {
        assert probes[i] in probes;
        var response := Request(probes[i].exchange, probes[i].rid);
        if response.Some? && response.value.body.StatusResponse? && response.value.sender == peers[i] {
          var available := response.value.body.available;
          if available > 0 {
            offers := offers + [(available, peers[i])];
          }
        }
      }
    }

    // ---- balance_once ---------------------------------------------------------------------------

    method ReserveNext(id: TaskId) returns (task: Option<Task>)
      modifies queue
      ensures (queue.State(), task) == QueueSpec.Reserve(old(queue.State()), id)
    {
      task := queue.ReserveForTransfer(id);
    }

    method ReleaseNext(id: TaskId)
      modifies queue
      ensures queue.State() == QueueSpec.Release(old(queue.State()), id).0
    {
      var _ := queue.ReleaseReservation(id);
    }

    method ConfirmNext(id: TaskId)
      modifies queue
      ensures queue.State() == QueueSpec.Confirm(old(queue.State()), id).0
    {
      var _ := queue.ConfirmRemoved(id);
    }

    /** Reserves the candidates that are still there, one by one. */
    method ReserveBatch(peer: WorkerId, candidates: seq<Task>) returns (reserved: seq<Task>, ghost steps: seq<Section>)
      requires phase == Picking(peer, TaskIds(candidates), [])
      modifies queue, this`phase
      ensures (queue.State(), reserved) == ReserveAll(old(queue.State()), TaskIds(candidates), [])
      ensures phase == Picking(peer, [], reserved)
      ensures View() == PerformAll(old(View()), steps)
    {
      ghost var start := View();
      ghost var ids := TaskIds(candidates);
      reserved, steps := [], [];
      assert View() == PerformAll(start, steps);
      hide PerformAll, QueueSpec.Reserve, Pick, ReserveAll, TaskIds;
      for i := 0 to |candidates|
        invariant phase == Picking(peer, ids[i..], reserved)
        invariant ReserveAll(queue.State(), ids[i..], reserved) == ReserveAll(start.q, ids, [])
        invariant View() == PerformAll(start, steps) && handled == start.handled
      {
        TaskIdsAt(candidates, i);
        ghost var before := View();
        PickHere(before);
        ReserveAllNext(before.q, ids[i..], reserved);
        var selected := ReserveNext(candidates[i].id);
        if selected.Some? {
          reserved := reserved + [selected.value];
        }
        phase := Picking(peer, ids[i + 1..], reserved);
        assert ids[i..][1..] == ids[i + 1..];
        assert View() == Pick(before);
        PerformNext(start, steps, Picks);
        steps := steps + [Picks];
      }
      ReserveAllDone(queue.State(), reserved);
      assert ids[|candidates|..] == [];
    }

    static lemma PickHere(n: Node)
      requires n.phase.Picking? && |n.phase.todo| > 0
      ensures var (q, got) := QueueSpec.Reserve(n.q, n.phase.todo[0]);
              Pick(n) == n.(q := q, phase := Picking(n.phase.peer, n.phase.todo[1..],
                            if got.Some? then n.phase.picked + [got.value] else n.phase.picked))
    {
    }

    static lemma ReserveAllNext(q: Queue, ids: seq<TaskId>, got: seq<Task>)
      requires |ids| > 0
      ensures var (r, t) := QueueSpec.Reserve(q, ids[0]);
              ReserveAll(q, ids, got) == ReserveAll(r, ids[1..], if t.Some? then got + [t.value] else got)
    {
    }

    static lemma ReserveAllDone(q: Queue, got: seq<Task>)
      ensures ReserveAll(q, [], got) == (q, got)
    {
    }

    method ReleaseBatch(rid: RequestId, batch: seq<Task>) returns (ghost steps: seq<Section>)
      requires phase == Releasing(rid, batch)
      modifies queue, this`phase
      ensures queue.State() == ReleaseAll(old(queue.State()), batch) && phase == Idle
      ensures View() == PerformAll(old(View()), steps)
    {
      ghost var start := View();
      steps := [];
      for i := 0 to |batch|
        invariant phase == Releasing(rid, batch[i..])
        invariant ReleaseAll(queue.State(), batch[i..]) == ReleaseAll(start.q, batch)
        invariant View() == PerformAll(start, steps) && handled == start.handled
      {
        ghost var before := View();
        hide PerformAll, QueueSpec.Release;
        ReleaseNext(batch[i].id);
        phase := Releasing(rid, batch[i + 1..]);
        assert batch[i..][1..] == batch[i + 1..];
        assert View() == ReleaseOne(before);
        PerformNext(start, steps, Releases);
        steps := steps + [Releases];
      }
      PerformNext(start, steps, Settles);
      phase := Idle;
      steps := steps + [Settles];
    }

    method ConfirmBatch(rid: RequestId, batch: seq<Task>) returns (ghost steps: seq<Section>)
      requires phase == Confirming(rid, batch)
      modifies queue, this`phase
      ensures queue.State() == ConfirmAll(old(queue.State()), batch) && phase == Idle
      ensures View() == PerformAll(old(View()), steps)
    {
      ghost var start := View();
      steps := [];
      for i := 0 to |batch|
        invariant phase == Confirming(rid, batch[i..])
        invariant ConfirmAll(queue.State(), batch[i..]) == ConfirmAll(start.q, batch)
        invariant View() == PerformAll(start, steps) && handled == start.handled
      {
        ghost var before := View();
        hide PerformAll, QueueSpec.Confirm;
        ConfirmNext(batch[i].id);
        phase := Confirming(rid, batch[i + 1..]);
        assert batch[i..][1..] == batch[i + 1..];
        assert View() == ConfirmOne(before);
        PerformNext(start, steps, Confirms);
        steps := steps + [Confirms];
      }
      PerformNext(start, steps, Settles);
      phase := Idle;
      steps := steps + [Settles];
    }

    /**
     * The whole of balance_once with nothing else running. Over the threshold it asks the peers, picks the best
     * offer and at most three tasks, and either hands exactly those over or puts them back in front of their
     * classes; every step of it is one of the sections the cluster proofs interleave.
     */
    method BalanceOnce(probes: seq<Probe>, draw: int, rid: RequestId, reply: Exchange)
      returns (moved: bool, ghost plan: Option<Plan>, ghost steps: seq<Section>)
      requires Valid() && phase == Idle
      requires |probes| == |peers| && 1 <= draw <= MAX_TRANSFER
      requires forall p <- probes :: p.exchange.Reply? ==> p.exchange.message.stamp >= 0.0
      requires reply.Reply? ==> reply.message.stamp >= 0.0
      modifies queue, clock, stats, this`phase
      ensures Valid() && phase == Idle && View() == PerformAll(old(View()), steps)
      ensures plan.None? ==> !moved && queue.State() == old(queue.State()) && stats.State() == old(stats.State())
      ensures plan.Some? <==>
              && 2 * (|old(queue.normal)| + |old(queue.priority)| + |old(queue.reserved)|) > 15
              && exists i, n :: 0 <= i < |peers| && n > 0 && Replied(probes[i], peers[i], StatusResponse(n))
      ensures plan.Some? ==>
                var best := plan.value;
                && (exists i :: 0 <= i < |peers| && peers[i] == best.peer
                                && Replied(probes[i], peers[i], StatusResponse(best.available)))
                && (forall i, n :: 0 <= i < |peers| && n > 0 && Replied(probes[i], peers[i], StatusResponse(n)) ==>
                      best.available > n || (best.available == n && LexLe(best.peer, peers[i])))
                && best.count == (if draw < best.available then draw else best.available)
      ensures plan.Some? ==>
                var best := plan.value;
                var normal := SplitAt(old(queue.normal), best.count);
                var priority := SplitAt(old(queue.priority), best.count - |normal.1|);
                var candidates := normal.1 + priority.1;
                && (moved <==>
                      && |candidates| > 0 && reply.Reply? && reply.message.rid == rid
                      && reply.message.sender == best.peer && reply.message.body.Answer?
                      && reply.message.body.acknowledged == "P2P_TRANSFER" && reply.message.body.ack.accepted
                      && (set id <- reply.message.body.ack.ids) == (set t <- candidates :: t.id))
                && (moved ==>
                      && queue.normal == normal.0 && queue.priority == priority.0
                      && queue.active == old(queue.active) - (set t <- candidates :: t.id)
                      && stats.State() == Statistics.Transfer(old(stats.State()), workerId, best.peer, |candidates|,
                                                              Some("p2p:" + rid)))
                && (!moved ==>
                      && queue.normal == Reverse(normal.1) + normal.0
                      && queue.priority == Reverse(priority.1) + priority.0
                      && queue.active == old(queue.active) && stats.State() == old(stats.State()))
                && queue.reserved == old(queue.reserved)
    {
      hide Inv, Timely, Perform, PerformAll, BestOffer, Offered, Settled, Reverse, Statistics.Transfer;
      hide Agrees, Replied, Peek;
      ghost var before := queue.State();
      moved, plan, steps := BalanceSteps(probes, draw, rid, reply);
      OffersMean(peers, probes);
      if plan.Some? {
        var best := plan.value;
        BestMeans(peers, probes, (best.available, best.peer));
        SettledFields(before, best.count, moved);
        AgreesMeans(reply, best.peer, rid, Peek(before, best.count));
      }
    }

    static lemma AgreesMeans(e: Exchange, peer: WorkerId, rid: RequestId, batch: seq<Task>)
      ensures Agrees(e, peer, rid, batch) <==>
              && e.Reply? && e.message.rid == rid && e.message.sender == peer && e.message.body.Answer?
              && e.message.body.acknowledged == "P2P_TRANSFER" && e.message.body.ack.accepted
              && (set id <- e.message.body.ack.ids) == (set t <- batch :: t.id)
    {
      IdsSet(batch);
      if e.Reply? && e.message.body.Answer? {
        assert (set id <- e.message.body.ack.ids) == Elems(e.message.body.ack.ids);
      }
    }

    static lemma SettledFields(q: Queue, count: nat, moved: bool)
      ensures var n := SplitAt(q.normal, count);
              var p := SplitAt(q.priority, count - |n.1|);
              var r := Settled(q, count, moved);
              && Peek(q, count) == n.1 + p.1
              && (moved ==>
                    r.normal == n.0 && r.priority == p.0 && r.active == q.active - (set t <- Peek(q, count) :: t.id))
              && (!moved ==>
                    r.normal == Reverse(n.1) + n.0 && r.priority == Reverse(p.1) + p.0 && r.active == q.active)
              && r.reserved == q.reserved
    {
      hide Reverse, Ids, Peek;
      IdsSet(Peek(q, count));
    }

    method BalanceSteps(probes: seq<Probe>, draw: int, rid: RequestId, reply: Exchange)
      returns (moved: bool, ghost plan: Option<Plan>, ghost steps: seq<Section>)
      requires Valid() && phase == Idle
      requires |probes| == |peers| && 1 <= draw <= MAX_TRANSFER
      requires forall p <- probes :: p.exchange.Reply? ==> p.exchange.message.stamp >= 0.0
      requires reply.Reply? ==> reply.message.stamp >= 0.0
      modifies queue, clock, stats, this`phase
      ensures Valid() && phase == Idle && View() == PerformAll(old(View()), steps)
      ensures plan.Some? <==>
              2 * old(queue.State()).Size() > OVERLOAD_WAIT_SECONDS && exists o :: Offered(peers, probes, o)
      ensures plan.None? ==> !moved && queue.State() == old(queue.State()) && stats.State() == old(stats.State())
      ensures plan.Some? ==>
                && BestOffer(peers, probes, (plan.value.available, plan.value.peer))
                && plan.value.count == (if draw < plan.value.available then draw else plan.value.available)
                && (moved <==> Peek(old(queue.State()), plan.value.count) != []
                               && Agrees(reply, plan.value.peer, rid, Peek(old(queue.State()), plan.value.count)))
                && queue.State() == Settled(old(queue.State()), plan.value.count, moved)
                && stats.State() == if moved
                   then Statistics.Transfer(old(stats.State()), workerId, plan.value.peer,
                                            |Peek(old(queue.State()), plan.value.count)|, Some("p2p:" + rid))
                   else old(stats.State())
    {
      hide Inv, Timely, Settle, Perform, PerformAll, Offered, Settled, Matches;
      plan, steps := None, [];
      ghost var start := View();
      PerformNone(start);
      var status := queue.SnapshotStatus(workerId);
      if status.value.EstimatedWaitSeconds() <= OVERLOAD_WAIT_SECONDS {
        return false, None, [];
      }
      var offers := CollectOffers(probes);
      Later(queue.State(), old(clock.value), clock.value);
      if |offers| == 0 {
        return false, None, [];
      }
      var best := First(offers);
      assert best in offers;
      OfferPositive(peers, probes, best);
      var count := if draw < best.0 then draw else best.0;
      plan := Some(Plan(best.1, best.0, count));
      var candidates := queue.PeekTransferCandidates(count);
      moved, steps := Attempt(best.1, candidates.value, count, rid, reply);
    }

    /** The second half: reserve, send, and settle one way or the other. */
    method Attempt(peer: WorkerId, candidates: seq<Task>, count: nat, rid: RequestId, reply: Exchange)
      returns (moved: bool, ghost steps: seq<Section>)
      requires Valid() && phase == Idle && 1 <= count <= MAX_TRANSFER && candidates == Peek(queue.State(), count)
      requires reply.Reply? ==> reply.message.stamp >= 0.0
      modifies queue, clock, stats, this`phase
      ensures Valid() && phase == Idle && View() == PerformAll(old(View()), steps)
      ensures moved <==> candidates != [] && Agrees(reply, peer, rid, candidates)
      ensures queue.State() == Settled(old(queue.State()), count, moved)
      ensures stats.State() == if moved
              then Statistics.Transfer(old(stats.State()), workerId, peer, |candidates|, Some("p2p:" + rid))
                               else old(stats.State())
    {
      hide Inv, Timely, Perform, PerformAll, Peek, SplitQueue, ReserveAll, ReleaseAll, ConfirmAll, Ids, Reverse;
      ghost var start := View();
      ghost var before, now := queue.State(), clock.value;
      FailedBalance(before, count);
      CompletedBalance(before, count);
      ReserveAllKeeps(before, TaskIds(candidates), [], now);
      phase := Picking(peer, TaskIds(candidates), []);
      StartsHere(start, peer, count);
      ghost var more;
      var reserved;
      reserved, more := ReserveBatch(peer, candidates);
      assert reserved == candidates;
      PerformConcat(start, [Starts(peer, count)], more);
      steps := [Starts(peer, count)] + more;
      if |reserved| == 0 {
        ReleaseNone(queue.State());
        SettlesHere(View());
        PerformNext(start, steps, Settles);
        phase := Idle;
        return false, steps + [Settles];
      }
      SendsHere(View(), rid);
      PerformNext(start, steps, Sends(rid));
      phase := Waiting(rid, peer, reserved);
      steps := steps + [Sends(rid)];
      ReleaseAllKeeps(queue.State(), reserved, now);
      ConfirmAllKeeps(queue.State(), reserved, now);
      var response := Request(reply, rid);
      Later(ReleaseAll(queue.State(), reserved), now, clock.value);
      Later(ConfirmAll(queue.State(), reserved), now, clock.value);
      moved := response.Some? && response.value.sender == peer && response.value.body.Answer?
               && response.value.body.acknowledged == TRANSFER && Matches(response.value.body.ack, reserved);
      if !moved {
        PerformNext(start, steps, GivesUp);
        AnswersHere(View(), Ack(false, []));
        phase := Releasing(rid, reserved);
        more := ReleaseBatch(rid, reserved);
        PerformConcat(start, steps + [GivesUp], more);
        steps := steps + [GivesUp] + more;
        return;
      }
      PerformNext(start, steps, Agreed(response.value.body.ack));
      AnswersHere(View(), response.value.body.ack);
      phase := Confirming(rid, reserved);
      more := ConfirmBatch(rid, reserved);
      PerformConcat(start, steps + [Agreed(response.value.body.ack)], more);
      steps := steps + [Agreed(response.value.body.ack)] + more;
      var _ := stats.RecordP2PTransfer(workerId, peer, |reserved|, Some("p2p:" + rid));
    }

    // What single sections do, as needed above.

    static lemma StartsHere(n: Node, peer: WorkerId, count: nat)
      requires n.phase == Idle && 1 <= count <= MAX_TRANSFER
      ensures PerformAll(n, [Starts(peer, count)]) == n.(phase := Picking(peer, TaskIds(Peek(n.q, count)), []))
    {
    }

    static lemma SettlesHere(n: Node)
      requires n.phase.Picking? && n.phase.todo == [] && n.phase.picked == []
      ensures Perform(n, Settles) == n.(phase := Idle)
    {
    }

    static lemma SendsHere(n: Node, rid: RequestId)
      requires n.phase.Picking? && n.phase.todo == [] && n.phase.picked != []
      ensures Perform(n, Sends(rid)) == n.(phase := Waiting(rid, n.phase.peer, n.phase.picked))
    {
    }

    static lemma AnswersHere(n: Node, a: Ack)
      requires n.phase.Waiting?
      ensures Perform(n, GivesUp) == n.(phase := Releasing(n.phase.rid, n.phase.batch))
      ensures Matches(a, n.phase.batch) ==> Perform(n, Agreed(a)) == n.(phase := Confirming(n.phase.rid, n.phase.batch))
    {
    }

    static lemma PerformNone(n: Node)
      ensures PerformAll(n, []) == n
    {
    }

    static lemma OfferPositive(peers: seq<WorkerId>, probes: seq<Probe>, o: (int, WorkerId))
      requires |peers| == |probes| && Offered(peers, probes, o)
      ensures o.0 > 0
    {
    }

    /** The queue after a balance: the candidates gone, or each class's candidates reversed in front of it. */
    static ghost function Settled(q: Queue, count: nat, moved: bool): Queue {
      var s := SplitQueue(q, count);
      if moved then q.(normal := s.normal, priority := s.priority, active := q.active - Ids(s.Candidates()))
      else q.(normal := Reverse(s.normalTail) + s.normal, priority := Reverse(s.priorityTail) + s.priority)
    }

    // ---- serving a peer -------------------------------------------------------------------------

    method SendResponse(rid: RequestId, body: Body) returns (m: Message)
      requires clock.value >= 0.0
      modifies clock
      ensures clock.value == old(clock.value) + Clock.COMMUNICATION_DELAY
      ensures m == Message(workerId, rid, clock.value, body)
    {
      var _ := clock.Advance(Clock.COMMUNICATION_DELAY);
      m := Message(workerId, rid, clock.value, body);
    }

    /**
     * One incoming request. A well-formed new transfer from a known peer is one intake of the protocol; a
     * request answered before is answered the same again; everything else leaves queue and answers alone. The server
     * loop goes on unless a record lacks a field: that error it does not catch.
     */
    method HandleConnection(c: Coercions, message: Message) returns (r: Result<Message, Error>)
      requires Valid() && serving && message.stamp >= 0.0
      modifies queue, clock, this`handled, this`serving
      ensures Valid()
      ensures serving <==>
              !((peers == [] || message.sender in peers) && message.rid !in old(handled) &&
                LacksField(c, message.body))
      ensures var now := if message.stamp > old(clock.value) then message.stamp else old(clock.value);
              var known := peers == [] || message.sender in peers;
              var isNew := known && message.rid !in old(handled) && Batch(c, message.body).Some?;
              && View() == (if isNew then Receive(old(View()), message.rid, Batch(c, message.body).value, now)
                 else old(View()))
              && clock.value == (if r.Ok? then now + Clock.COMMUNICATION_DELAY else now)
              && (r.Ok? <==> known
                             && (message.body.StatusRequest? || (message.body.Transfer? && message.rid in handled)))
      ensures r.Ok? ==> r.value == Message(workerId, message.rid, clock.value,
                          if message.body.StatusRequest?
                          then StatusResponse(10 - |queue.normal| - |queue.priority| - |queue.reserved|)
                          else Answer("P2P_TRANSFER", handled[message.rid]))
    {
      hide Inv, Timely, Batch, Receive, LacksField;
      var _ := clock.Observe(message.stamp);
      Later(queue.State(), old(clock.value), clock.value);
      if |peers| > 0 && message.sender !in peers {
        return Err(Invalid);
      }
      r := Respond(c, message);
    }

    /** The same for a request whose sender is known, with the clock already moved on. */
    method Respond(c: Coercions, message: Message) returns (r: Result<Message, Error>)
      requires Valid() && serving
      modifies queue, clock, this`handled, this`serving
      ensures Valid()
      ensures serving <==> !(message.rid !in old(handled) && LacksField(c, message.body))
      ensures View() == if message.rid !in old(handled) && Batch(c, message.body).Some?
                        then Receive(old(View()), message.rid, Batch(c, message.body).value, old(clock.value))
                        else old(View())
      ensures clock.value == if r.Ok? then old(clock.value) + Clock.COMMUNICATION_DELAY else old(clock.value)
      ensures r.Ok? <==> message.body.StatusRequest? || (message.body.Transfer? && message.rid in handled)
      ensures r.Ok? ==> r.value == Message(workerId, message.rid, clock.value,
                          if message.body.StatusRequest?
                          then StatusResponse(10 - |queue.normal| - |queue.priority| - |queue.reserved|)
                          else Answer(TRANSFER, handled[message.rid]))
    {
      hide Inv, Timely, Receive, ParseTasks;
      Later(queue.State(), clock.value, clock.value + Clock.COMMUNICATION_DELAY);
      if message.body.StatusRequest? {
        var status := queue.SnapshotStatus(workerId);
        var m := SendResponse(message.rid, StatusResponse(status.value.AvailableCapacity()));
        return Ok(m);
      }
      if !message.body.Transfer? {
        return Err(Invalid);
      }
      hide Batch, LacksField;
      var ack := HandleTransfer(c, message.rid, message.body);
      if ack.Err? {
        serving := ack.error != Missing;
        return Err(ack.error);
      }
      Later(queue.State(), clock.value, clock.value + Clock.COMMUNICATION_DELAY);
      var m := SendResponse(message.rid, Answer(TRANSFER, ack.value));
      r := Ok(m);
    }

    /** Answers a known request from memory, refuses a malformed one, and takes in a new one. */
    method HandleTransfer(c: Coercions, rid: RequestId, body: Body) returns (r: Result<Ack, Error>)
      requires Inv(queue.State()) && Timely(queue.State(), clock.value) && body.Transfer?
      requires queue.capacity == QUEUE_CAPACITY
      modifies queue, this`handled
      ensures Inv(queue.State()) && Timely(queue.State(), clock.value)
      ensures View() == if rid !in old(handled) && Batch(c, body).Some?
                        then Receive(old(View()), rid, Batch(c, body).value, clock.value)
                        else old(View())
      ensures r.Ok? <==> rid in handled
      ensures r.Ok? ==> r.value == handled[rid]
      ensures r == Err(Missing) <==> rid !in old(handled) && LacksField(c, body)
      ensures rid in old(handled) ==>
                r == Ok(old(handled)[rid]) && handled == old(handled) && queue.State() == old(queue.State())
      ensures rid !in old(handled) ==>
                if body.tasks.Some? && 1 <= |body.tasks.value| <= 3 && ParseTasks(c, body.tasks.value).Ok?
                then r.Ok? && TakenIn(rid, ParseTasks(c, body.tasks.value).value, r.value)
                else r.Err? && handled == old(handled) && queue.State() == old(queue.State())
    {
      hide Inv, Timely, Receive, TaskFromDict, ParseTasks;
      if rid in handled {
        return Ok(handled[rid]);
      }
      var raw := body.tasks;
      if raw.None? || !(1 <= |raw.value| <= MAX_TRANSFER) {
        return Err(Invalid);
      }
      var parsed := ParseTasks(c, raw.value);
      if parsed.Err? {
        return Err(parsed.error);
      }
      ParseLaw(c, raw.value);
      var ack := Take(rid, parsed.value);
      r := Ok(ack);
    }

    method StampAll(received: seq<Task>) returns (tasks: seq<Task>)
      ensures tasks == Stamp(received, clock.value)
      ensures |tasks| == |received|
      ensures forall i :: 0 <= i < |received| ==> tasks[i] == received[i].(enqueuedAt := clock.value)
    {
      hide Stamp;
      tasks := received;
      for i := 0 to |tasks|
        invariant |tasks| == |received|
        invariant forall j :: 0 <= j < |tasks| ==>
                  tasks[j] == if j < i then received[j].(enqueuedAt := clock.value) else received[j]
      {
        var now := clock.Read();
        tasks := tasks[i := tasks[i].(enqueuedAt := now)];
      }
      StampIds(received, clock.value);
    }

    /**
     * The batch was queued, stamped, behind the normal tasks, and the answer names its ids, exactly if no two of them
     * are equal, none is known here, and all fit; otherwise the queue is as it was. Either way the answer is kept.
     */
    twostate predicate TakenIn(rid: RequestId, received: seq<Task>, ack: Ack)
      reads this, queue, clock
    {
      var room := QUEUE_CAPACITY - |old(queue.normal)| - |old(queue.priority)| - |old(queue.reserved)|;
      && (ack.accepted <==>
            && (forall i, j :: 0 <= i < j < |received| ==> received[i].id != received[j].id)
            && (forall t <- received :: t.id !in old(queue.active)) && |received| <= room)
      && handled == old(handled)[rid := ack]
      && (!ack.accepted ==> ack.ids == [] && queue.normal == old(queue.normal) && queue.active == old(queue.active))
      && (ack.accepted ==>
            var n := |old(queue.normal)|;
            && |queue.normal| == n + |received| && queue.normal[..n] == old(queue.normal) && |ack.ids| == |received|
            && (forall i :: 0 <= i < |received| ==>
                  && queue.normal[n + i] == received[i].(enqueuedAt := clock.value)
                  && ack.ids[i] == received[i].id)
            && queue.active == old(queue.active) + (set t <- received :: t.id))
      && queue.priority == old(queue.priority) && queue.reserved == old(queue.reserved)
    }

    /** Stamps the tasks, queues all or none, and remembers the answer. */
    method Take(rid: RequestId, received: seq<Task>) returns (ack: Ack)
      requires Inv(queue.State()) && Timely(queue.State(), clock.value)
      requires rid !in handled && 1 <= |received| <= MAX_TRANSFER && queue.capacity == QUEUE_CAPACITY
      modifies queue, this`handled
      ensures Inv(queue.State()) && Timely(queue.State(), clock.value)
      ensures View() == Receive(old(View()), rid, received, clock.value)
      ensures rid in handled && ack == handled[rid]
      ensures TakenIn(rid, received, ack)
    {
      hide Inv, Timely, QueueSpec.TryEnqueueMany, Stamp, TaskIds, Receive;
      TakenFields(queue.State(), received, clock.value);
      IdsInOrder(received);
      ack := TakeBatch(rid, received);
    }

    /** The same, against the operation on queues. */
    method TakeBatch(rid: RequestId, received: seq<Task>) returns (ack: Ack)
      requires Inv(queue.State()) && Timely(queue.State(), clock.value)
      requires rid !in handled && 1 <= |received| <= MAX_TRANSFER
      modifies queue, this`handled
      ensures Inv(queue.State()) && Timely(queue.State(), clock.value)
      ensures View() == Receive(old(View()), rid, received, clock.value)
      ensures var (r, why) := QueueSpec.TryEnqueueMany(old(queue.State()), Stamp(received, clock.value));
              && queue.State() == r && handled == old(handled)[rid := ack]
              && ack == Ack(why == Admitted, if why == Admitted then TaskIds(received) else [])
    {
      hide Inv, Timely, QueueSpec.TryEnqueueMany, Stamp, Stamped, TaskIds;
      var tasks := StampAll(received);
      StampIds(received, clock.value);
      EnqueueManyInv(queue.State(), tasks);
      AllStamped(tasks, clock.value);
      EnqueueManyTimely(queue.State(), tasks, clock.value);
      StampedTaskIds(received, clock.value);
      var accepted := EnqueueAll(tasks);
      ack := Ack(accepted, if accepted then TaskIds(tasks) else []);
      handled := handled[rid := ack];
    }

    method EnqueueAll(tasks: seq<Task>) returns (accepted: bool)
      modifies queue
      ensures queue.State() == QueueSpec.TryEnqueueMany(old(queue.State()), tasks).0
      ensures accepted == (QueueSpec.TryEnqueueMany(old(queue.State()), tasks).1 == Admitted)
    {
      var result := queue.TryEnqueueMany(tasks);
      accepted := result.accepted;
    }

    static lemma IdsInOrder(ts: seq<Task>)
      ensures forall i :: 0 <= i < |ts| ==> TaskIds(ts)[i] == ts[i].id
    {
      forall i | 0 <= i < |ts| ensures TaskIds(ts)[i] == ts[i].id { TaskIdsAt(ts, i); }
    }

    /** When a stamped batch is taken, and what the queue is then. */
    static lemma TakenFields(q: Queue, ts: seq<Task>, now: real)
      ensures var (r, why) := QueueSpec.TryEnqueueMany(q, Stamp(ts, now));
              && (why == Admitted <==>
                    && (forall i, j :: 0 <= i < j < |ts| ==> ts[i].id != ts[j].id)
                    && (forall t <- ts :: t.id !in q.active)
                    && |ts| <= q.capacity - |q.normal| - |q.priority| - |q.reserved|)
              && (why != Admitted ==> r == q)
              && (why == Admitted ==>
                    && |r.normal| == |q.normal| + |ts| && r.normal[..|q.normal|] == q.normal
                    && (forall i :: 0 <= i < |ts| ==> r.normal[|q.normal| + i] == ts[i].(enqueuedAt := now))
                    && r.active == q.active + (set t <- ts :: t.id)
                    && r.priority == q.priority && r.reserved == q.reserved)
    {
      hide Stamp, Ids, Distinct, QueueSpec.TryEnqueueMany;
      StampIds(ts, now);
      ManyVerdict(q, Stamp(ts, now));
      IdsSet(ts);
      IdsSet(Stamp(ts, now));
      if t :| t in ts && t.id in q.active { StampMember(ts, now, t); }
      if t :| t in Stamp(ts, now) && t.id in q.active {
        var i :| 0 <= i < |ts| && Stamp(ts, now)[i] == t;
        assert ts[i] in ts;
      }
    }

    static lemma StampMember(ts: seq<Task>, now: real, t: Task)
      requires t in ts
      ensures t.(enqueuedAt := now) in Stamp(ts, now)
    {
      hide Stamp;
      StampIds(ts, now);
      var i :| 0 <= i < |ts| && ts[i] == t;
      assert Stamp(ts, now)[i] == t.(enqueuedAt := now);
    }

    static lemma AllStamped(ts: seq<Task>, now: real)
      requires forall j :: 0 <= j < |ts| ==> ts[j].enqueuedAt == now
      ensures Stamped(ts, now)
    {
    }

    static lemma {:induction false} StampedTaskIds(ts: seq<Task>, now: real)
      ensures TaskIds(Stamp(ts, now)) == TaskIds(ts)
    {
      if |ts| == 0 {
      } else {
        StampedTaskIds(ts[1..], now);
        assert Stamp(ts, now)[1..] == Stamp(ts[1..], now);
      }
    }
  }
}
