/** The logical clock (src/kvstore/common/clock.py): advances add, observations take the maximum. Time is `real`. */
module Clock {
  import opened Basics

  const COMMUNICATION_DELAY: real := 1.0

  datatype Tick = Advance(d: real) | Observe(remote: real)

  /** The source refuses negative durations and negative remote values, and then changes nothing. */
  predicate Refused(t: Tick) {
    match t
    case Advance(d) => d < 0.0
    case Observe(remote) => remote < 0.0
  }

  function Max(a: real, b: real): real {
    if a < b then b else a
  }

  function After(value: real, t: Tick): real {
    if Refused(t) then value else
      match t
      case Advance(d) => value + d
      case Observe(remote) => Max(value, remote)
  }

  function Run(value: real, ticks: seq<Tick>): real
    decreases |ticks|
  {
    if |ticks| == 0 then value else Run(After(value, ticks[0]), ticks[1..])
  }

  /** All that is ever added. */
  function Added(ticks: seq<Tick>): real
    decreases |ticks|
  {
    if |ticks| == 0 then 0.0
    else (if ticks[0].Advance? && !Refused(ticks[0]) then ticks[0].d else 0.0) + Added(ticks[1..])
  }

  /** The value that reaches the end from the observation at position `i`. */
  function Carried(ticks: seq<Tick>, i: nat): real
    requires i < |ticks| && ticks[i].Observe?
  {
    ticks[i].remote + Added(ticks[i + 1..])
  }

  lemma {:induction false} AddedGrows(ticks: seq<Tick>)
    ensures Added(ticks) >= 0.0
    decreases |ticks|
  {
    if |ticks| == 0 {
    } else {
      AddedGrows(ticks[1..]);
    }
  }

  /**
   * Closed form: the clock ends at the largest of its start plus everything added, and each accepted
   * observation plus everything added after it.
   */
  lemma {:induction false} ClosedForm(value: real, ticks: seq<Tick>)
    ensures var final := Run(value, ticks);
            && final >= value + Added(ticks)
            && (forall i :: 0 <= i < |ticks| && ticks[i].Observe? && !Refused(ticks[i]) ==> final >= Carried(ticks, i))
            && (final == value + Added(ticks)
                || exists i :: 0 <= i < |ticks| && ticks[i].Observe? && !Refused(ticks[i]) &&
                    final == Carried(ticks, i))
    decreases |ticks|
  {
    if |ticks| == 0 {
    } else {
      var next := After(value, ticks[0]);
      var rest := ticks[1..];
      ClosedForm(next, rest);
      forall i | 0 <= i < |rest| && rest[i].Observe? ensures Carried(rest, i) == Carried(ticks, i + 1) {
        assert rest[i + 1..] == ticks[i + 2..];
      }
      assert ticks[0].Observe? ==> Carried(ticks, 0) == ticks[0].remote + Added(rest);
      if Run(next, rest) != next + Added(rest) {
        var i :| 0 <= i < |rest| && rest[i].Observe? && !Refused(rest[i]) && Run(next, rest) == Carried(rest, i);
        assert Run(value, ticks) == Carried(ticks, i + 1);
      }
    }
  }

  lemma Monotone(value: real, ticks: seq<Tick>)
    ensures Run(value, ticks) >= value
  {
    ClosedForm(value, ticks);
    AddedGrows(ticks);
  }

  lemma {:induction false} RunConcat(value: real, a: seq<Tick>, b: seq<Tick>)
    ensures Run(value, a + b) == Run(Run(value, a), b)
    decreases |a|
  {
    if |a| == 0 {
      assert a + b == b;
    } else {
      assert (a + b)[1..] == a[1..] + b;
      RunConcat(After(value, a[0]), a[1..], b);
    }
  }

  // ---- messages -------------------------------------------------------------------------------

  /**
   * One hop of a causal chain: local ticks, then a send; the next node, wherever its clock stands, observes the
   * stamp.
   */
  datatype Hop = Hop(ticks: seq<Tick>, receiver: real)

  function Sent(value: real, hop: Hop): real {
    After(Run(value, hop.ticks), Advance(COMMUNICATION_DELAY))
  }

  /** The clock at the end of the chain. */
  function Chain(value: real, hops: seq<Hop>): real
    decreases |hops|
  {
    if |hops| == 0 then value else Chain(After(hops[0].receiver, Observe(Sent(value, hops[0]))), hops[1..])
  }

  /** Each send along a causal chain costs one unit: k sends raise the clock by at least k. */
  lemma {:induction false} ChainCosts(value: real, hops: seq<Hop>)
    requires value >= 0.0
    ensures Chain(value, hops) >= value + (|hops| as real) * COMMUNICATION_DELAY
    decreases |hops|
  {
    if |hops| == 0 {
    } else {
      Monotone(value, hops[0].ticks);
      ChainCosts(After(hops[0].receiver, Observe(Sent(value, hops[0]))), hops[1..]);
    }
  }

  class LogicalClock {
    var value: real

    constructor (initial: real)
      requires initial >= 0.0
      ensures value == initial
    {
      value := initial;
    }

    /** The source's constructor raises on a negative start. */
    static method Create(initial: real) returns (r: Result<LogicalClock, string>)
      ensures r.Ok? <==> initial >= 0.0
      ensures r.Ok? ==> fresh(r.value) && r.value.value == initial
    {
      if initial < 0.0 {
        return Err("initial clock value must be non-negative");
      }
      var clock := new LogicalClock(initial);
      r := Ok(clock);
    }

    method Read() returns (now: real)
      ensures now == value
    {
      now := value;
    }

    method Advance(seconds: real) returns (r: Result<real, string>)
      modifies this
      ensures value == After(old(value), Tick.Advance(seconds)) >= old(value)
      ensures value == if seconds >= 0.0 then old(value) + seconds else old(value)
      ensures r.Ok? <==> seconds >= 0.0
      ensures r.Ok? ==> r.value == value
    {
      if seconds < 0.0 {
        return Err("clock cannot advance by a negative duration");
      }
      value := value + seconds;
      r := Ok(value);
    }

    method Observe(remote: real) returns (r: Result<real, string>)
      modifies this
      ensures value == After(old(value), Tick.Observe(remote)) >= old(value)
      ensures value == if remote >= 0.0 && remote > old(value) then remote else old(value)
      ensures r.Ok? <==> remote >= 0.0
      ensures r.Ok? ==> r.value == value && value >= remote
    {
      if remote < 0.0 {
        return Err("remote clock value must be non-negative");
      }
      value := if value < remote then remote else value;
      r := Ok(value);
    }

    method Reset()
      modifies this
      ensures value == 0.0
    {
      value := 0.0;
    }
  }
}
