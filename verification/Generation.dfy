/** generate_tasks (src/kvstore/master/runtime.py): numbered tasks under sampled keys. */
module Generation {
  import opened Basics
  import opened Models

  // ---- zero-padded numerals -------------------------------------------------------------------

  function Digit(d: nat): char
    requires d < 16
  {
    HEX[d]
  }

  function DigitValue(c: char): nat {
    if '0' <= c <= '9' then c as int - '0' as int
    else if 'a' <= c <= 'f' then c as int - 'a' as int + 10
    else 0
  }

  /** The numeral of `n`, at least `width` digits wide. */
  function Numeral(n: nat, base: nat, width: nat): string
    requires 2 <= base <= 16
    decreases n, width
  {
    if n == 0 && width == 0 then ""
    else Numeral(n / base, base, if width == 0 then 0 else width - 1) + [Digit(n % base)]
  }

  function NumeralValue(s: string, base: nat): nat {
    if |s| == 0 then 0 else NumeralValue(s[..|s| - 1], base) * base + DigitValue(s[|s| - 1])
  }

  lemma LastDigit(n: nat, base: nat, width: nat)
    requires 2 <= base <= 16 && (n != 0 || width != 0)
    ensures var s := Numeral(n, base, width);
            && s == Numeral(n / base, base, if width == 0 then 0 else width - 1) + [Digit(n % base)]
            && NumeralValue(s, base) ==
                 NumeralValue(Numeral(n / base, base, if width == 0 then 0 else width - 1), base) * base + n % base
  {
  }

  lemma Recompose(v: nat, n: nat, base: nat)
    requires base > 0 && v == n / base
    ensures v * base + n % base == n
  {
  }

  /** Reading a numeral gives the number back, however wide it was padded: formatting is injective. */
  lemma {:induction false} NumeralRoundTrip(n: nat, base: nat, width: nat)
    requires 2 <= base <= 16
    ensures NumeralValue(Numeral(n, base, width), base) == n
    decreases n, width
  {
    hide Numeral, NumeralValue;
    if n != 0 || width != 0 {
      Smaller(n, base);
      var front := Numeral(n / base, base, if width == 0 then 0 else width - 1);
      NumeralRoundTrip(n / base, base, if width == 0 then 0 else width - 1);
      LastDigit(n, base, width);
      Recompose(NumeralValue(front, base), n, base);
    } else {
      EmptyNumeral(base);
    }
  }

  lemma EmptyNumeral(base: nat)
    requires 2 <= base <= 16
    ensures NumeralValue(Numeral(0, base, 0), base) == 0
  {
  }

  lemma Smaller(n: nat, base: nat)
    requires 2 <= base
    ensures n / base <= n && (n > 0 ==> n / base < n)
  {
  }

  /** Only digits, and at least `width` of them. */
  lemma {:induction false} NumeralDigits(n: nat, base: nat, width: nat)
    requires 2 <= base <= 16
    ensures |Numeral(n, base, width)| >= width && forall c :: c in Numeral(n, base, width) ==> c in HEX
    decreases n, width
  {
    if n != 0 || width != 0 {
      Smaller(n, base);
      NumeralDigits(n / base, base, if width == 0 then 0 else width - 1);
      LastDigit(n, base, width);
      hide Numeral, NumeralValue;
    }
  }

  /** Small numbers are padded to the width. */
  lemma {:induction false} NumeralWidth(n: nat, base: nat, width: nat)
    requires 2 <= base <= 16 && n < Power(base, width)
    ensures |Numeral(n, base, width)| == width
    ensures forall c :: c in Numeral(n, base, width) ==> c in HEX
  {
    if width == 0 {
    } else {
      FewerDigits(n, base, Power(base, width - 1));
      NumeralWidth(n / base, base, width - 1);
    }
  }

  lemma FewerDigits(n: nat, base: nat, p: nat)
    requires base >= 2
    ensures n < base * p <==> n / base < p
  {
    assert n == n / base * base + n % base;
    if n / base < p { assert (n / base + 1) * base <= p * base; }
    if n / base >= p { assert n / base * base >= p * base; }
  }

  /** Large ones are not padded. */
  lemma {:induction false} NumeralUnpadded(n: nat, base: nat, width: nat)
    requires 2 <= base <= 16 && n >= Power(base, width)
    ensures Numeral(n, base, width) == Numeral(n, base, width + 1)
  {
    if width == 0 {
    } else {
      FewerDigits(n, base, Power(base, width - 1));
      NumeralUnpadded(n / base, base, width - 1);
    }
  }

  function Power(base: nat, width: nat): nat {
    if width == 0 then 1 else base * Power(base, width - 1)
  }

  // ---- the tasks ------------------------------------------------------------------------------

  /** f"{key:04x}" */
  function KeyName(key: nat): string {
    Numeral(key, 16, 4)
  }

  /** f"task-{index:04d}" */
  function TaskName(index: nat): string {
    "task-" + Numeral(index, 10, 4)
  }

  /** What random.sample(range(65536), count) and count draws of randint(1, 100) promise. */
  ghost predicate Drawn(count: int, keys: seq<nat>, values: seq<int>) {
    && |keys| == |values| == count
    && NoDup(keys)
    && (forall i :: 0 <= i < |keys| ==> keys[i] < MAX_KEYS)
    && (forall i :: 0 <= i < |values| ==> 1 <= values[i] <= 100)
  }

  function Numbered(keys: seq<nat>, values: seq<int>): seq<Task>
    requires |keys| == |values|
  {
    seq(|keys|, i requires 0 <= i < |keys| => Task(TaskName(i + 1), KeyName(keys[i]), values[i], 0, None, None, 0.0))
  }

  function GenerateTasks(count: int, keys: seq<nat>, values: seq<int>): Result<seq<Task>, Error>
    requires |keys| == |values|
  {
    if !(1 <= count <= MAX_KEYS) then Err(Invalid) else Ok(Numbered(keys, values))
  }

  /** Fresh tasks under pairwise different ids and keys. */
  ghost predicate Generated(ts: seq<Task>) {
    && (forall i :: 0 <= i < |ts| ==> ts[i].attempt == 0 && ts[i].previous.None?)
    && (forall i, j :: 0 <= i < j < |ts| ==> ts[i].id != ts[j].id && ts[i].key != ts[j].key)
  }

  lemma KeyNameLaw(key: nat)
    requires key < MAX_KEYS
    ensures |KeyName(key)| == 4 && (forall c :: c in KeyName(key) ==> '0' <= c <= '9' || 'a' <= c <= 'f')
    ensures IsKey(KeyName(key)) && NumeralValue(KeyName(key), 16) == key
  {
    assert Power(16, 4) == 65536 by { assert Power(16, 2) == 256; }
    NumeralWidth(key, 16, 4);
    NumeralRoundTrip(key, 16, 4);
    assert forall i :: 0 <= i < 4 ==> KeyName(key)[i] in KeyName(key);
  }

  lemma TaskNameLaw(index: nat)
    ensures |TaskName(index)| > 5 && TaskName(index)[..5] == "task-" && NumeralValue(TaskName(index)[5..], 10) == index
    ensures index < 10000 ==> |TaskName(index)| == 9
    ensures 10000 <= index < 100000 ==> |TaskName(index)| == 10
  {
    NumeralRoundTrip(index, 10, 4);
    assert |Numeral(index, 10, 4)| > 0;
    assert TaskName(index)[5..] == Numeral(index, 10, 4);
    assert Power(10, 4) == 10000 && Power(10, 5) == 100000 by { assert Power(10, 2) == 100 && Power(10, 3) == 1000; }
    if index < 10000 { NumeralWidth(index, 10, 4); }
    else if index < 100000 { NumeralUnpadded(index, 10, 4); NumeralWidth(index, 10, 5); }
  }

  lemma NumberedValid(keys: seq<nat>, values: seq<int>, i: nat)
    requires i < |keys| == |values| && keys[i] < MAX_KEYS && 1 <= values[i] <= 100
    ensures ValidTask(Numbered(keys, values)[i])
  {
    hide TaskName, KeyName, IsKey, Numeral;
    KeyNameLaw(keys[i]);
    TaskNameLaw(i + 1);
  }

  lemma NamesApart(i: nat, j: nat)
    requires i != j
    ensures TaskName(i) != TaskName(j)
    ensures i < MAX_KEYS && j < MAX_KEYS ==> KeyName(i) != KeyName(j)
  {
    hide TaskName, KeyName, IsKey, Numeral;
    TaskNameLaw(i);
    TaskNameLaw(j);
    if i < MAX_KEYS && j < MAX_KEYS {
      KeyNameLaw(i);
      KeyNameLaw(j);
    }
  }

  /** The task made from the draw at `i`: its number, its key and its value can be read off, and it is fresh. */
  lemma NumberedReads(keys: seq<nat>, values: seq<int>, i: nat)
    requires i < |keys| == |values| && keys[i] < MAX_KEYS
    ensures var t := Numbered(keys, values)[i];
            && t.value == values[i] && |t.key| == 4 && NumeralValue(t.key, 16) == keys[i]
            && |t.id| > 5 && t.id[..5] == "task-" && NumeralValue(t.id[5..], 10) == i + 1
            && (i + 1 < 10000 ==> |t.id| == 9) && (10000 <= i + 1 < 100000 ==> |t.id| == 10)
            && t.attempt == 0 && t.previous.None? && t.assignment.None? && t.enqueuedAt == 0.0
  {
    hide TaskName, KeyName, IsKey, NumeralValue;
    KeyNameLaw(keys[i]);
    TaskNameLaw(i + 1);
  }

  /**
   * Every draw yields `count` valid tasks whose ids and keys are pairwise different; task `i` has the key and the
   * value of draw `i` and the number `i` + 1. Other counts are refused.
   */
  lemma GeneratedLaw(count: int, keys: seq<nat>, values: seq<int>)
    requires |keys| == |values| && Drawn(count, keys, values)
    ensures GenerateTasks(count, keys, values).Ok? <==> 1 <= count <= 65536
    ensures var r := GenerateTasks(count, keys, values);
            r.Ok? ==>
              && |r.value| == count && Generated(r.value)
              && forall i :: 0 <= i < count ==>
                   && ValidTask(r.value[i])
                   && r.value[i].value == values[i]
                   && |r.value[i].key| == 4 && NumeralValue(r.value[i].key, 16) == keys[i]
                   && |r.value[i].id| > 5 && r.value[i].id[..5] == "task-"
                   && NumeralValue(r.value[i].id[5..], 10) == i + 1
                   && (i + 1 < 10000 ==> |r.value[i].id| == 9) && (10000 <= i + 1 ==> |r.value[i].id| == 10)
                   && r.value[i].attempt == 0 && r.value[i].previous.None? && r.value[i].assignment.None?
                   && r.value[i].enqueuedAt == 0.0
  {
    hide TaskName, KeyName, ValidTask, NumeralValue;
    var ts := Numbered(keys, values);
    forall i | 0 <= i < |ts| ensures ValidTask(ts[i]) {
      NumberedValid(keys, values, i);
    }
    forall i | 0 <= i < |ts|
      ensures ts[i].value == values[i] && |ts[i].key| == 4 && NumeralValue(ts[i].key, 16) == keys[i]
      ensures |ts[i].id| > 5 && ts[i].id[..5] == "task-" && NumeralValue(ts[i].id[5..], 10) == i + 1
      ensures (i + 1 < 10000 ==> |ts[i].id| == 9) && (10000 <= i + 1 < 100000 ==> |ts[i].id| == 10)
    {
      NumberedReads(keys, values, i);
    }
    forall i, j | 0 <= i < j < |ts| ensures ts[i].id != ts[j].id && ts[i].key != ts[j].key {
      NamesApart(i + 1, j + 1);
      NamesApart(keys[i], keys[j]);
    }
  }
}
