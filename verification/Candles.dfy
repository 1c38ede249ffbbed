/** One-minute candles built tick by tick, and what they mean: the open, highest, lowest and last of
    the ticks of each instrument and minute. */
module Candles {
  import opened Trading

  const MINUTE := 60000

  /** Times in milliseconds. */
  datatype Candle = Candle(at: int, open: real, high: real, low: real, close: real, volume: int)

  datatype Tick = Tick(key: Key, price: Option<real>, time: Option<int>, bar: Option<Candle>)

  function MinuteOf(time: int): int { time - time % MINUTE }

  /** A tick with a price and a trade time; indices often send neither. */
  predicate IsPriceTick(t: Tick) { t.price.Some? && t.price.value > 0.0 && t.time.Some? && t.time.value > 0 }

  type PriceTick = t: Tick | IsPriceTick(t) witness Tick("", Some(1.0), Some(1), None)

  function BucketOf(t: PriceTick): int { MinuteOf(t.time.value) }

  /** The bar the exchange sent along, if it is of the tick's own minute. */
  function Supplied(t: PriceTick): Option<Candle> {
    if t.bar.Some? && MinuteOf(t.bar.value.at) == BucketOf(t) then t.bar else None
  }

  // ---- building ----------------------------------------------------------------------------------

  /** `merge_live_one_minute_candle`. */
  function Merged(previous: Option<Candle>, t: Tick): Option<Candle> {
    if !IsPriceTick(t) then (if t.bar.Some? then t.bar else previous)
    else
      var price, bucket, supplied := t.price.value, BucketOf(t), Supplied(t);
      if previous.Some? && previous.value.at == bucket then
        var c := previous.value;
        Some(Candle(c.at, c.open,
                    MaxReal(MaxReal(c.high, if supplied.Some? then supplied.value.high else price), price),
                    MinReal(MinReal(c.low, if supplied.Some? then supplied.value.low else price), price),
                    price,
                    Max(c.volume, if supplied.Some? then supplied.value.volume else 0)))
      else if supplied.Some? then
        Some(Candle(bucket, supplied.value.open, MaxReal(supplied.value.high, price), MinReal(supplied.value.low, price), price, supplied.value.volume))
      else
        Some(Candle(bucket, price, price, price, price, 0))
  }

  /** The candles in progress and those reported as completed, oldest first. */
  datatype Built = Built(current: map<Key, Candle>, completed: seq<(Key, Candle)>)

  function Handle(b: Built, t: Tick): Built {
    var previous := if t.key in b.current then Some(b.current[t.key]) else None;
    var updated := Merged(previous, t);
    if updated.None? then b
    else Built(b.current[t.key := updated.value],
               if previous.Some? && previous.value.at != updated.value.at then b.completed + [(t.key, previous.value)] else b.completed)
  }

  function HandleAll(b: Built, ticks: seq<Tick>): Built {
    if ticks == [] then b else Handle(HandleAll(b, ticks[..|ticks| - 1]), ticks[|ticks| - 1])
  }

  const NOTHING := Built(map[], [])

  class LiveCandleBuilder {
    var current: map<Key, Candle>
    var completed: seq<(Key, Candle)>

    ghost function Now(): Built
      reads this
    {
      Built(current, completed)
    }

    constructor ()
      ensures Now() == NOTHING
    {
      current, completed := map[], [];
    }

    method HandleTick(t: Tick) returns (updated: Option<Candle>)
      modifies this
      ensures Now() == Handle(old(Now()), t)
      ensures updated.Some? ==> t.key in current && current[t.key] == updated.value
      ensures updated.None? ==> Now() == old(Now()) && t.key !in current
    {
      var previous := if t.key in current then Some(current[t.key]) else None;
      updated := Merged(previous, t);
      if updated.None? {
        return;
      }
      if previous.Some? && previous.value.at != updated.value.at {
        completed := completed + [(t.key, previous.value)];
      }
      current := current[t.key := updated.value];
    }

    method Clear(key: Key)
      modifies this
      ensures current == old(current) - {key} && completed == old(completed)
    {
      current := current - {key};
    }
  }

  // ---- always well formed ----------------------------------------------------------------------------

  predicate WellFormed(c: Candle) { c.low <= c.open <= c.high && c.low <= c.close <= c.high }

  predicate BarsWellFormed(ticks: seq<Tick>) { forall i :: 0 <= i < |ticks| && ticks[i].bar.Some? ==> WellFormed(ticks[i].bar.value) }

  ghost predicate AllWellFormed(b: Built) {
    && (forall k :: k in b.current ==> WellFormed(b.current[k]))
    && (forall i :: 0 <= i < |b.completed| ==> WellFormed(b.completed[i].1))
  }

  lemma HandleWellFormed(b: Built, t: Tick)
    requires AllWellFormed(b) && (t.bar.Some? ==> WellFormed(t.bar.value))
    ensures AllWellFormed(Handle(b, t))
  {
  }

  /** Whatever ticks come, priced or not, in any order: if the supplied bars are well formed so is every
      candle, current and completed. */
  lemma {:induction false} AlwaysWellFormed(ticks: seq<Tick>)
    requires BarsWellFormed(ticks)
    ensures AllWellFormed(HandleAll(NOTHING, ticks))
  {
    if ticks != [] {
      var front, t := ticks[..|ticks| - 1], ticks[|ticks| - 1];
      assert BarsWellFormed(front);
      AlwaysWellFormed(front);
      assert t.bar.Some? ==> WellFormed(ticks[|ticks| - 1].bar.value);
      HandleWellFormed(HandleAll(NOTHING, front), t);
    }
  }

  // ---- the bars of a sequence of ticks ------------------------------------------------------------------

  /** What one tick says of the highest and the lowest price, and of the volume, of its minute. */
  function TickHigh(t: PriceTick): real {
    if Supplied(t).Some? then MaxReal(Supplied(t).value.high, t.price.value) else t.price.value
  }

  function TickLow(t: PriceTick): real {
    if Supplied(t).Some? then MinReal(Supplied(t).value.low, t.price.value) else t.price.value
  }

  function TickOpen(t: PriceTick): real {
    if Supplied(t).Some? then Supplied(t).value.open else t.price.value
  }

  function TickVolume(t: PriceTick): int {
    if Supplied(t).Some? then Supplied(t).value.volume else 0
  }

  function Highest(ticks: seq<PriceTick>): real
    requires ticks != []
  {
    if |ticks| == 1 then TickHigh(ticks[0]) else MaxReal(Highest(ticks[..|ticks| - 1]), TickHigh(ticks[|ticks| - 1]))
  }

  function Lowest(ticks: seq<PriceTick>): real
    requires ticks != []
  {
    if |ticks| == 1 then TickLow(ticks[0]) else MinReal(Lowest(ticks[..|ticks| - 1]), TickLow(ticks[|ticks| - 1]))
  }

  function Busiest(ticks: seq<PriceTick>): int
    requires ticks != []
  {
    if |ticks| == 1 then TickVolume(ticks[0]) else Max(Busiest(ticks[..|ticks| - 1]), TickVolume(ticks[|ticks| - 1]))
  }

  /** The bar of some ticks: first, highest, lowest, last. */
  function BarOf(at: int, ticks: seq<PriceTick>): Candle
    requires ticks != []
  {
    Candle(at, TickOpen(ticks[0]), Highest(ticks), Lowest(ticks), ticks[|ticks| - 1].price.value, Busiest(ticks))
  }

  /** Highest and lowest are just that. */
  lemma {:induction false} HighestIsHighest(ticks: seq<PriceTick>)
    requires ticks != []
    ensures forall i :: 0 <= i < |ticks| ==> Lowest(ticks) <= TickLow(ticks[i]) && TickHigh(ticks[i]) <= Highest(ticks)
    ensures exists i :: 0 <= i < |ticks| && TickHigh(ticks[i]) == Highest(ticks)
    ensures exists i :: 0 <= i < |ticks| && TickLow(ticks[i]) == Lowest(ticks)
  {
    if |ticks| == 1 {
      assert TickHigh(ticks[0]) == Highest(ticks) && TickLow(ticks[0]) == Lowest(ticks);
    } else {
      var front, last := ticks[..|ticks| - 1], |ticks| - 1;
      HighestIsHighest(front);
      var i :| 0 <= i < |front| && TickHigh(front[i]) == Highest(front);
      var j :| 0 <= j < |front| && TickLow(front[j]) == Lowest(front);
      assert TickHigh(ticks[if TickHigh(ticks[last]) > Highest(front) then last else i]) == Highest(ticks);
      assert TickLow(ticks[if TickLow(ticks[last]) < Lowest(front) then last else j]) == Lowest(ticks);
      forall m | 0 <= m < |ticks| ensures Lowest(ticks) <= TickLow(ticks[m]) && TickHigh(ticks[m]) <= Highest(ticks) {
        if m < last { assert front[m] == ticks[m]; }
      }
    }
  }

  function TicksOf(ticks: seq<PriceTick>, k: Key): seq<PriceTick> {
    if ticks == [] then []
    else TicksOf(ticks[..|ticks| - 1], k) + if ticks[|ticks| - 1].key == k then [ticks[|ticks| - 1]] else []
  }

  type Group = g: seq<PriceTick> | g != [] witness [Tick("", Some(1.0), Some(1), None)]

  /** The ticks cut where the bucket changes. */
  function Groups(ticks: seq<PriceTick>, bucket: int -> int): seq<Group> {
    if ticks == [] then [] else Pushed(Groups(ticks[..|ticks| - 1], bucket), ticks[|ticks| - 1], bucket)
  }

  function KeyOf(group: Group, bucket: int -> int): int { bucket(BucketOf(group[0])) }

  function Pushed(groups: seq<Group>, t: PriceTick, bucket: int -> int): seq<Group> {
    if groups != [] && KeyOf(groups[|groups| - 1], bucket) == bucket(BucketOf(t))
    then groups[..|groups| - 1] + [groups[|groups| - 1] + [t]]
    else groups + [[t]]
  }

  function BarsOf(groups: seq<Group>, bucket: int -> int): seq<Candle> {
    seq(|groups|, i requires 0 <= i < |groups| => BarOf(KeyOf(groups[i], bucket), groups[i]))
  }

  /** The bars of one instrument's ticks, a bucket being a whole number of minutes. */
  function BarsBy(ticks: seq<PriceTick>, bucket: int -> int): seq<Candle> {
    BarsOf(Groups(ticks, bucket), bucket)
  }

  function Same(at: int): int { at }

  /** The one-minute bars. */
  function Bars(ticks: seq<PriceTick>): seq<Candle> { BarsBy(ticks, Same) }

  function Where(ticks: seq<PriceTick>, bucket: int -> int, at: int): seq<PriceTick> {
    if ticks == [] then []
    else Where(ticks[..|ticks| - 1], bucket, at) + if bucket(BucketOf(ticks[|ticks| - 1])) == at then [ticks[|ticks| - 1]] else []
  }

  predicate Ascending(ticks: seq<PriceTick>, bucket: int -> int) {
    forall i, j :: 0 <= i < j < |ticks| ==> bucket(BucketOf(ticks[i])) <= bucket(BucketOf(ticks[j]))
  }

  /** The groups are the buckets that occur, in order, each with all its ticks. */
  ghost predicate GroupsAre(ticks: seq<PriceTick>, bucket: int -> int, groups: seq<Group>) {
    && (forall i :: 0 <= i < |groups| ==> groups[i] == Where(ticks, bucket, KeyOf(groups[i], bucket)))
    && (forall i, j :: 0 <= i < j < |groups| ==> KeyOf(groups[i], bucket) < KeyOf(groups[j], bucket))
    && (forall at :: Where(ticks, bucket, at) == [] || exists i :: 0 <= i < |groups| && KeyOf(groups[i], bucket) == at)
  }

  lemma WhereMore(ticks: seq<PriceTick>, t: PriceTick, bucket: int -> int, at: int)
    ensures Where(ticks + [t], bucket, at) == Where(ticks, bucket, at) + if bucket(BucketOf(t)) == at then [t] else []
  {
  }

  lemma PushedKeys(groups: seq<Group>, t: PriceTick, bucket: int -> int)
    ensures var longer := Pushed(groups, t, bucket);
            && |groups| <= |longer| <= |groups| + 1 && longer != []
            && KeyOf(longer[|longer| - 1], bucket) == bucket(BucketOf(t))
            && (forall i :: 0 <= i < |longer| - 1 ==> longer[i] == groups[i])
            && (forall i :: 0 <= i < |groups| ==> KeyOf(longer[i], bucket) == KeyOf(groups[i], bucket))
  {
  }

  /** A tick no earlier than all before it goes to the last group or starts a new one. */
  lemma PushedAre(front: seq<PriceTick>, t: PriceTick, bucket: int -> int, groups: seq<Group>)
    requires GroupsAre(front, bucket, groups) && forall i :: 0 <= i < |groups| ==> KeyOf(groups[i], bucket) <= bucket(BucketOf(t))
    ensures GroupsAre(front + [t], bucket, Pushed(groups, t, bucket))
  {
    var longer := Pushed(groups, t, bucket);
    PushedKeys(groups, t, bucket);
    PushedHold(front, t, bucket, groups);
    PushedRise(front, t, bucket, groups);
    forall b | Where(front + [t], bucket, b) != [] ensures exists i :: 0 <= i < |longer| && KeyOf(longer[i], bucket) == b {
      PushedCovers(front, t, bucket, groups, b);
    }
  }

  lemma PushedHold(front: seq<PriceTick>, t: PriceTick, bucket: int -> int, groups: seq<Group>)
    requires GroupsAre(front, bucket, groups) && forall i :: 0 <= i < |groups| ==> KeyOf(groups[i], bucket) <= bucket(BucketOf(t))
    ensures var longer := Pushed(groups, t, bucket);
            forall i :: 0 <= i < |longer| ==> longer[i] == Where(front + [t], bucket, KeyOf(longer[i], bucket))
  {
    var longer := Pushed(groups, t, bucket);
    PushedKeys(groups, t, bucket);
    PushedLast(front, t, bucket, groups);
    forall i | 0 <= i < |longer| ensures longer[i] == Where(front + [t], bucket, KeyOf(longer[i], bucket)) {
      if i < |longer| - 1 { PushedBefore(front, t, bucket, groups, i); }
    }
  }

  lemma PushedRise(front: seq<PriceTick>, t: PriceTick, bucket: int -> int, groups: seq<Group>)
    requires GroupsAre(front, bucket, groups) && forall i :: 0 <= i < |groups| ==> KeyOf(groups[i], bucket) <= bucket(BucketOf(t))
    ensures var longer := Pushed(groups, t, bucket);
            forall i, j :: 0 <= i < j < |longer| ==> KeyOf(longer[i], bucket) < KeyOf(longer[j], bucket)
  {
    var longer := Pushed(groups, t, bucket);
    PushedKeys(groups, t, bucket);
    forall i, j | 0 <= i < j < |longer| ensures KeyOf(longer[i], bucket) < KeyOf(longer[j], bucket) {
      PushedBefore(front, t, bucket, groups, i);
      if j < |longer| - 1 { PushedBefore(front, t, bucket, groups, j); }
    }
  }

  lemma PushedCovers(front: seq<PriceTick>, t: PriceTick, bucket: int -> int, groups: seq<Group>, b: int)
    requires GroupsAre(front, bucket, groups) && Where(front + [t], bucket, b) != []
    ensures exists i :: 0 <= i < |Pushed(groups, t, bucket)| && KeyOf(Pushed(groups, t, bucket)[i], bucket) == b
  {
    var longer := Pushed(groups, t, bucket);
    PushedKeys(groups, t, bucket);
    WhereMore(front, t, bucket, b);
    if b == bucket(BucketOf(t)) {
      assert KeyOf(longer[|longer| - 1], bucket) == b;
    } else {
      var i :| 0 <= i < |groups| && KeyOf(groups[i], bucket) == b;
      assert KeyOf(longer[i], bucket) == b;
    }
  }

  lemma PushedLast(front: seq<PriceTick>, t: PriceTick, bucket: int -> int, groups: seq<Group>)
    requires GroupsAre(front, bucket, groups) && forall i :: 0 <= i < |groups| ==> KeyOf(groups[i], bucket) <= bucket(BucketOf(t))
    ensures var longer := Pushed(groups, t, bucket);
            longer != [] && longer[|longer| - 1] == Where(front + [t], bucket, bucket(BucketOf(t)))
  {
    var at := bucket(BucketOf(t));
    WhereMore(front, t, bucket, at);
    if groups == [] || KeyOf(groups[|groups| - 1], bucket) != at {
      forall i | 0 <= i < |groups| ensures KeyOf(groups[i], bucket) != at {
        if i < |groups| - 1 { assert KeyOf(groups[i], bucket) < KeyOf(groups[|groups| - 1], bucket); }
      }
      assert Where(front, bucket, at) == [];
    }
  }

  lemma PushedBefore(front: seq<PriceTick>, t: PriceTick, bucket: int -> int, groups: seq<Group>, i: nat)
    requires GroupsAre(front, bucket, groups) && forall i :: 0 <= i < |groups| ==> KeyOf(groups[i], bucket) <= bucket(BucketOf(t))
    requires i < |Pushed(groups, t, bucket)| - 1
    ensures i < |groups| && Pushed(groups, t, bucket)[i] == groups[i] && KeyOf(groups[i], bucket) < bucket(BucketOf(t))
    ensures groups[i] == Where(front + [t], bucket, KeyOf(groups[i], bucket))
  {
  }

  lemma {:induction false} KeysAreOfTicks(ticks: seq<PriceTick>, bucket: int -> int, most: int)
    requires forall i :: 0 <= i < |ticks| ==> bucket(BucketOf(ticks[i])) <= most
    ensures forall i :: 0 <= i < |Groups(ticks, bucket)| ==> KeyOf(Groups(ticks, bucket)[i], bucket) <= most
  {
    if ticks != [] {
      KeysAreOfTicks(ticks[..|ticks| - 1], bucket, most);
      PushedKeys(Groups(ticks[..|ticks| - 1], bucket), ticks[|ticks| - 1], bucket);
    }
  }

  /** Bars really are one per bucket, of exactly the ticks of that bucket. */
  lemma {:induction false} GroupsAreBuckets(ticks: seq<PriceTick>, bucket: int -> int)
    requires Ascending(ticks, bucket)
    ensures GroupsAre(ticks, bucket, Groups(ticks, bucket))
  {
    if ticks != [] {
      var front, t := ticks[..|ticks| - 1], ticks[|ticks| - 1];
      assert ticks == front + [t];
      forall i, j | 0 <= i < j < |front| ensures bucket(BucketOf(front[i])) <= bucket(BucketOf(front[j])) {
        assert front[i] == ticks[i] && front[j] == ticks[j];
      }
      GroupsAreBuckets(front, bucket);
      KeysAreOfTicks(front, bucket, bucket(BucketOf(t)));
      PushedAre(front, t, bucket, Groups(front, bucket));
    }
  }

  // ---- refinement ----------------------------------------------------------------------------------------

  function CompletedOf(completed: seq<(Key, Candle)>, k: Key): seq<Candle> {
    if completed == [] then []
    else CompletedOf(completed[..|completed| - 1], k) + (var c := completed[|completed| - 1]; if c.0 == k then [c.1] else [])
  }

  /** Everything the builder knows of one instrument: its completed candles and the one in progress. */
  function BarsBuilt(b: Built, k: Key): seq<Candle> {
    CompletedOf(b.completed, k) + if k in b.current then [b.current[k]] else []
  }

  /** One more tick in the same bucket takes a bar on. */
  function Extended(c: Candle, t: PriceTick): Candle {
    Candle(c.at, c.open, MaxReal(c.high, TickHigh(t)), MinReal(c.low, TickLow(t)), t.price.value, Max(c.volume, TickVolume(t)))
  }

  lemma BarExtends(at: int, group: Group, t: PriceTick)
    ensures BarOf(at, group + [t]) == Extended(BarOf(at, group), t)
  {
  }

  lemma BarsMore(mine: seq<PriceTick>, t: PriceTick, bucket: int -> int)
    ensures var bars, at := BarsBy(mine, bucket), bucket(BucketOf(t));
            BarsBy(mine + [t], bucket)
            == if bars != [] && bars[|bars| - 1].at == at then bars[..|bars| - 1] + [Extended(bars[|bars| - 1], t)] else bars + [BarOf(at, [t])]
  {
    assert (mine + [t])[..|mine|] == mine;
    var groups, at := Groups(mine, bucket), bucket(BucketOf(t));
    assert Groups(mine + [t], bucket) == Pushed(groups, t, bucket);
    BarsOfPushed(groups, t, bucket);
  }

  lemma BarsOfPushed(groups: seq<Group>, t: PriceTick, bucket: int -> int)
    ensures var bars, at := BarsOf(groups, bucket), bucket(BucketOf(t));
            BarsOf(Pushed(groups, t, bucket), bucket)
            == if bars != [] && bars[|bars| - 1].at == at then bars[..|bars| - 1] + [Extended(bars[|bars| - 1], t)] else bars + [BarOf(at, [t])]
  {
    var at := bucket(BucketOf(t));
    if groups != [] && KeyOf(groups[|groups| - 1], bucket) == at { BarExtends(at, groups[|groups| - 1], t); }
  }

  /** Ticks of other instruments, and how they are interleaved, do not matter; and the builder's candles
      of an instrument are the open, highest, lowest and last of its ticks, minute by minute. */
  lemma {:induction false} CandlesAreBars(ticks: seq<PriceTick>, k: Key)
    ensures BarsBuilt(HandleAll(NOTHING, ticks), k) == Bars(TicksOf(ticks, k))
    ensures k in HandleAll(NOTHING, ticks).current <==> TicksOf(ticks, k) != []
  {
    if ticks != [] {
      var front, t := ticks[..|ticks| - 1], ticks[|ticks| - 1];
      var b := HandleAll(NOTHING, front);
      CandlesAreBars(front, k);
      assert HandleAll(NOTHING, ticks) == Handle(b, t);
      if t.key == k {
        assert TicksOf(ticks, k) == TicksOf(front, k) + [t];
        NoBars(TicksOf(front, k));
        BarsMore(TicksOf(front, k), t, Same);
        HandleMine(b, t, Bars(TicksOf(front, k)));
      } else {
        assert TicksOf(ticks, k) == TicksOf(front, k);
        HandleOther(b, t, k);
      }
    }
  }

  lemma {:induction false} NoBars(ticks: seq<PriceTick>)
    ensures Bars(ticks) == [] <==> ticks == []
  {
  }

  /** With times that do not go back, those bars are one per minute, of exactly that minute's ticks. */
  lemma BarsArePerMinute(ticks: seq<PriceTick>)
    requires forall i, j :: 0 <= i < j < |ticks| ==> ticks[i].time.value <= ticks[j].time.value
    ensures GroupsAre(ticks, Same, Groups(ticks, Same))
  {
    forall i, j | 0 <= i < j < |ticks| ensures Same(BucketOf(ticks[i])) <= Same(BucketOf(ticks[j])) {
      Earlier(ticks[i].time.value, ticks[j].time.value);
    }
    GroupsAreBuckets(ticks, Same);
  }

  lemma Earlier(a: int, b: int)
    requires a <= b
    ensures MinuteOf(a) <= MinuteOf(b)
  {
    assert a - a % MINUTE == a / MINUTE * MINUTE && b - b % MINUTE == b / MINUTE * MINUTE;
  }

  lemma HandleOther(b: Built, t: PriceTick, k: Key)
    requires t.key != k
    ensures BarsBuilt(Handle(b, t), k) == BarsBuilt(b, k) && (k in Handle(b, t).current <==> k in b.current)
  {
  }

  lemma HandleMine(b: Built, t: PriceTick, bars: seq<Candle>)
    requires BarsBuilt(b, t.key) == bars && (bars == [] <==> t.key !in b.current)
    ensures t.key in Handle(b, t).current
    ensures BarsBuilt(Handle(b, t), t.key)
            == if bars != [] && bars[|bars| - 1].at == BucketOf(t) then bars[..|bars| - 1] + [Extended(bars[|bars| - 1], t)]
               else bars + [BarOf(BucketOf(t), [t])]
  {
  }
}
