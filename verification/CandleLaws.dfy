/** What the candles say in prices: what each minute's bar takes from which tick, what an index gets, and
    where the longer buckets begin on an Indian clock. */
module CandleLaws {
  import opened Trading
  import opened Candles
  import opened CandleAggregation

  // ---- a minute's bar ---------------------------------------------------------------------------------

  /** A bar sent along counts when it is of the tick's own minute. */
  predicate Counts(t: PriceTick) {
    t.bar.Some? && t.bar.value.at / 60000 == t.time.value / 60000
  }

  lemma CountsIffSupplied(t: PriceTick)
    ensures Supplied(t) == if Counts(t) then t.bar else None
    ensures BucketOf(t) == t.time.value / 60000 * 60000
  {
    var a, b := t.time.value, if t.bar.Some? then t.bar.value.at else 0;
    assert a - a % 60000 == a / 60000 * 60000 && b - b % 60000 == b / 60000 * 60000;
  }

  /** The bar of some ticks, in their own terms: it opens with the first tick's price, or the open sent
      along with it; it closes with the last tick's price; no price of a tick and no bar sent along is
      outside it, and its ends and its volume are those of one of them. */
  lemma BarIsOfItsTicks(ticks: seq<PriceTick>, at: int)
    requires ticks != []
    ensures var c, last := BarOf(at, ticks), |ticks| - 1;
            && c.at == at
            && c.open == (if Counts(ticks[0]) then ticks[0].bar.value.open else ticks[0].price.value)
            && c.close == ticks[last].price.value
            && (forall i :: 0 <= i < |ticks| ==> c.low <= ticks[i].price.value <= c.high)
            && (forall i :: 0 <= i < |ticks| && Counts(ticks[i]) ==> c.low <= ticks[i].bar.value.low && ticks[i].bar.value.high <= c.high)
            && (exists i :: 0 <= i < |ticks| && (c.high == ticks[i].price.value || (Counts(ticks[i]) && c.high == ticks[i].bar.value.high)))
            && (exists i :: 0 <= i < |ticks| && (c.low == ticks[i].price.value || (Counts(ticks[i]) && c.low == ticks[i].bar.value.low)))
  {
    HighestIsHighest(ticks);
    forall i | 0 <= i < |ticks| ensures Supplied(ticks[i]) == if Counts(ticks[i]) then ticks[i].bar else None { CountsIffSupplied(ticks[i]); }
    var i :| 0 <= i < |ticks| && TickHigh(ticks[i]) == Highest(ticks);
    var j :| 0 <= j < |ticks| && TickLow(ticks[j]) == Lowest(ticks);
    assert Highest(ticks) == ticks[i].price.value || (Counts(ticks[i]) && Highest(ticks) == ticks[i].bar.value.high);
    assert Lowest(ticks) == ticks[j].price.value || (Counts(ticks[j]) && Lowest(ticks) == ticks[j].bar.value.low);
  }

  /** Its volume is the largest sent along, and nothing without one. */
  lemma {:induction false} VolumeIsLargestSent(ticks: seq<PriceTick>, at: int)
    requires ticks != []
    ensures var v := BarOf(at, ticks).volume;
            && (forall i :: 0 <= i < |ticks| ==> (if Counts(ticks[i]) then ticks[i].bar.value.volume else 0) <= v)
            && (exists i :: 0 <= i < |ticks| && v == if Counts(ticks[i]) then ticks[i].bar.value.volume else 0)
  {
    var front, last := ticks[..|ticks| - 1], |ticks| - 1;
    CountsIffSupplied(ticks[last]);
    if |ticks| > 1 {
      VolumeIsLargestSent(front, at);
      var i :| 0 <= i < |front| && Busiest(front) == if Counts(front[i]) then front[i].bar.value.volume else 0;
      assert front[i] == ticks[i];
      assert Busiest(ticks) == if Counts(ticks[if TickVolume(ticks[last]) > Busiest(front) then last else i])
                               then ticks[if TickVolume(ticks[last]) > Busiest(front) then last else i].bar.value.volume else 0;
      forall m | 0 <= m < |ticks| ensures (if Counts(ticks[m]) then ticks[m].bar.value.volume else 0) <= Busiest(ticks) {
        if m < last { assert front[m] == ticks[m]; }
      }
    }
  }

  // ---- an index ---------------------------------------------------------------------------------------

  /** The bars sent along with an instrument's ticks. */
  function BarsSent(ticks: seq<Tick>, k: Key): seq<Candle> {
    if ticks == [] then []
    else
      var t := ticks[|ticks| - 1];
      BarsSent(ticks[..|ticks| - 1], k) + if t.key == k && t.bar.Some? then [t.bar.value] else []
  }

  /** Of bars in a row with the same time, the last. */
  function LastOfEach(bars: seq<Candle>): seq<Candle> {
    if bars == [] then []
    else
      var front, c := LastOfEach(bars[..|bars| - 1]), bars[|bars| - 1];
      (if front != [] && front[|front| - 1].at == c.at then front[..|front| - 1] else front) + [c]
  }

  lemma HandleUnpriced(b: Built, t: Tick)
    requires !IsPriceTick(t)
    ensures var bars := BarsBuilt(b, t.key);
            BarsBuilt(Handle(b, t), t.key)
            == if t.bar.None? then bars
               else if t.key in b.current && b.current[t.key].at == t.bar.value.at then CompletedOf(b.completed, t.key) + [t.bar.value]
               else bars + [t.bar.value]
    ensures t.key in Handle(b, t).current <==> t.key in b.current || t.bar.Some?
  {
  }

  lemma HandleElse(b: Built, t: Tick, k: Key)
    requires t.key != k
    ensures BarsBuilt(Handle(b, t), k) == BarsBuilt(b, k) && (k in Handle(b, t).current <==> k in b.current)
  {
  }

  predicate LacksPriceOrTime(t: Tick) { (t.price.Some? ==> t.price.value <= 0.0) || (t.time.Some? ==> t.time.value <= 0) }

  /** An instrument whose ticks carry no price or no trade time, as an index's do, has the bars sent along
      as its candles, the last of each minute, whatever other instruments do in between. */
  lemma {:induction false} IndexCandlesAreBarsSent(ticks: seq<Tick>, k: Key)
    requires forall i :: 0 <= i < |ticks| && ticks[i].key == k ==> LacksPriceOrTime(ticks[i])
    ensures BarsBuilt(HandleAll(NOTHING, ticks), k) == LastOfEach(BarsSent(ticks, k))
    ensures k in HandleAll(NOTHING, ticks).current <==> BarsSent(ticks, k) != []
  {
    if ticks != [] {
      var front, t := ticks[..|ticks| - 1], ticks[|ticks| - 1];
      var b := HandleAll(NOTHING, front);
      assert forall i :: 0 <= i < |front| ==> front[i] == ticks[i];
      IndexCandlesAreBarsSent(front, k);
      assert HandleAll(NOTHING, ticks) == Handle(b, t);
      if t.key != k {
        assert BarsSent(ticks, k) == BarsSent(front, k);
        HandleElse(b, t, k);
      } else {
        HandleUnpriced(b, t);
        if t.bar.None? {
          assert BarsSent(ticks, k) == BarsSent(front, k);
        } else {
          assert BarsSent(ticks, k) == BarsSent(front, k) + [t.bar.value];
          OneMoreSent(b, BarsSent(front, k), t.bar.value, k);
        }
      }
    }
  }

  lemma OneMoreSent(b: Built, sent: seq<Candle>, c: Candle, k: Key)
    requires BarsBuilt(b, k) == LastOfEach(sent) && (k in b.current <==> sent != [])
    ensures LastOfEach(sent + [c])
            == if k in b.current && b.current[k].at == c.at then CompletedOf(b.completed, k) + [c] else BarsBuilt(b, k) + [c]
  {
    assert (sent + [c])[..|sent|] == sent;
  }

  // ---- merging ------------------------------------------------------------------------------------------

  /** `candles[i]` is the last of its time. */
  predicate LastOfItsTime(candles: seq<Candle>, i: int) {
    0 <= i < |candles| && forall j :: i < j < |candles| ==> candles[j].at != candles[i].at
  }

  /** What a merge keeps of each time is the candle given last. */
  lemma {:induction false} LatestIsLast(candles: seq<Candle>, at: int, c: Candle)
    ensures Latest(candles, at) == Some(c) <==> exists i :: LastOfItsTime(candles, i) && candles[i] == c && c.at == at
  {
    if candles != [] {
      var front, last := candles[..|candles| - 1], |candles| - 1;
      LatestIsLast(front, at, c);
      if candles[last].at == at {
        assert LastOfItsTime(candles, last);
      } else {
        if i :| LastOfItsTime(front, i) && front[i] == c && c.at == at { assert LastOfItsTime(candles, i) && candles[i] == c; }
        if i :| LastOfItsTime(candles, i) && candles[i] == c && c.at == at { assert LastOfItsTime(front, i) && front[i] == c; }
      }
    }
  }

  // ---- where buckets begin ------------------------------------------------------------------------------

  /** The minute of the hour on a clock in India, half an hour off the hours elsewhere. */
  function IndianMinute(minute: int): int { (minute + 30) % 60 }

  /** A bucket starts at the last whole minute, up to the time itself, that is a multiple of the interval
      past the full hour in India. */
  lemma BucketsBeginOnTheIndianClock(at: int, interval: int)
    requires interval > 0
    ensures var start := BucketStart(at, interval);
            && start <= at && start % 60000 == 0
            && IndianMinute(start / 60000) % interval == 0
            && forall m :: start / 60000 < m <= at / 60000 ==> IndianMinute(m) % interval != 0
  {
    var minute := at / 60000;
    var into := IndianMinute(minute);
    var past := into % interval;
    SameHour(minute);
    assert StartMinute(minute, interval) == minute - past;
    ModBelow(into, interval);
    var first := minute - past;
    MinutesBack(minute, past);
    assert IndianMinute(first) == into - past;
    MultipleLeft(into, interval);
    assert BucketStart(at, interval) == first * 60000;
    WholeMinutes(first);
    forall m | first < m <= minute ensures IndianMinute(m) % interval != 0 {
      MinutesBack(minute, minute - m);
      NoMultipleBetween(into, interval, minute - m);
    }
  }

  lemma WholeMinutes(m: int)
    ensures m * 60000 / 60000 == m && m * 60000 % 60000 == 0
  {
  }

  lemma SameHour(minute: int)
    ensures (minute + OFFSET_MINUTES) % 60 == IndianMinute(minute)
  {
  }

  lemma ModBelow(x: int, d: int)
    requires x >= 0 && d > 0
    ensures 0 <= x % d <= x
  {
  }

  lemma MinutesBack(minute: int, back: int)
    requires 0 <= back <= IndianMinute(minute)
    ensures IndianMinute(minute - back) == IndianMinute(minute) - back
  {
  }

  lemma MultipleLeft(x: int, d: int)
    requires d > 0
    ensures (x - x % d) % d == 0
  {
    var q := x / d;
    assert x - x % d == d * q;
    MultipleOf(q, d);
  }

  lemma MultipleOf(q: int, d: int)
    requires d > 0
    ensures d * q % d == 0
  {
    var r, p := d * q % d, d * q / d;
    assert d * q == d * p + r;
    if p < q { Scales(p + 1, q, d); }
    if q < p { Scales(q + 1, p, d); }
  }

  lemma NoMultipleBetween(x: int, d: int, back: int)
    requires d > 0 && 0 <= back < x % d
    ensures (x - back) % d != 0
  {
    var q, r := x / d, (x - back) % d;
    var p := (x - back) / d;
    assert x == d * q + x % d && x - back == d * p + r;
    if r == 0 {
      if p <= q { Scales(p, q, d); } else { Scales(q + 1, p, d); }
    }
  }
}
