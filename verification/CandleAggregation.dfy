/** One-minute bars put together into longer ones, on wall-clock boundaries in India. */
module CandleAggregation {
  import opened Trading
  import opened Candles

  /** India is five and a half hours ahead. */
  const OFFSET_MINUTES := 330

  /** The start of the bucket that a minute falls into: minutes of the hour, by whole intervals. */
  function BucketStart(at: int, interval: int): int
    requires interval > 0
  {
    StartMinute(at / MINUTE, interval) * MINUTE
  }

  function StartMinute(minute: int, interval: int): int
    requires interval > 0
  {
    minute - (minute + OFFSET_MINUTES) % 60 % interval
  }

  function Bucketing(interval: int): int -> int
    requires interval > 0
  {
    (at: int) => BucketStart(at, interval)
  }

  /** The bar of some rows in time order. */
  function High(rows: seq<Candle>): real
    requires rows != []
  {
    if |rows| == 1 then rows[0].high else MaxReal(High(rows[..|rows| - 1]), rows[|rows| - 1].high)
  }

  function Low(rows: seq<Candle>): real
    requires rows != []
  {
    if |rows| == 1 then rows[0].low else MinReal(Low(rows[..|rows| - 1]), rows[|rows| - 1].low)
  }

  function Volume(rows: seq<Candle>): int {
    if rows == [] then 0 else Volume(rows[..|rows| - 1]) + rows[|rows| - 1].volume
  }

  function Combined(at: int, rows: seq<Candle>): Candle
    requires rows != []
  {
    Candle(at, rows[0].open, High(rows), Low(rows), rows[|rows| - 1].close, Volume(rows))
  }

  // ---- aggregation ---------------------------------------------------------------------------------

  predicate Rising(rows: seq<Candle>) { forall i, j :: 0 <= i < j < |rows| ==> rows[i].at < rows[j].at }

  function InBucket(rows: seq<Candle>, bucket: int -> int, at: int): seq<Candle>
  {
    if rows == [] then []
    else InBucket(rows[..|rows| - 1], bucket, at) + if bucket(rows[|rows| - 1].at) == at then [rows[|rows| - 1]] else []
  }

  /** Stable insertion by time. */
  function Inserted(rows: seq<Candle>, c: Candle): (r: seq<Candle>)
    ensures |r| == |rows| + 1
  {
    if rows == [] || rows[|rows| - 1].at <= c.at then rows + [c] else Inserted(rows[..|rows| - 1], c) + [rows[|rows| - 1]]
  }

  function Sorted(rows: seq<Candle>): (r: seq<Candle>)
    ensures |r| == |rows|
  {
    if rows == [] then [] else Inserted(Sorted(rows[..|rows| - 1]), rows[|rows| - 1])
  }

  lemma InsertedLast(rows: seq<Candle>, c: Candle)
    requires rows == [] || rows[|rows| - 1].at <= c.at
    ensures Inserted(rows, c) == rows + [c]
  {
  }

  lemma {:induction false} RisingIsSorted(rows: seq<Candle>)
    requires Rising(rows)
    ensures Sorted(rows) == rows
  {
    if rows != [] {
      var front, c := rows[..|rows| - 1], rows[|rows| - 1];
      assert Rising(front);
      RisingIsSorted(front);
      if front != [] { assert rows[|front| - 1].at < rows[|front|].at; }
      InsertedLast(front, c);
      assert front + [c] == rows;
    }
  }

  function Starts(rows: seq<Candle>, bucket: int -> int): set<int>
  {
    if rows == [] then {} else Starts(rows[..|rows| - 1], bucket) + {bucket(rows[|rows| - 1].at)}
  }

  function BucketBar(rows: seq<Candle>, bucket: int -> int, at: int): Candle
  {
    if InBucket(rows, bucket, at) == [] then Candle(at, 0.0, 0.0, 0.0, 0.0, 0) else Combined(at, Sorted(InBucket(rows, bucket, at)))
  }

  function Elements(bars: seq<Candle>): set<Candle> { set c | c in bars }

  function BucketBars(rows: seq<Candle>, bucket: int -> int, starts: set<int>): set<Candle>
  {
    set at | at in starts :: BucketBar(rows, bucket, at)
  }

  /** What an aggregate of rows is: one bar per bucket that has rows, of those rows in time order, and
      the bars in time order. */
  predicate IsAggregate(rows: seq<Candle>, bucket: int -> int, bars: seq<Candle>)
  {
    Rising(bars) && Elements(bars) == BucketBars(rows, bucket, Starts(rows, bucket))
  }

  lemma FrontElements(bars: seq<Candle>)
    requires Rising(bars) && bars != []
    ensures Elements(bars[..|bars| - 1]) == Elements(bars) - {bars[|bars| - 1]}
    ensures forall c :: c in Elements(bars) ==> c.at <= bars[|bars| - 1].at && (c.at == bars[|bars| - 1].at ==> c == bars[|bars| - 1])
  {
  }

  lemma NoElements(bars: seq<Candle>)
    ensures Elements(bars) == {} <==> bars == []
  {
    if bars != [] { assert bars[0] in Elements(bars); }
  }

  /** Bars in time order are determined by which they are. */
  lemma {:induction false} RisingIsDetermined(a: seq<Candle>, b: seq<Candle>)
    requires Rising(a) && Rising(b) && Elements(a) == Elements(b)
    ensures a == b
    decreases |a|
  {
    NoElements(a);
    NoElements(b);
    if a != [] {
      var m, n := |a| - 1, |b| - 1;
      SameLast(a, b);
      RisingIsDetermined(a[..m], b[..n]);
      assert a == a[..m] + [a[m]] && b == b[..n] + [b[n]];
    }
  }

  lemma SameLast(a: seq<Candle>, b: seq<Candle>)
    requires Rising(a) && Rising(b) && Elements(a) == Elements(b) && a != [] && b != []
    ensures a[|a| - 1] == b[|b| - 1] && Elements(a[..|a| - 1]) == Elements(b[..|b| - 1])
  {
    assert a[|a| - 1] in Elements(a) && b[|b| - 1] in Elements(b);
    FrontElements(a);
    FrontElements(b);
  }

  /** Rows have one aggregate. */
  lemma AggregateIsUnique(rows: seq<Candle>, bucket: int -> int, a: seq<Candle>, b: seq<Candle>)
    requires IsAggregate(rows, bucket, a) && IsAggregate(rows, bucket, b)
    ensures a == b
  {
    RisingIsDetermined(a, b);
  }

  // ---- the loops -----------------------------------------------------------------------------------------

  /** `_aggregate_minute_candles`. */
  method AggregateMinuteCandles(rows: seq<Candle>, interval: int) returns (bars: seq<Candle>)
    requires interval > 0
    ensures IsAggregate(rows, Bucketing(interval), bars)
  {
    bars := Aggregate(rows, Bucketing(interval));
  }

  /** Rows into buckets, each bucket into a bar, the bars sorted. */
  method Aggregate(rows: seq<Candle>, bucket: int -> int) returns (bars: seq<Candle>)
    ensures IsAggregate(rows, bucket, bars)
  {
    var order, buckets := FillBuckets(rows, bucket);
    FilledHolds(rows, bucket);
    bars := [];
    for i := 0 to |order|
      invariant Rising(bars) && Elements(bars) == BucketBars(rows, bucket, All(order[..i]))
    {
      OneMore(order, i);
      var ordered := Sorted(buckets[order[i]]);
      var bar := CombineRows(order[i], ordered);
      BarsOfOneMore(rows, bucket, All(order[..i]), order[i]);
      forall j | 0 <= j < |bars| ensures bars[j].at != order[i] { assert bars[j] in Elements(bars); }
      bars := InsertBar(bars, bar);
    }
    assert order[..|order|] == order;
  }

  function All(order: seq<int>): set<int> { if order == [] then {} else All(order[..|order| - 1]) + {order[|order| - 1]} }

  predicate Once(order: seq<int>) { order == [] || (Once(order[..|order| - 1]) && order[|order| - 1] !in All(order[..|order| - 1])) }

  lemma {:induction false} OneMore(order: seq<int>, i: nat)
    requires Once(order) && i < |order|
    ensures All(order[..i + 1]) == All(order[..i]) + {order[i]} && order[i] !in All(order[..i]) && order[i] in All(order)
  {
    if i == |order| - 1 {
      assert order[..i + 1] == order;
    } else {
      var front := order[..|order| - 1];
      OneMore(front, i);
      assert front[..i] == order[..i] && front[..i + 1] == order[..i + 1];
    }
  }

  /** The rows by bucket. */
  function Filled(rows: seq<Candle>, bucket: int -> int): map<int, seq<Candle>> {
    if rows == [] then map[]
    else WithRow(Filled(rows[..|rows| - 1], bucket), bucket(rows[|rows| - 1].at), rows[|rows| - 1])
  }

  /** The buckets in order of appearance. */
  function Appearing(rows: seq<Candle>, bucket: int -> int): seq<int> {
    if rows == [] then []
    else
      var before, start := Appearing(rows[..|rows| - 1], bucket), bucket(rows[|rows| - 1].at);
      if start in Filled(rows[..|rows| - 1], bucket) then before else before + [start]
  }

  lemma {:induction false} FilledHolds(rows: seq<Candle>, bucket: int -> int)
    ensures Once(Appearing(rows, bucket)) && All(Appearing(rows, bucket)) == Filled(rows, bucket).Keys
    ensures HoldsBuckets(Filled(rows, bucket), rows, bucket)
  {
    if rows != [] {
      var front, c := rows[..|rows| - 1], rows[|rows| - 1];
      assert rows == front + [c];
      FilledHolds(front, bucket);
      BucketsMore(Filled(front, bucket), front, c, bucket);
      if bucket(c.at) !in Filled(front, bucket) { OnceMore(Appearing(front, bucket), bucket(c.at)); }
    }
  }

  /** The rows of each bucket, and the buckets in order of appearance. */
  method FillBuckets(rows: seq<Candle>, bucket: int -> int) returns (order: seq<int>, buckets: map<int, seq<Candle>>)
    ensures order == Appearing(rows, bucket) && buckets == Filled(rows, bucket)
  {
    order, buckets := [], map[];
    for i := 0 to |rows|
      invariant order == Appearing(rows[..i], bucket) && buckets == Filled(rows[..i], bucket)
    {
      assert rows[..i + 1][..i] == rows[..i];
      var start := bucket(rows[i].at);
      if start !in buckets {
        order := order + [start];
      }
      buckets := WithRow(buckets, start, rows[i]);
    }
    assert rows[..|rows|] == rows;
  }

  function WithRow(buckets: map<int, seq<Candle>>, start: int, c: Candle): (r: map<int, seq<Candle>>)
    ensures r.Keys == buckets.Keys + {start}
  {
    buckets[start := (if start in buckets then buckets[start] else []) + [c]]
  }

  ghost predicate HoldsBuckets(buckets: map<int, seq<Candle>>, rows: seq<Candle>, bucket: int -> int) {
    && buckets.Keys == Starts(rows, bucket)
    && (forall at :: at in buckets ==> buckets[at] == InBucket(rows, bucket, at) != [])
    && (forall at :: at !in buckets ==> InBucket(rows, bucket, at) == [])
  }

  lemma BucketsMore(buckets: map<int, seq<Candle>>, rows: seq<Candle>, c: Candle, bucket: int -> int)
    requires HoldsBuckets(buckets, rows, bucket)
    ensures HoldsBuckets(WithRow(buckets, bucket(c.at), c), rows + [c], bucket)
  {
  }

  lemma OnceMore(order: seq<int>, at: int)
    requires Once(order) && at !in All(order)
    ensures Once(order + [at]) && All(order + [at]) == All(order) + {at}
  {
  }

  lemma StartsMore(rows: seq<Candle>, c: Candle, bucket: int -> int)
    ensures Starts(rows + [c], bucket) == Starts(rows, bucket) + {bucket(c.at)}
    ensures forall at :: InBucket(rows + [c], bucket, at) == if bucket(c.at) == at then InBucket(rows, bucket, at) + [c] else InBucket(rows, bucket, at)
  {
  }

  /** The open of the first row, the highest and lowest of all, the close of the last, all volumes. */
  method CombineRows(at: int, rows: seq<Candle>) returns (bar: Candle)
    requires rows != []
    ensures bar == Combined(at, rows)
  {
    var high, low, volume := rows[0].high, rows[0].low, rows[0].volume;
    for i := 1 to |rows|
      invariant high == High(rows[..i]) && low == Low(rows[..i]) && volume == Volume(rows[..i])
    {
      assert rows[..i + 1][..i] == rows[..i];
      high, low, volume := MaxReal(high, rows[i].high), MinReal(low, rows[i].low), volume + rows[i].volume;
    }
    assert rows[..|rows|] == rows;
    bar := Candle(at, rows[0].open, high, low, rows[|rows| - 1].close, volume);
  }

  method InsertBar(bars: seq<Candle>, bar: Candle) returns (longer: seq<Candle>)
    requires Rising(bars) && forall i :: 0 <= i < |bars| ==> bars[i].at != bar.at
    ensures Rising(longer) && Elements(longer) == Elements(bars) + {bar}
  {
    var before, after := bars, [];
    while before != [] && before[|before| - 1].at > bar.at
      invariant before + after == bars && |before| <= |bars|
      invariant after == [] || bar.at < after[0].at
      decreases |before|
    {
      after := [before[|before| - 1]] + after;
      before := before[..|before| - 1];
    }
    assert before != [] ==> before[|before| - 1] == bars[|before| - 1];
    PutBetween(before, bar, after);
    longer := before + [bar] + after;
  }

  lemma PutBetween(before: seq<Candle>, bar: Candle, after: seq<Candle>)
    requires Rising(before + after)
    requires (before == [] || before[|before| - 1].at < bar.at) && (after == [] || bar.at < after[0].at)
    ensures Rising(before + [bar] + after) && Elements(before + [bar] + after) == Elements(before + after) + {bar}
  {
    RisingCut(before + after, |before|);
    assert (before + after)[..|before|] == before && (before + after)[|before|..] == after;
    if before != [] { LastIsBefore(before, before[|before| - 1], bar.at); }
    if after != [] { FirstIsAfter(after, bar.at); }
    RisingPut(before, bar, after);
    PutElements(before, bar, after);
  }

  lemma FirstIsAfter(after: seq<Candle>, at: int)
    requires Rising(after) && after != [] && at < after[0].at
    ensures forall j :: 0 <= j < |after| ==> at < after[j].at
  {
  }

  lemma LastIsBefore(before: seq<Candle>, last: Candle, at: int)
    requires Rising(before) && before != [] && before[|before| - 1] == last && last.at <= at && last.at != at
    ensures forall j :: 0 <= j < |before| ==> before[j].at < at
  {
  }

  lemma RisingCut(bars: seq<Candle>, i: nat)
    requires Rising(bars) && i <= |bars|
    ensures Rising(bars[..i]) && Rising(bars[i..])
    ensures forall j :: 0 <= j < |bars[i..]| ==> bars[i..][j] == bars[i + j]
  {
  }

  lemma RisingPut(a: seq<Candle>, bar: Candle, b: seq<Candle>)
    requires Rising(a) && Rising(b)
    requires (forall j :: 0 <= j < |a| ==> a[j].at < bar.at) && (forall j :: 0 <= j < |b| ==> b[j].at > bar.at)
    ensures Rising(a + [bar] + b)
  {
  }

  lemma PutElements(a: seq<Candle>, bar: Candle, b: seq<Candle>)
    ensures Elements(a + [bar] + b) == Elements(a + b) + {bar}
  {
  }

  // ---- merging series --------------------------------------------------------------------------------------

  function Concatenated(lists: seq<seq<Candle>>): seq<Candle> {
    if lists == [] then [] else Concatenated(lists[..|lists| - 1]) + lists[|lists| - 1]
  }

  /** The last candle of a time. */
  function Latest(candles: seq<Candle>, at: int): Option<Candle> {
    if candles == [] then None
    else if candles[|candles| - 1].at == at then Some(candles[|candles| - 1])
    else Latest(candles[..|candles| - 1], at)
  }

  ghost predicate HoldsLatest(merged: map<int, Candle>, candles: seq<Candle>) {
    forall at :: Latest(candles, at) == if at in merged then Some(merged[at]) else None
  }

  lemma LatestMore(merged: map<int, Candle>, candles: seq<Candle>, c: Candle)
    requires HoldsLatest(merged, candles)
    ensures HoldsLatest(merged[c.at := c], candles + [c])
  {
  }

  /** `_merge_candles`: of the candles of one time the last one given wins, and the result is in time
      order. */
  method MergeCandles(lists: seq<seq<Candle>>) returns (series: seq<Candle>)
    ensures Rising(series)
    ensures forall c :: c in series <==> Latest(Concatenated(lists), c.at) == Some(c)
  {
    var order, merged := [], map[];
    for i := 0 to |lists|
      invariant Once(order) && All(order) == merged.Keys
      invariant HoldsLatest(merged, Concatenated(lists[..i]))
    {
      assert lists[..i + 1][..i] == lists[..i];
      order, merged := MergeOne(order, merged, lists[i], Concatenated(lists[..i]));
    }
    assert lists[..|lists|] == lists;
    series := [];
    for i := 0 to |order|
      invariant Rising(series)
      invariant forall c :: c in series <==> c.at in All(order[..i]) && c.at in merged && merged[c.at] == c
    {
      OneMore(order, i);
      MergedAtItsTime(merged, Concatenated(lists), order[i]);
      forall j | 0 <= j < |series| ensures series[j].at != order[i] { assert series[j] in series; }
      var longer := InsertBar(series, merged[order[i]]);
      assert forall c :: c in longer <==> c in Elements(longer);
      assert forall c :: c in Elements(series) <==> c in series;
      series := longer;
    }
    assert order[..|order|] == order;
  }

  lemma {:induction false} MergedAtItsTime(merged: map<int, Candle>, candles: seq<Candle>, at: int)
    requires HoldsLatest(merged, candles) && at in merged
    ensures merged[at].at == at
  {
    LatestIsOfItsTime(candles, at);
  }

  lemma {:induction false} LatestIsOfItsTime(candles: seq<Candle>, at: int)
    ensures Latest(candles, at).Some? ==> Latest(candles, at).value.at == at
  {
    if candles != [] { LatestIsOfItsTime(candles[..|candles| - 1], at); }
  }

  method MergeOne(order: seq<int>, merged: map<int, Candle>, candles: seq<Candle>, ghost before: seq<Candle>)
    returns (times: seq<int>, all: map<int, Candle>)
    requires Once(order) && All(order) == merged.Keys && HoldsLatest(merged, before)
    ensures Once(times) && All(times) == all.Keys && HoldsLatest(all, before + candles)
  {
    times, all := order, merged;
    assert before + candles[..0] == before;
    for i := 0 to |candles|
      invariant Once(times) && All(times) == all.Keys && HoldsLatest(all, before + candles[..i])
    {
      times, all := TakeCandle(times, all, candles[i], before + candles[..i]);
      assert before + candles[..i + 1] == before + candles[..i] + [candles[i]];
    }
    assert candles[..|candles|] == candles;
  }

  method TakeCandle(order: seq<int>, merged: map<int, Candle>, c: Candle, ghost before: seq<Candle>)
    returns (times: seq<int>, all: map<int, Candle>)
    requires Once(order) && All(order) == merged.Keys && HoldsLatest(merged, before)
    ensures Once(times) && All(times) == all.Keys && HoldsLatest(all, before + [c])
  {
    LatestMore(merged, before, c);
    times, all := order, merged[c.at := c];
    if c.at !in merged {
      OnceMore(order, c.at);
      times := order + [c.at];
    }
  }

  // ---- composition -----------------------------------------------------------------------------------------

  /** Rows cut where the bucket changes, as bars. */
  function Runs(rows: seq<Candle>, bucket: int -> int): seq<Candle> {
    if rows == [] then [] else Joined(Runs(rows[..|rows| - 1], bucket), rows[|rows| - 1], bucket)
  }

  /** A row takes the last bar on, or starts one. */
  function Joined(bars: seq<Candle>, c: Candle, bucket: int -> int): seq<Candle> {
    if bars != [] && bars[|bars| - 1].at == bucket(c.at) then bars[..|bars| - 1] + [Grown(bars[|bars| - 1], c)]
    else bars + [c.(at := bucket(c.at))]
  }

  function Grown(bar: Candle, c: Candle): Candle {
    Candle(bar.at, bar.open, MaxReal(bar.high, c.high), MinReal(bar.low, c.low), c.close, bar.volume + c.volume)
  }

  predicate Monotone(rows: seq<Candle>, bucket: int -> int) {
    forall i, j :: 0 <= i < j < |rows| ==> bucket(rows[i].at) <= bucket(rows[j].at)
  }

  lemma {:induction false} InBucketRises(rows: seq<Candle>, bucket: int -> int, at: int)
    requires Rising(rows)
    ensures Rising(InBucket(rows, bucket, at)) && forall c :: c in InBucket(rows, bucket, at) ==> c in rows
  {
    if rows != [] {
      var front, c := rows[..|rows| - 1], rows[|rows| - 1];
      InBucketRises(front, bucket, at);
      var mine := InBucket(front, bucket, at);
      forall i | 0 <= i < |mine| ensures mine[i] in rows && mine[i].at < c.at {
        assert mine[i] in front;
        var j :| 0 <= j < |front| && front[j] == mine[i];
        assert rows[j] == mine[i];
      }
    }
  }

  lemma CombinedGrows(at: int, rows: seq<Candle>, c: Candle)
    requires rows != []
    ensures Combined(at, rows + [c]) == Grown(Combined(at, rows), c)
  {
  }

  /** Rows in time order need no sorting. */
  lemma BucketBarIs(rows: seq<Candle>, bucket: int -> int, at: int)
    requires Rising(rows) && InBucket(rows, bucket, at) != []
    ensures BucketBar(rows, bucket, at) == Combined(at, InBucket(rows, bucket, at))
  {
    InBucketRises(rows, bucket, at);
    RisingIsSorted(InBucket(rows, bucket, at));
  }

  lemma BucketBarMore(rows: seq<Candle>, c: Candle, bucket: int -> int, at: int)
    requires Rising(rows + [c])
    ensures Rising(rows)
    ensures BucketBar(rows + [c], bucket, at)
            == if bucket(c.at) != at then BucketBar(rows, bucket, at)
               else if InBucket(rows, bucket, at) == [] then c.(at := at)
               else Grown(BucketBar(rows, bucket, at), c)
  {
    var mine := InBucket(rows, bucket, at);
    RisingCut(rows + [c], |rows|);
    assert (rows + [c])[..|rows|] == rows;
    StartsMore(rows, c, bucket);
    if bucket(c.at) != at {
      assert InBucket(rows + [c], bucket, at) == mine + [] == mine;
    } else {
      BucketBarIs(rows + [c], bucket, at);
      if mine == [] {
        CombinedOne(at, c);
        assert mine + [c] == [c];
      } else {
        BucketBarIs(rows, bucket, at);
        CombinedGrows(at, mine, c);
      }
    }
  }

  lemma CombinedOne(at: int, c: Candle)
    ensures Combined(at, [c]) == c.(at := at)
  {
    assert Volume([c]) == Volume([c][..0]) + c.volume;
  }

  lemma {:induction false} StartsAre(rows: seq<Candle>, bucket: int -> int, at: int)
    ensures at in Starts(rows, bucket) <==> InBucket(rows, bucket, at) != []
  {
    if rows != [] {
      var front, c := rows[..|rows| - 1], rows[|rows| - 1];
      assert rows == front + [c];
      StartsAre(front, bucket, at);
      StartsMore(front, c, bucket);
    }
  }

  /** For rows in time order that is their aggregate. */
  lemma {:induction false} RunsAggregate(rows: seq<Candle>, bucket: int -> int)
    requires Rising(rows) && Monotone(rows, bucket)
    ensures IsAggregate(rows, bucket, Runs(rows, bucket))
    ensures rows != [] ==> Runs(rows, bucket) != [] && Runs(rows, bucket)[|Runs(rows, bucket)| - 1].at == bucket(rows[|rows| - 1].at)
  {
    if rows != [] {
      var front, c := rows[..|rows| - 1], rows[|rows| - 1];
      assert rows == front + [c];
      forall i, j | 0 <= i < j < |front| ensures bucket(front[i].at) <= bucket(front[j].at) { assert rows[i] == front[i] && rows[j] == front[j]; }
      RunsAggregate(front, bucket);
      if front != [] { assert bucket(rows[|front| - 1].at) <= bucket(c.at); }
      JoinedAggregates(front, c, bucket, Runs(front, bucket));
    }
  }

  lemma BarsOfOneMore(rows: seq<Candle>, bucket: int -> int, starts: set<int>, at: int)
    ensures BucketBars(rows, bucket, starts + {at}) == BucketBars(rows, bucket, starts) + {BucketBar(rows, bucket, at)}
    ensures forall c :: c in BucketBars(rows, bucket, starts) ==> c.at in starts
  {
  }

  lemma BarsAfter(rows: seq<Candle>, c: Candle, bucket: int -> int)
    requires Rising(rows + [c])
    ensures var at := bucket(c.at);
            BucketBars(rows + [c], bucket, Starts(rows + [c], bucket))
            == BucketBars(rows, bucket, Starts(rows, bucket) - {at}) + {BucketBar(rows + [c], bucket, at)}
  {
    var at := bucket(c.at);
    var others := Starts(rows, bucket) - {at};
    StartsMore(rows, c, bucket);
    assert Starts(rows + [c], bucket) == others + {at};
    BarsOfOneMore(rows + [c], bucket, others, at);
    OtherBarsStay(rows, c, bucket, others);
  }

  lemma OtherBarsStay(rows: seq<Candle>, c: Candle, bucket: int -> int, starts: set<int>)
    requires Rising(rows + [c]) && bucket(c.at) !in starts
    ensures BucketBars(rows + [c], bucket, starts) == BucketBars(rows, bucket, starts)
  {
    forall b | b in starts ensures BucketBar(rows + [c], bucket, b) == BucketBar(rows, bucket, b) { BucketBarMore(rows, c, bucket, b); }
    SameBucketBars(rows + [c], rows, bucket, starts);
  }

  lemma SameBucketBars(rows: seq<Candle>, more: seq<Candle>, bucket: int -> int, starts: set<int>)
    requires forall at :: at in starts ==> BucketBar(rows, bucket, at) == BucketBar(more, bucket, at)
    ensures BucketBars(rows, bucket, starts) == BucketBars(more, bucket, starts)
  {
  }

  lemma BarsBefore(rows: seq<Candle>, bucket: int -> int, at: int)
    ensures var others := BucketBars(rows, bucket, Starts(rows, bucket) - {at});
            && (forall x :: x in others ==> x.at != at)
            && BucketBars(rows, bucket, Starts(rows, bucket)) == if at in Starts(rows, bucket) then others + {BucketBar(rows, bucket, at)} else others
  {
  }

  lemma JoinedAggregates(rows: seq<Candle>, c: Candle, bucket: int -> int, bars: seq<Candle>)
    requires Rising(rows + [c]) && IsAggregate(rows, bucket, bars)
    requires bars != [] ==> bars[|bars| - 1].at <= bucket(c.at)
    ensures IsAggregate(rows + [c], bucket, Joined(bars, c, bucket))
  {
    var at := bucket(c.at);
    StartsAre(rows, bucket, at);
    BucketBarMore(rows, c, bucket, at);
    BarsAfter(rows, c, bucket);
    BarsBefore(rows, bucket, at);
    if at in Starts(rows, bucket) {
      JoinsLast(bars, c, bucket, BucketBars(rows, bucket, Starts(rows, bucket) - {at}), BucketBar(rows, bucket, at));
    } else {
      JoinsNew(bars, c, bucket);
    }
  }

  lemma JoinsLast(bars: seq<Candle>, c: Candle, bucket: int -> int, others: set<Candle>, bar: Candle)
    requires Rising(bars) && Elements(bars) == others + {bar} && bar.at == bucket(c.at)
    requires forall x :: x in others ==> x.at != bar.at
    requires bars != [] ==> bars[|bars| - 1].at <= bar.at
    ensures Rising(Joined(bars, c, bucket)) && Elements(Joined(bars, c, bucket)) == others + {Grown(bar, c)}
  {
  }

  lemma JoinsNew(bars: seq<Candle>, c: Candle, bucket: int -> int)
    requires Rising(bars) && forall x :: x in Elements(bars) ==> x.at != bucket(c.at)
    requires bars != [] ==> bars[|bars| - 1].at <= bucket(c.at)
    ensures Rising(Joined(bars, c, bucket)) && Elements(Joined(bars, c, bucket)) == Elements(bars) + {c.(at := bucket(c.at))}
  {
  }

  // ---- minutes of ticks, put together ------------------------------------------------------------------

  predicate SameOhlc(a: Candle, b: Candle) { a.(volume := 0) == b.(volume := 0) }

  predicate SamePrices(a: seq<Candle>, b: seq<Candle>) { |a| == |b| && forall i :: 0 <= i < |a| ==> SameOhlc(a[i], b[i]) }

  /** The runs of one-minute bars are the bars of the ticks themselves by the longer buckets: the same
      opens, highs, lows and closes, whatever the buckets are. */
  lemma {:induction false} RunsAreLongerBars(ticks: seq<PriceTick>, bucket: int -> int)
    ensures SamePrices(Runs(Bars(ticks), bucket), BarsBy(ticks, bucket))
  {
    if ticks != [] {
      var front, t := ticks[..|ticks| - 1], ticks[|ticks| - 1];
      assert ticks == front + [t];
      RunsAreLongerBars(front, bucket);
      BarsMore(front, t, Same);
      BarsMore(front, t, bucket);
      var minutes := Bars(front);
      if minutes != [] && minutes[|minutes| - 1].at == BucketOf(t) {
        TakenOn(minutes, t, bucket, BarsBy(front, bucket));
      } else {
        Started(minutes, t, bucket, BarsBy(front, bucket));
      }
    }
  }

  /** A tick of the minute in progress. */
  lemma TakenOn(minutes: seq<Candle>, t: PriceTick, bucket: int -> int, longer: seq<Candle>)
    requires minutes != [] && minutes[|minutes| - 1].at == BucketOf(t) && SamePrices(Runs(minutes, bucket), longer)
    ensures longer != [] && longer[|longer| - 1].at == bucket(BucketOf(t))
    ensures SamePrices(Runs(minutes[..|minutes| - 1] + [Extended(minutes[|minutes| - 1], t)], bucket),
                       longer[..|longer| - 1] + [Extended(longer[|longer| - 1], t)])
  {
    var before, c := Runs(minutes[..|minutes| - 1], bucket), minutes[|minutes| - 1];
    assert Runs(minutes, bucket) == Joined(before, c, bucket);
    assert (minutes[..|minutes| - 1] + [Extended(c, t)])[..|minutes| - 1] == minutes[..|minutes| - 1];
    assert Runs(minutes[..|minutes| - 1] + [Extended(c, t)], bucket) == Joined(before, Extended(c, t), bucket);
    JoinedExtends(before, c, t, bucket, longer);
  }

  lemma JoinedExtends(before: seq<Candle>, c: Candle, t: PriceTick, bucket: int -> int, longer: seq<Candle>)
    requires SamePrices(Joined(before, c, bucket), longer)
    ensures longer != [] && longer[|longer| - 1].at == bucket(c.at)
    ensures SamePrices(Joined(before, Extended(c, t), bucket), longer[..|longer| - 1] + [Extended(longer[|longer| - 1], t)])
  {
  }

  /** A tick of a new minute. */
  lemma Started(minutes: seq<Candle>, t: PriceTick, bucket: int -> int, longer: seq<Candle>)
    requires SamePrices(Runs(minutes, bucket), longer)
    ensures SamePrices(Runs(minutes + [BarOf(BucketOf(t), [t])], bucket),
                       if longer != [] && longer[|longer| - 1].at == bucket(BucketOf(t))
                       then longer[..|longer| - 1] + [Extended(longer[|longer| - 1], t)] else longer + [BarOf(bucket(BucketOf(t)), [t])])
  {
  }

  lemma VolumeMore(rows: seq<Candle>, c: Candle)
    ensures Volume(rows + [c]) == Volume(rows) + c.volume
  {
    assert (rows + [c])[..|rows|] == rows;
  }

  lemma JoinedVolume(bars: seq<Candle>, c: Candle, bucket: int -> int)
    ensures Volume(Joined(bars, c, bucket)) == Volume(bars) + c.volume
  {
    if bars != [] && bars[|bars| - 1].at == bucket(c.at) {
      VolumeMore(bars[..|bars| - 1], Grown(bars[|bars| - 1], c));
    } else {
      VolumeMore(bars, c.(at := bucket(c.at)));
    }
  }

  lemma {:induction false} RunsKeepVolume(rows: seq<Candle>, bucket: int -> int)
    ensures Volume(Runs(rows, bucket)) == Volume(rows)
  {
    if rows != [] {
      var front, c := rows[..|rows| - 1], rows[|rows| - 1];
      RunsKeepVolume(front, bucket);
      JoinedVolume(Runs(front, bucket), c, bucket);
      assert Volume(rows) == Volume(front) + c.volume;
      assert Runs(rows, bucket) == Joined(Runs(front, bucket), c, bucket);
    }
  }

  lemma BarsAddVolumes(rows: seq<Candle>, bucket: int -> int, bars: seq<Candle>, i: int)
    requires Rising(rows) && IsAggregate(rows, bucket, bars) && 0 <= i < |bars|
    ensures bars[i].volume == Volume(InBucket(rows, bucket, bars[i].at))
  {
    assert bars[i] in Elements(bars);
    var at :| at in Starts(rows, bucket) && bars[i] == BucketBar(rows, bucket, at);
    StartsAre(rows, bucket, at);
    BucketBarIs(rows, bucket, at);
  }

  lemma BucketsKeepOrder(a: int, b: int, interval: int)
    requires 0 < interval && a <= b
    ensures BucketStart(a, interval) <= BucketStart(b, interval)
  {
    assert a / MINUTE <= b / MINUTE;
    StartsKeepOrder(a / MINUTE, b / MINUTE, interval);
  }

  /** A minute is so far into its hour, and its bucket starts so far into it. */
  lemma StartMinuteIs(m: int, interval: int) returns (hour: int, x: int, y: int)
    requires interval > 0
    ensures m + OFFSET_MINUTES == 60 * hour + x && 0 <= x < 60
    ensures x == y + x % interval && 0 <= x % interval && 0 <= y <= x && y == x / interval * interval
    ensures StartMinute(m, interval) + OFFSET_MINUTES == 60 * hour + y
  {
    hour, x := (m + OFFSET_MINUTES) / 60, (m + OFFSET_MINUTES) % 60;
    y := x / interval * interval;
    assert x / interval >= 0;
    Scales(0, x / interval, interval);
  }

  lemma StartsKeepOrder(m: int, n: int, interval: int)
    requires 0 < interval && m <= n
    ensures StartMinute(m, interval) <= StartMinute(n, interval)
  {
    var h, x, y := StartMinuteIs(m, interval);
    var g, u, v := StartMinuteIs(n, interval);
    if h == g { Floors(x, u, interval); }
  }

  lemma Floors(x: int, y: int, d: int)
    requires 0 <= x <= y && d > 0
    ensures x / d * d <= y / d * d
  {
    if x / d > y / d { Scales(y / d + 1, x / d, d); } else { Scales(x / d, y / d, d); }
  }

  lemma BarsRise(ticks: seq<PriceTick>)
    requires forall i, j :: 0 <= i < j < |ticks| ==> ticks[i].time.value <= ticks[j].time.value
    ensures Rising(Bars(ticks))
  {
    BarsArePerMinute(ticks);
    var groups := Groups(ticks, Same);
    forall i, j | 0 <= i < j < |groups| ensures Bars(ticks)[i].at < Bars(ticks)[j].at { assert KeyOf(groups[i], Same) < KeyOf(groups[j], Same); }
  }

  /** Aggregating the one-minute bars of ticks whose times do not go back gives the bars of the ticks
      themselves, by the interval: aggregation composes with candle building. The volume of a longer bar
      is the sum over its minutes, and in all none is lost. */
  lemma {:induction false} AggregationComposes(ticks: seq<PriceTick>, interval: int, bars: seq<Candle>)
    requires 0 < interval && IsAggregate(Bars(ticks), Bucketing(interval), bars)
    requires forall i, j :: 0 <= i < j < |ticks| ==> ticks[i].time.value <= ticks[j].time.value
    ensures SamePrices(bars, BarsBy(ticks, Bucketing(interval)))
    ensures GroupsAre(ticks, Bucketing(interval), Groups(ticks, Bucketing(interval)))
    ensures Volume(bars) == Volume(Bars(ticks))
    ensures forall i :: 0 <= i < |bars| ==> bars[i].volume == Volume(InBucket(Bars(ticks), Bucketing(interval), bars[i].at))
  {
    var bucket, rows := Bucketing(interval), Bars(ticks);
    BarsRise(ticks);
    forall i, j | 0 <= i < j < |rows| ensures bucket(rows[i].at) <= bucket(rows[j].at) { BucketsKeepOrder(rows[i].at, rows[j].at, interval); }
    RunsAggregate(rows, bucket);
    AggregateIsUnique(rows, bucket, bars, Runs(rows, bucket));
    RunsAreLongerBars(ticks, bucket);
    RunsKeepVolume(rows, bucket);
    forall i | 0 <= i < |bars| ensures bars[i].volume == Volume(InBucket(rows, bucket, bars[i].at)) { BarsAddVolumes(rows, bucket, bars, i); }
    forall i, j | 0 <= i < j < |ticks| ensures bucket(BucketOf(ticks[i])) <= bucket(BucketOf(ticks[j])) {
      Earlier(ticks[i].time.value, ticks[j].time.value);
      BucketsKeepOrder(BucketOf(ticks[i]), BucketOf(ticks[j]), interval);
    }
    GroupsAreBuckets(ticks, bucket);
  }

  // ---- how long the buckets are -----------------------------------------------------------------------

  /** From its start every bucket goes on for a whole interval. */
  ghost predicate Uniform(interval: int)
    requires interval > 0
  {
    forall m: int, k: int :: 0 <= k < interval ==> InSameBucket(m, k, interval)
  }

  /** The minute `k` minutes after the start of `m`'s bucket is in it too. */
  predicate InSameBucket(m: int, k: int, interval: int)
    requires interval > 0
  {
    StartMinute(StartMinute(m, interval) + k, interval) == StartMinute(m, interval)
  }

  /** Buckets are whole intervals exactly when the interval divides the hour. */
  lemma UniformIffDividesHour(interval: int)
    requires interval > 0
    ensures Uniform(interval) <==> 60 % interval == 0
  {
    if 60 % interval == 0 {
      forall m: int, k: int | 0 <= k < interval ensures InSameBucket(m, k, interval) {
        StaysInBucket(m, k, interval);
      }
    } else {
      LastBucketIsShort(interval);
    }
  }

  lemma StaysInBucket(m: int, k: int, interval: int)
    requires interval > 0 && 60 % interval == 0 && 0 <= k < interval
    ensures InSameBucket(m, k, interval)
  {
    var h, x, y := StartMinuteIs(m, interval);
    var q := x / interval;
    WholeBuckets(x, interval);
    Mod60(h, y + k);
    Remainder(q, k, interval);
    assert (StartMinute(m, interval) + k + OFFSET_MINUTES) % 60 % interval == k;
  }

  lemma WholeBuckets(x: int, interval: int)
    requires 0 < interval && 60 % interval == 0 && 0 <= x < 60
    ensures x / interval * interval + interval <= 60
  {
    var q, p := x / interval, 60 / interval;
    if q + 1 > p { Scales(p, q, interval); } else { Scales(q + 1, p, interval); }
  }

  lemma Mod60(h: int, r: int)
    requires 0 <= r < 60
    ensures (60 * h + r) % 60 == r
  {
  }

  lemma Remainder(q: int, k: int, d: int)
    requires 0 <= k < d && q >= 0
    ensures (q * d + k) % d == k
  {
    var r, p := (q * d + k) % d, (q * d + k) / d;
    assert p * d + r == q * d + k;
    if p > q { Scales(q + 1, p, d); }
    if p < q { Scales(p + 1, q, d); }
  }

  lemma LastBucketIsShort(interval: int)
    requires interval > 0 && 60 % interval != 0
    ensures !Uniform(interval)
  {
    var m := 59 - OFFSET_MINUTES;
    var k := 59 % interval + 1;
    var s := StartMinute(m, interval);
    assert (m + OFFSET_MINUTES) % 60 == 59;
    assert s + k + OFFSET_MINUTES == 60;
    assert StartMinute(s + k, interval) == s + k;
    if k == interval { Remainder(59 / interval + 1, 0, interval); }
    assert 0 <= k < interval && !InSameBucket(m, k, interval);
  }
}
