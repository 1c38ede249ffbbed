/** What a trade tells of the fills it was matched from, in the fills' own terms. */
module JournalLaws {
  import opened Trading
  import opened JournalMatcher

  /** What a fill is worth. */
  function Worth(f: Fill): real { f.quantity as real * f.price }

  function Total(price: real, quantity: int): real { price * quantity as real }

  /** What came in less what went out. */
  function NetCash(fills: seq<Fill>): real {
    if fills == [] then 0.0 else NetCash(fills[1..]) + if fills[0].side == SELL then Worth(fills[0]) else -Worth(fills[0])
  }

  /** What the fills on a side are worth. */
  function WorthOf(fills: seq<Fill>, side: Side): real {
    if fills == [] then 0.0 else WorthOf(fills[1..], side) + if fills[0].side == side then Worth(fills[0]) else 0.0
  }

  function Turnover(fills: seq<Fill>): int { if fills == [] then 0 else Turnover(fills[1..]) + fills[0].quantity }

  function Costs(fills: seq<Fill>): real { if fills == [] then 0.0 else Costs(fills[1..]) + fills[0].charges }

  lemma {:induction false} SumsMore(fills: seq<Fill>, f: Fill, side: Side)
    ensures NetCash(fills + [f]) == NetCash(fills) + if f.side == SELL then Worth(f) else -Worth(f)
    ensures WorthOf(fills + [f], side) == WorthOf(fills, side) + if f.side == side then Worth(f) else 0.0
    ensures Turnover(fills + [f]) == Turnover(fills) + f.quantity && Costs(fills + [f]) == Costs(fills) + f.charges
  {
    if fills == [] {
      assert ([f])[1..] == [];
    } else {
      SumsMore(fills[1..], f, side);
      assert (fills + [f])[1..] == fills[1..] + [f];
    }
  }

  lemma {:induction false} TotalsAre(fills: seq<Fill>, side: Side)
    ensures Cash(fills, side) == WorthOf(fills, side)
    ensures Cash(fills, SELL) - Cash(fills, BUY) == NetCash(fills)
    ensures Quantity(fills, BUY) + Quantity(fills, SELL) == Turnover(fills) && Charges(fills) == Costs(fills)
  {
    if fills != [] {
      var front, f := fills[..|fills| - 1], fills[|fills| - 1];
      assert fills == front + [f];
      TotalsAre(front, side);
      SumsMore(front, f, side);
    }
  }

  /** What a trade tells: it went the way of its first fill; it opened with that and closed with the last;
      its quantity is half of all that changed hands; its two prices are the averages of what was entered
      and of what was exited; its gross P&L is the cash that was left, its charges those of all fills; and
      it is made of exactly these fills. */
  ghost predicate Tells(t: RoundTrip, fills: seq<Fill>) { fills != [] && Spans(t, fills) && Averages(t, fills) && MadeOf(t, fills) }

  predicate Spans(t: RoundTrip, fills: seq<Fill>)
    requires fills != []
  {
    t.instrument == fills[0].instrument && t.direction == fills[0].side && t.openedAt == fills[0].at && t.closedAt == fills[|fills| - 1].at
  }

  ghost predicate Averages(t: RoundTrip, fills: seq<Fill>) {
    && 2 * t.quantity == Turnover(fills)
    && Total(t.entryPrice, t.quantity) == WorthOf(fills, t.direction)
    && (forall side :: side != t.direction ==> Total(t.exitPrice, t.quantity) == WorthOf(fills, side))
    && t.gross == NetCash(fills) && t.charges == Costs(fills)
  }

  ghost predicate MadeOf(t: RoundTrip, fills: seq<Fill>) {
    && (forall i :: 0 <= i < |fills| ==> Allocation(fills[i].id, if fills[i].side == t.direction then ENTRY else EXIT, fills[i].quantity) in t.fingerprint)
    && (forall a :: a in t.fingerprint ==> exists i :: 0 <= i < |fills| && a.fill == fills[i].id && a.quantity == fills[i].quantity)
  }

  /** A trade of the run of fills from `a` to before `b`, which is a round trip. */
  ghost predicate TellsOf(t: RoundTrip, fills: seq<Fill>, a: int, b: int) {
    0 <= a < b <= |fills| && IsRoundTrip(fills[a..b]) && Tells(t, fills[a..b])
  }

  lemma TradeTells(fills: seq<Fill>)
    requires IsTrade(fills) && Exposure(fills) == 0
    ensures Tells(TradeOf(fills), fills)
  {
    TradeSpans(fills);
    TradeAverages(fills);
    MadeOfAll(fills);
  }

  lemma TradeSpans(fills: seq<Fill>)
    requires IsTrade(fills)
    ensures fills != [] && Spans(TradeOf(fills), fills)
  {
  }

  lemma TradeAverages(fills: seq<Fill>)
    requires IsTrade(fills) && Exposure(fills) == 0
    ensures Averages(TradeOf(fills), fills)
  {
    var t, side := TradeOf(fills), fills[0].side;
    TradeIsCashFlow(fills);
    TotalsAre(fills, side);
    TotalsAre(fills, Opposite(side));
    PricesAre(fills);
    Shares(Cash(fills, side), t.quantity, t.entryPrice);
    Shares(Cash(fills, Opposite(side)), t.quantity, t.exitPrice);
  }

  lemma PricesAre(fills: seq<Fill>)
    requires IsTrade(fills)
    ensures var t, side := TradeOf(fills), fills[0].side;
            && t.quantity == Quantity(fills, side) && t.direction == side && t.charges == Charges(fills)
            && t.entryPrice == Cash(fills, side) / Quantity(fills, side) as real
            && t.exitPrice == Cash(fills, Opposite(side)) / Quantity(fills, Opposite(side)) as real
  {
  }

  lemma Shares(cash: real, quantity: int, price: real)
    requires quantity != 0 && price == cash / quantity as real
    ensures Total(price, quantity) == cash
  {
  }

  lemma MadeOfAll(fills: seq<Fill>)
    requires IsTrade(fills)
    ensures MadeOf(TradeOf(fills), fills)
  {
  }

  /** Every trade the matcher reports tells of a run of consecutive fills that is a round trip. */
  lemma {:induction false} MatchesTell(fills: seq<Fill>, i: nat)
    requires i < |TradesOf(Segments(fills))|
    ensures exists a, b :: TellsOf(TradesOf(Segments(fills))[i], fills, a, b)
  {
    var rest := SegmentsMatch(fills);
    var n := TradeOfSegment(Segments(fills), i);
    var a := SegmentIsSlice(fills, Segments(fills), rest, n);
    SegmentTells(fills, Segments(fills)[n], a);
  }

  lemma SegmentTells(fills: seq<Fill>, segment: seq<Fill>, a: nat)
    requires IsRoundTrip(segment) && IsTrade(segment) && a + |segment| <= |fills| && fills[a..a + |segment|] == segment
    ensures TellsOf(TradeOf(segment), fills, a, a + |segment|)
  {
    TradeTells(segment);
  }

  lemma {:induction false} TradeOfSegment(segments: seq<seq<Fill>>, i: nat) returns (n: nat)
    requires i < |TradesOf(segments)|
    ensures n < |segments| && IsTrade(segments[n]) && TradesOf(segments)[i] == TradeOf(segments[n])
  {
    var front := segments[..|segments| - 1];
    if i < |TradesOf(front)| { n := TradeOfSegment(front, i); } else { n := |segments| - 1; }
  }

  lemma {:induction false} SegmentIsSlice(fills: seq<Fill>, segments: seq<seq<Fill>>, rest: seq<Fill>, n: nat) returns (a: nat)
    requires n < |segments| && fills == Flat(segments) + rest
    ensures a + |segments[n]| <= |fills| && fills[a..a + |segments[n]|] == segments[n]
    decreases n
  {
    var first := segments[0];
    assert fills == first + (Flat(segments[1..]) + rest);
    if n == 0 {
      a := 0;
    } else {
      var b := SegmentIsSlice(fills[|first|..], segments[1..], rest, n - 1);
      a := |first| + b;
      assert fills[a..a + |segments[n]|] == fills[|first|..][b..b + |segments[n]|];
    }
  }

  /** With fills in the order of time no fill of a trade is outside its span. */
  lemma TradeSpansItsFills(fills: seq<Fill>, t: RoundTrip)
    requires fills != [] && Spans(t, fills) && forall i, j :: 0 <= i < j < |fills| ==> fills[i].at <= fills[j].at
    ensures forall i :: 0 <= i < |fills| ==> t.openedAt <= fills[i].at <= t.closedAt
  {
  }

  // ---- what a round trip is -----------------------------------------------------------------------------

  /** The position, counted in the direction of the first fill. */
  function Standing(fills: seq<Fill>, n: nat): int
    requires n <= |fills|
  {
    if n == 0 then 0 else Standing(fills, n - 1) + if fills[n - 1].side == fills[0].side then fills[n - 1].quantity else -fills[n - 1].quantity
  }

  lemma {:induction false} StandingIsExposure(fills: seq<Fill>, n: nat)
    requires n <= |fills| && fills != []
    ensures Standing(fills, n) == Signed(fills[0].side, Exposure(fills[..n]))
  {
    if n > 0 {
      StandingIsExposure(fills, n - 1);
      assert fills[..n][..n - 1] == fills[..n - 1];
    }
  }

  lemma SameSign(a: int, b: int)
    requires a > 0
    ensures a * b < 0 <==> b < 0
    ensures (-a) * b < 0 <==> b > 0
  {
    if b > 0 { Scales(1, b, a); } else if b < 0 { Scales(b, -1, a); }
    NegatedProduct(a, b);
  }

  lemma NegatedProduct(a: int, b: int)
    ensures (-a) * b == -(a * b)
  {
  }

  /** On the first fill's side from then on until the last fill, and flat after it. */
  ghost predicate OutAndBack(fills: seq<Fill>) {
    fills != [] && Standing(fills, |fills|) == 0 && forall n :: 0 < n < |fills| ==> Standing(fills, n) > 0
  }

  ghost predicate OpenThroughout(fills: seq<Fill>) { forall i :: 0 < i < |fills| ==> StaysOpen(fills, i) }

  /** Positive fills are a round trip exactly if the position goes out and comes back without turning. */
  lemma RoundTripIff(fills: seq<Fill>)
    requires fills != [] && PositiveQuantities(fills)
    ensures IsRoundTrip(fills) <==> OutAndBack(fills)
  {
    FlatIffStanding(fills);
    if OpenThroughout(fills) { OpenIsOut(fills); }
    if OutAndBack(fills) { OutIsOpen(fills); }
    assert IsRoundTrip(fills) <==> Exposure(fills) == 0 && OpenThroughout(fills);
  }

  lemma FlatIffStanding(fills: seq<Fill>)
    requires fills != []
    ensures Exposure(fills) == 0 <==> Standing(fills, |fills|) == 0
  {
    StandingIsExposure(fills, |fills|);
    assert fills[..|fills|] == fills;
  }

  lemma OpenIsOut(fills: seq<Fill>)
    requires PositiveQuantities(fills) && OpenThroughout(fills)
    ensures forall n :: 0 < n < |fills| ==> Standing(fills, n) > 0
  {
    forall n | 0 < n < |fills| ensures Standing(fills, n) > 0 { StandsWhileOpen(fills, n); }
  }

  lemma OutIsOpen(fills: seq<Fill>)
    requires OutAndBack(fills)
    ensures OpenThroughout(fills)
  {
    forall n | 0 < n < |fills| ensures StaysOpen(fills, n) { StandingStaysOpen(fills, n); }
  }

  lemma StandingStaysOpen(fills: seq<Fill>, n: nat)
    requires 0 < n < |fills| && Standing(fills, n) > 0 && (n + 1 == |fills| ==> Standing(fills, n + 1) == 0)
    requires n + 1 < |fills| ==> Standing(fills, n + 1) > 0
    ensures StaysOpen(fills, n)
  {
    OpenIffStanding(fills, n);
  }

  lemma OpenIffStanding(fills: seq<Fill>, n: nat)
    requires 0 < n < |fills| && Standing(fills, n) > 0
    ensures StaysOpen(fills, n) <==> Standing(fills, n + 1) >= 0
  {
    StandingIsExposure(fills, n);
    StandingIsExposure(fills, n + 1);
    var a, b := Exposure(fills[..n]), Exposure(fills[..n + 1]);
    if fills[0].side == BUY { SameSign(a, b); } else { SameSign(-a, b); }
  }

  lemma {:induction false} StandsWhileOpen(fills: seq<Fill>, n: nat)
    requires PositiveQuantities(fills) && 0 < n < |fills| && OpenThroughout(fills)
    ensures Standing(fills, n) > 0
  {
    if n == 1 {
      assert Standing(fills, 1) == Standing(fills, 0) + fills[0].quantity;
    } else {
      StandsWhileOpen(fills, n - 1);
      assert StaysOpen(fills, n - 1) && StaysOpen(fills, n);
      OpenIffStanding(fills, n - 1);
      StandingIsExposure(fills, n);
    }
  }
}
