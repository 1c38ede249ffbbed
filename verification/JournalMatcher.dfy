/** Matching a session's fills into round trips: flat-to-flat sequences of one instrument. */
module JournalMatcher {
  import opened Trading

  /** Fill ids matter by equality and order only; `at` is the execution time, `date` the trading date. */
  datatype Fill = Fill(id: nat, instrument: Key, side: Side, quantity: int, price: real, at: int, charges: real, date: int)

  datatype Role = ENTRY | EXIT

  datatype Allocation = Allocation(fill: nat, role: Role, quantity: int)

  /** The hash of a trade's sorted allocations stands for the allocations themselves. */
  type Fingerprint = set<Allocation>

  datatype RoundTrip = RoundTrip(
    fingerprint: Fingerprint,
    instrument: Key,
    direction: Side,
    quantity: int,
    entryPrice: real,
    exitPrice: real,
    openedAt: int,
    closedAt: int,
    gross: real,
    charges: real
  )

  // ---- exposure ----------------------------------------------------------------------------------

  function SignedQuantity(f: Fill): int { Signed(f.side, f.quantity) }

  function Exposure(fills: seq<Fill>): int {
    if fills == [] then 0 else Exposure(fills[..|fills| - 1]) + SignedQuantity(fills[|fills| - 1])
  }

  predicate Opposed(a: int, b: int) { a * b < 0 }

  /** From `i` fills on to the next the position neither is flat nor turns round. */
  predicate StaysOpen(fills: seq<Fill>, i: nat)
    requires i < |fills|
  {
    Exposure(fills[..i]) != 0 && !Opposed(Exposure(fills[..i]), Exposure(fills[..i + 1]))
  }

  /** Starts and ends flat, is never flat in between, and never turns from long to short or back. */
  predicate IsRoundTrip(fills: seq<Fill>) {
    fills != [] && Exposure(fills) == 0 && forall i :: 0 < i < |fills| ==> StaysOpen(fills, i)
  }

  // ---- segments ----------------------------------------------------------------------------------

  /** The length of the shortest round trip from `n` fills on that `fills` starts with; 0 if none. */
  function TripLength(fills: seq<Fill>, n: nat): (r: nat)
    requires 0 < n
    ensures r <= |fills| && (r != 0 ==> n <= r)
    decreases |fills| - n
  {
    if n > |fills| then 0 else if IsRoundTrip(fills[..n]) then n else TripLength(fills, n + 1)
  }

  lemma {:induction false} TripLengthIsLeast(fills: seq<Fill>, n: nat)
    requires 0 < n
    ensures var r := TripLength(fills, n);
            && (r != 0 ==> IsRoundTrip(fills[..r]))
            && (forall m :: n <= m <= |fills| && (r == 0 || m < r) ==> !IsRoundTrip(fills[..m]))
    decreases |fills| - n
  {
    if n <= |fills| && !IsRoundTrip(fills[..n]) { TripLengthIsLeast(fills, n + 1); }
  }

  /** The round trips `fills` begins with, one after the other, as long as there are any. */
  function Segments(fills: seq<Fill>): seq<seq<Fill>>
    decreases |fills|
  {
    var n := TripLength(fills, 1);
    if n == 0 then [] else [fills[..n]] + Segments(fills[n..])
  }

  function Flat(segments: seq<seq<Fill>>): seq<Fill> {
    if segments == [] then [] else segments[0] + Flat(segments[1..])
  }

  // ---- the trade of a segment --------------------------------------------------------------------

  function Quantity(fills: seq<Fill>, side: Side): int {
    if fills == [] then 0
    else Quantity(fills[..|fills| - 1], side) + (var f := fills[|fills| - 1]; if f.side == side then f.quantity else 0)
  }

  function Cash(fills: seq<Fill>, side: Side): real {
    if fills == [] then 0.0
    else Cash(fills[..|fills| - 1], side) + (var f := fills[|fills| - 1]; if f.side == side then f.quantity as real * f.price else 0.0)
  }

  function Charges(fills: seq<Fill>): real {
    if fills == [] then 0.0 else Charges(fills[..|fills| - 1]) + fills[|fills| - 1].charges
  }

  predicate Trades(fills: seq<Fill>, side: Side) { exists i :: 0 <= i < |fills| && fills[i].side == side }

  /** A segment with something entered and something exited becomes a trade. */
  predicate IsTrade(fills: seq<Fill>) {
    && fills != []
    && Quantity(fills, fills[0].side) > 0
    && Trades(fills, Opposite(fills[0].side))
    && Quantity(fills, Opposite(fills[0].side)) != 0
  }

  function RoleOf(f: Fill, entrySide: Side): Role { if f.side == entrySide then ENTRY else EXIT }

  function FingerprintOf(fills: seq<Fill>): Fingerprint {
    set i | 0 <= i < |fills| :: Allocation(fills[i].id, RoleOf(fills[i], fills[0].side), fills[i].quantity)
  }

  function TradeOf(fills: seq<Fill>): RoundTrip
    requires IsTrade(fills)
  {
    var side := fills[0].side;
    var quantity := Quantity(fills, side);
    var entryPrice := Cash(fills, side) / quantity as real;
    var exitPrice := Cash(fills, Opposite(side)) / Quantity(fills, Opposite(side)) as real;
    RoundTrip(FingerprintOf(fills), fills[0].instrument, side, quantity, entryPrice, exitPrice, fills[0].at, fills[|fills| - 1].at,
              (exitPrice - entryPrice) * quantity as real * Sign(side), Charges(fills))
  }

  /** The trades of the segments that make one. */
  function TradesOf(segments: seq<seq<Fill>>): seq<RoundTrip> {
    if segments == [] then []
    else TradesOf(segments[..|segments| - 1]) + (var s := segments[|segments| - 1]; if IsTrade(s) then [TradeOf(s)] else [])
  }

  // ---- the loop ------------------------------------------------------------------------------------

  /** Totals of one sequence, as the loop adds them up. */
  method Totals(fills: seq<Fill>, side: Side) returns (quantity: int, cash: real, charges: real, count: nat)
    ensures quantity == Quantity(fills, side) && cash == Cash(fills, side) && charges == Charges(fills)
    ensures count > 0 <==> Trades(fills, side)
  {
    quantity, cash, charges, count := 0, 0.0, 0.0, 0;
    for i := 0 to |fills|
      invariant quantity == Quantity(fills[..i], side) && cash == Cash(fills[..i], side) && charges == Charges(fills[..i])
      invariant count > 0 <==> exists j :: 0 <= j < i && fills[j].side == side
    {
      assert fills[..i + 1][..i] == fills[..i];
      if fills[i].side == side {
        quantity, cash, count := quantity + fills[i].quantity, cash + fills[i].quantity as real * fills[i].price, count + 1;
      }
      charges := charges + fills[i].charges;
    }
    assert fills[..|fills|] == fills;
  }

  /** The trade a flat sequence makes, if it makes one. */
  method Close(sequence: seq<Fill>) returns (trade: Option<RoundTrip>)
    requires sequence != [] && Exposure(sequence) == 0
    ensures trade == if IsTrade(sequence) then Some(TradeOf(sequence)) else None
  {
    ExposureIsBalance(sequence);
    var side := sequence[0].side;
    var quantity, entryCash, charges, _ := Totals(sequence, side);
    var exitQuantity, exitCash, _, exits := Totals(sequence, Opposite(side));
    if quantity <= 0 || exits == 0 {
      return None;
    }
    var entryPrice := entryCash / quantity as real;
    var exitPrice := exitCash / exitQuantity as real;
    var gross := (exitPrice - entryPrice) * quantity as real * (if side == BUY then 1.0 else -1.0);
    assert Sign(side) == if side == BUY then 1.0 else -1.0;
    var allocations := {};
    for i := 0 to |sequence|
      invariant allocations == set j | 0 <= j < i :: Allocation(sequence[j].id, RoleOf(sequence[j], side), sequence[j].quantity)
    {
      allocations := allocations + {Allocation(sequence[i].id, if sequence[i].side == side then ENTRY else EXIT, sequence[i].quantity)};
    }
    assert allocations == FingerprintOf(sequence);
    ghost var t := TradeOf(sequence);
    assert t.exitPrice == exitPrice && t.gross == gross;
    trade := Some(RoundTrip(allocations, sequence[0].instrument, side, quantity, entryPrice, exitPrice,
                            sequence[0].at, sequence[|sequence| - 1].at, gross, charges));
  }

  /** `_match_round_trips`. */
  method MatchRoundTrips(fills: seq<Fill>) returns (results: seq<RoundTrip>)
    ensures results == TradesOf(Segments(fills))
  {
    results := [];
    var sequence, exposure := [], 0;
    ghost var start, done := 0, [];
    for k := 0 to |fills|
      invariant Scanned(fills, start, k, sequence, exposure, done) && results == TradesOf(done)
    {
      var signed := if fills[k].side == BUY then fills[k].quantity else -fills[k].quantity;
      if exposure != 0 && Opposed(exposure, exposure + signed) {
        // a fill that would turn the position round: nothing from here on is matched
        ScanTurns(fills, start, k, sequence, exposure, done);
        return;
      }
      ScanGoesOn(fills, start, k, sequence, exposure, done);
      sequence := sequence + [fills[k]];
      exposure := exposure + signed;
      if exposure == 0 {
        var trade := Close(sequence);
        results := results + if trade.Some? then [trade.value] else [];
        TradesOfMore(done, sequence);
        done, start := done + [sequence], k + 1;
        sequence := [];
      }
    }
    ScanEnds(fills, start, sequence, exposure, done);
  }

  /** Open all through the first `n` fills. */
  ghost predicate OpenFor(fills: seq<Fill>, n: nat)
    requires n <= |fills|
  {
    forall i :: 0 < i < n ==> StaysOpen(fills, i)
  }

  /** After `k` fills: everything up to `start` is cut into segments, and `sequence` is open since. */
  ghost predicate Scanned(fills: seq<Fill>, start: int, k: int, sequence: seq<Fill>, exposure: int, done: seq<seq<Fill>>) {
    && 0 <= start <= k <= |fills| && sequence == fills[start..k] && exposure == Exposure(sequence)
    && Tiled(fills[..start], done)
    && OpenFor(fills[start..], k - start)
    && (start < k <==> exposure != 0)
  }

  /** `fills` are round trips one after the other. */
  ghost predicate Tiled(fills: seq<Fill>, segments: seq<seq<Fill>>) {
    fills == Flat(segments) && forall i :: 0 <= i < |segments| ==> IsRoundTrip(segments[i])
  }

  lemma {:induction false} FlatMore(segments: seq<seq<Fill>>, segment: seq<Fill>)
    ensures Flat(segments + [segment]) == Flat(segments) + segment
  {
    if segments == [] {
      assert [segment][1..] == [];
    } else {
      assert (segments + [segment])[1..] == segments[1..] + [segment];
      FlatMore(segments[1..], segment);
    }
  }

  /** Tiles with nothing more to find after them are the segments. */
  lemma TiledIsSegments(fills: seq<Fill>, start: nat, done: seq<seq<Fill>>)
    requires start <= |fills| && Tiled(fills[..start], done) && TripLength(fills[start..], 1) == 0
    ensures Segments(fills) == done
  {
    var rest := SegmentsMatch(fills);
    TripLengthIsLeast(fills[start..], 1);
    assert fills == fills[..start] + fills[start..];
    MatchingIsUnique(fills, done, fills[start..], Segments(fills), rest);
  }

  lemma ScanTurns(fills: seq<Fill>, start: int, k: int, sequence: seq<Fill>, exposure: int, done: seq<seq<Fill>>)
    requires k < |fills| && Scanned(fills, start, k, sequence, exposure, done)
    requires exposure != 0 && Opposed(exposure, exposure + SignedQuantity(fills[k]))
    ensures Segments(fills) == done
  {
    NextFill(fills, start, k);
    NoTripAfterTurn(fills[start..], k - start);
    TiledIsSegments(fills, start, done);
  }

  lemma ScanEnds(fills: seq<Fill>, start: int, sequence: seq<Fill>, exposure: int, done: seq<seq<Fill>>)
    requires Scanned(fills, start, |fills|, sequence, exposure, done)
    ensures Segments(fills) == done
  {
    assert sequence == fills[start..];
    NoTripWhileOpen(fills[start..]);
    TiledIsSegments(fills, start, done);
  }

  lemma ScanGoesOn(fills: seq<Fill>, start: int, k: int, sequence: seq<Fill>, exposure: int, done: seq<seq<Fill>>)
    requires 0 <= k < |fills| && Scanned(fills, start, k, sequence, exposure, done)
    requires exposure == 0 || !Opposed(exposure, exposure + SignedQuantity(fills[k]))
    ensures var longer, next := sequence + [fills[k]], exposure + SignedQuantity(fills[k]);
            if next != 0 then Scanned(fills, start, k + 1, longer, next, done)
            else Scanned(fills, k + 1, k + 1, [], 0, done + [longer]) && Exposure(longer) == 0
  {
    NextFill(fills, start, k);
    if exposure + SignedQuantity(fills[k]) == 0 { ScanCloses(fills, start, k, sequence + [fills[k]], done); }
  }

  lemma ScanCloses(fills: seq<Fill>, start: nat, k: nat, longer: seq<Fill>, done: seq<seq<Fill>>)
    requires start <= k < |fills| && longer == fills[start..k + 1] && Exposure(longer) == 0
    requires Tiled(fills[..start], done) && OpenFor(fills[start..], k - start + 1)
    ensures Tiled(fills[..k + 1], done + [longer])
  {
    assert fills[start..][..k - start + 1] == longer;
    forall i | 0 < i < |longer| ensures StaysOpen(longer, i) { OpenPrefix(fills[start..], k - start + 1, i); }
    FlatMore(done, longer);
    assert fills[..k + 1] == fills[..start] + longer;
  }

  lemma NextFill(fills: seq<Fill>, start: nat, k: nat)
    requires start <= k < |fills| && OpenFor(fills[start..], k - start)
    ensures fills[start..][..k - start] == fills[start..k] && fills[start..][..k - start + 1] == fills[start..k + 1]
    ensures fills[start..k + 1] == fills[start..k] + [fills[k]]
    ensures Exposure(fills[start..k + 1]) == Exposure(fills[start..k]) + SignedQuantity(fills[k])
    ensures (start < k ==> Exposure(fills[start..k]) != 0 && !Opposed(Exposure(fills[start..k]), Exposure(fills[start..k + 1])))
            ==> OpenFor(fills[start..], k - start + 1)
  {
  }

  lemma TradesOfMore(done: seq<seq<Fill>>, segment: seq<Fill>)
    ensures TradesOf(done + [segment]) == TradesOf(done) + if IsTrade(segment) then [TradeOf(segment)] else []
  {
  }

  /** Being open up to `n` fills is all about the first `n` fills. */
  lemma OpenPrefix(fills: seq<Fill>, n: nat, i: nat)
    requires i < n <= |fills|
    ensures StaysOpen(fills[..n], i) == StaysOpen(fills, i)
  {
    assert fills[..n][..i] == fills[..i] && fills[..n][..i + 1] == fills[..i + 1];
  }

  lemma NoTripAfterTurn(fills: seq<Fill>, n: nat)
    requires 0 < n < |fills| && Opposed(Exposure(fills[..n]), Exposure(fills[..n + 1]))
    requires OpenFor(fills, n)
    ensures TripLength(fills, 1) == 0
  {
    TripLengthIsLeast(fills, 1);
    forall m | 0 < m <= |fills| ensures !IsRoundTrip(fills[..m]) {
      if m <= n { NoTripWithin(fills, n, m); } else { NoTripBeyond(fills, n, m); }
    }
  }

  lemma NoTripWithin(fills: seq<Fill>, n: nat, m: nat)
    requires 0 < m <= n < |fills| && OpenFor(fills, n) && Exposure(fills[..n]) != 0
    ensures !IsRoundTrip(fills[..m])
  {
    if m < n { assert StaysOpen(fills, m); }
  }

  lemma NoTripBeyond(fills: seq<Fill>, n: nat, m: nat)
    requires 0 < n < m <= |fills| && !StaysOpen(fills, n)
    ensures !IsRoundTrip(fills[..m])
  {
    OpenPrefix(fills, m, n);
  }

  lemma NoTripWhileOpen(fills: seq<Fill>)
    requires OpenFor(fills, |fills|)
    requires fills != [] ==> Exposure(fills) != 0
    ensures TripLength(fills, 1) == 0
  {
    TripLengthIsLeast(fills, 1);
    forall m | 0 < m <= |fills| ensures !IsRoundTrip(fills[..m]) {
      if m < |fills| { assert StaysOpen(fills, m); } else { assert fills[..m] == fills; }
    }
  }

  // ---- conservation --------------------------------------------------------------------------------

  lemma {:induction false} ExposureIsBalance(fills: seq<Fill>)
    ensures Exposure(fills) == Quantity(fills, BUY) - Quantity(fills, SELL)
  {
    if fills != [] { ExposureIsBalance(fills[..|fills| - 1]); }
  }

  predicate PositiveQuantities(fills: seq<Fill>) { forall i :: 0 <= i < |fills| ==> fills[i].quantity > 0 }

  lemma {:induction false} QuantityIsPositive(fills: seq<Fill>, side: Side)
    requires PositiveQuantities(fills)
    ensures Quantity(fills, side) >= 0 && (Trades(fills, side) ==> Quantity(fills, side) > 0)
  {
    if fills != [] {
      QuantityIsPositive(fills[..|fills| - 1], side);
      if Trades(fills, side) && fills[|fills| - 1].side != side {
        var i :| 0 <= i < |fills| && fills[i].side == side;
        assert fills[..|fills| - 1][i].side == side;
      }
    }
  }

  /** A flat sequence of positive fills enters and exits the same quantity, so it makes a trade. */
  lemma BalancedQuantities(fills: seq<Fill>)
    requires fills != [] && Exposure(fills) == 0 && PositiveQuantities(fills)
    ensures Quantity(fills, BUY) == Quantity(fills, SELL) > 0
    ensures IsTrade(fills)
  {
    ExposureIsBalance(fills);
    QuantityIsPositive(fills, fills[0].side);
    assert Trades(fills, fills[0].side);
    if !Trades(fills, Opposite(fills[0].side)) { NoQuantity(fills, Opposite(fills[0].side)); }
  }

  lemma {:induction false} NoQuantity(fills: seq<Fill>, side: Side)
    requires !Trades(fills, side)
    ensures Quantity(fills, side) == 0
  {
    if fills != [] {
      assert forall i :: 0 <= i < |fills| - 1 ==> fills[..|fills| - 1][i] == fills[i];
      assert fills[|fills| - 1].side != side;
      NoQuantity(fills[..|fills| - 1], side);
    }
  }

  /** Round-trip conservation: every round trip of positive quantities is a trade; what a trade entered
      it exited, and its gross P&L is the cash it sold for less the cash it bought for. */
  lemma GrossIsCashFlow(fills: seq<Fill>)
    requires IsRoundTrip(fills)
    ensures PositiveQuantities(fills) ==> IsTrade(fills)
    ensures IsTrade(fills) ==> TradeOf(fills).quantity == Quantity(fills, BUY) == Quantity(fills, SELL)
    ensures IsTrade(fills) ==> TradeOf(fills).gross == Cash(fills, SELL) - Cash(fills, BUY)
  {
    if PositiveQuantities(fills) { BalancedQuantities(fills); }
    if IsTrade(fills) { TradeIsCashFlow(fills); }
  }

  lemma TradeIsCashFlow(fills: seq<Fill>)
    requires IsTrade(fills) && Exposure(fills) == 0
    ensures TradeOf(fills).quantity == Quantity(fills, BUY) == Quantity(fills, SELL)
    ensures TradeOf(fills).gross == Cash(fills, SELL) - Cash(fills, BUY)
  {
    ExposureIsBalance(fills);
    var side := fills[0].side;
    var q, entry, exit := Quantity(fills, side) as real, Cash(fills, side), Cash(fills, Opposite(side));
    assert (exit / q - entry / q) * q == exit - entry;
  }

  // ---- what matching means ---------------------------------------------------------------------------

  /** `fills` are the segments one after the other and then a rest; every segment is a round trip, and
      the rest does not start with one. */
  ghost predicate IsMatching(fills: seq<Fill>, segments: seq<seq<Fill>>, rest: seq<Fill>) {
    && fills == Flat(segments) + rest
    && (forall i :: 0 <= i < |segments| ==> IsRoundTrip(segments[i]))
    && (forall m :: 0 < m <= |rest| ==> !IsRoundTrip(rest[..m]))
  }

  /** The segments found are consecutive round trips, and no more could be found. */
  lemma {:induction false} SegmentsMatch(fills: seq<Fill>) returns (rest: seq<Fill>)
    ensures IsMatching(fills, Segments(fills), rest)
    decreases |fills|
  {
    var n := TripLength(fills, 1);
    TripLengthIsLeast(fills, 1);
    if n == 0 {
      rest := fills;
      assert Flat([]) + fills == fills;
    } else {
      rest := SegmentsMatch(fills[n..]);
      var more := Segments(fills[n..]);
      assert ([fills[..n]] + more)[1..] == more;
      assert fills == fills[..n] + (Flat(more) + rest);
    }
  }

  /** No round trip is a proper beginning of another. */
  lemma NotShorter(fills: seq<Fill>, m: nat, n: nat)
    requires 0 < m < n <= |fills| && IsRoundTrip(fills[..n])
    ensures !IsRoundTrip(fills[..m])
  {
    OpenPrefix(fills, n, m);
    assert fills[..n][..m] == fills[..m];
  }

  lemma TripsDoNotNest(fills: seq<Fill>, m: nat, n: nat)
    requires m <= |fills| && n <= |fills| && IsRoundTrip(fills[..m]) && IsRoundTrip(fills[..n])
    ensures m == n
  {
    if m < n { NotShorter(fills, m, n); }
    if n < m { NotShorter(fills, n, m); }
  }

  lemma FirstSegment(fills: seq<Fill>, segments: seq<seq<Fill>>, rest: seq<Fill>)
    requires IsMatching(fills, segments, rest) && segments != []
    ensures 0 < |segments[0]| <= |fills| && fills[..|segments[0]|] == segments[0] && IsRoundTrip(fills[..|segments[0]|])
    ensures IsMatching(fills[|segments[0]|..], segments[1..], rest)
  {
  }

  /** And there is only one such way to cut the fills up. */
  lemma {:induction false} MatchingIsUnique(fills: seq<Fill>, a: seq<seq<Fill>>, restA: seq<Fill>, b: seq<seq<Fill>>, restB: seq<Fill>)
    requires IsMatching(fills, a, restA) && IsMatching(fills, b, restB)
    ensures a == b && restA == restB
    decreases |a|
  {
    assert a == [] ==> fills == restA;
    assert b == [] ==> fills == restB;
    if a != [] { FirstSegment(fills, a, restA); }
    if b != [] { FirstSegment(fills, b, restB); }
    if a != [] && b != [] {
      TripsDoNotNest(fills, |a[0]|, |b[0]|);
      MatchingIsUnique(fills[|a[0]|..], a[1..], restA, b[1..], restB);
      assert a == [a[0]] + a[1..] && b == [b[0]] + b[1..];
    }
  }

  // ---- stability -------------------------------------------------------------------------------------

  lemma TripLengthStable(fills: seq<Fill>, later: seq<Fill>)
    requires TripLength(fills, 1) != 0
    ensures TripLength(fills + later, 1) == TripLength(fills, 1)
  {
    var n := TripLength(fills, 1);
    assert (fills + later)[..n] == fills[..n];
    var r := TripLength(fills + later, 1);
    TripLengthIsLeast(fills, 1);
    TripLengthIsLeast(fills + later, 1);
    if r != 0 { TripsDoNotNest(fills + later, n, r); }
  }

  /** Later fills never change what earlier ones were matched into. */
  lemma {:induction false} MatchIsStable(fills: seq<Fill>, later: seq<Fill>)
    ensures Segments(fills) <= Segments(fills + later)
    decreases |fills|
  {
    var n := TripLength(fills, 1);
    if n != 0 {
      TripLengthStable(fills, later);
      assert (fills + later)[n..] == fills[n..] + later && (fills + later)[..n] == fills[..n];
      MatchIsStable(fills[n..], later);
    }
  }
}
