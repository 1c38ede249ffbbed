/** What a lot's numbers mean in cash, over any run of fills. */
module Accounting {
  import opened Trading
  import opened Fills

  datatype Fill = Entry(price: real, quantity: int) | Exit(price: real, quantity: int)

  function After(lot: Lot, fill: Fill): Lot
    requires lot.entryPrice.Some?
    ensures After(lot, fill).entryPrice.Some?
  {
    if fill.Entry? then EntryInto(lot, fill.price, fill.quantity) else ExitFrom(lot, fill.price, fill.quantity)
  }

  /** A lot from its first fill on. */
  function AfterAll(lot: Lot, fills: seq<Fill>): Lot
    requires lot.entryPrice.Some?
    ensures AfterAll(lot, fills).entryPrice.Some?
  {
    if fills == [] then lot else After(AfterAll(lot, fills[..|fills| - 1]), fills[|fills| - 1])
  }

  function EntryCash(fills: seq<Fill>): real {
    if fills == [] then 0.0
    else EntryCash(fills[..|fills| - 1]) + (var f := fills[|fills| - 1]; CashIn(f))
  }

  function ExitCash(fills: seq<Fill>): real {
    if fills == [] then 0.0
    else ExitCash(fills[..|fills| - 1]) + (var f := fills[|fills| - 1]; CashOut(f))
  }

  function Entered(fills: seq<Fill>): int {
    if fills == [] then 0
    else Entered(fills[..|fills| - 1]) + (var f := fills[|fills| - 1]; if f.Entry? then f.quantity else 0)
  }

  function Exited(fills: seq<Fill>): int {
    if fills == [] then 0
    else Exited(fills[..|fills| - 1]) + (var f := fills[|fills| - 1]; if f.Exit? then f.quantity else 0)
  }

  predicate Positive(fills: seq<Fill>) { forall k :: 0 <= k < |fills| ==> fills[k].quantity > 0 }

  /** The first entry opens the lot. */
  function Opened(instrument: Key, side: Side, first: Fill): Lot { NewLot(instrument, side, first.price, first.quantity) }

  // ---- the ledger against the cash -----------------------------------------------------------------

  /** How far realized plus live P&L at `ltp` is from the cash that changed hands plus the value of
      what remains. */
  function Gap(lot: Lot, entryCash: real, exitCash: real, ltp: real): real {
    lot.realized + LivePnl(lot, ltp) - Sign(lot.side) * (exitCash + ltp * lot.remaining as real - entryCash)
  }

  /** What one fill does to that gap: an entry moves the price at which what was already exited had
      been banked; an exit of more than remains closes units that were never there. */
  function Drift(lot: Lot, fill: Fill): real
    requires lot.entryPrice.Some?
  {
    match fill
    case Entry(price, quantity) =>
      Sign(lot.side) * (lot.entryQuantity - lot.remaining) as real * (After(lot, fill).entryPrice.value - lot.entryPrice.value)
    case Exit(price, quantity) =>
      Sign(lot.side) * lot.entryPrice.value * Min(lot.remaining - quantity, 0) as real
  }

  lemma EntryDrift(lot: Lot, price: real, quantity: int, entryCash: real, exitCash: real, ltp: real)
    requires lot.entryPrice.Some? && lot.entryQuantity + quantity != 0
    ensures Gap(After(lot, Entry(price, quantity)), entryCash + price * quantity as real, exitCash, ltp)
         == Gap(lot, entryCash, exitCash, ltp) + Drift(lot, Entry(price, quantity))
  {
    var p, e, r, q := lot.entryPrice.value, lot.entryQuantity as real, lot.remaining as real, quantity as real;
    var p' := After(lot, Entry(price, quantity)).entryPrice.value;
    assert p' * (e + q) == p * e + price * q;
    assert (ltp - p') * (r + q) == ltp * (r + q) - p' * (r + q);
    assert p' * (r + q) == p' * (e + q) - p' * (e - r);
    assert (ltp - p) * r == ltp * r - p * r;
  }

  lemma ExitDrift(lot: Lot, price: real, quantity: int, entryCash: real, exitCash: real, ltp: real)
    requires lot.entryPrice.Some?
    ensures Gap(After(lot, Exit(price, quantity)), entryCash, exitCash + price * quantity as real, ltp)
         == Gap(lot, entryCash, exitCash, ltp) + Drift(lot, Exit(price, quantity))
  {
    var p, r, q := lot.entryPrice.value, lot.remaining as real, quantity as real;
    var left := Max(lot.remaining - quantity, 0) as real;
    assert (price - p) * q == price * q - p * q;
    assert (ltp - p) * left == ltp * left - p * left;
    assert (ltp - p) * r == ltp * r - p * r;
    assert left == r - q - Min(lot.remaining - quantity, 0) as real;
    assert p * left == p * r - p * q - p * Min(lot.remaining - quantity, 0) as real;
  }

  /** Exactly when a fill keeps the books: an entry when nothing was exited before or it fills at the
      average price, an exit when it is for no more than remains or the entry was free. */
  lemma FillKeepsBooksIff(lot: Lot, fill: Fill)
    requires lot.entryPrice.Some? && fill.quantity > 0 && lot.entryQuantity >= 0
    ensures Drift(lot, fill) == 0.0 <==>
            if fill.Entry? then lot.remaining == lot.entryQuantity || fill.price == lot.entryPrice.value
            else fill.quantity <= lot.remaining || lot.entryPrice.value == 0.0
  {
    if fill.Entry? {
      var p, e, q := lot.entryPrice.value, lot.entryQuantity as real, fill.quantity as real;
      var p' := After(lot, fill).entryPrice.value;
      assert (p' - p) * (e + q) == (fill.price - p) * q;
      assert p' == p <==> fill.price == p;
      ProductIsZeroIff(Sign(lot.side), (lot.entryQuantity - lot.remaining) as real, p' - p);
    } else {
      ProductIsZeroIff(Sign(lot.side), lot.entryPrice.value, Min(lot.remaining - fill.quantity, 0) as real);
    }
  }

  lemma ProductIsZeroIff(a: real, b: real, c: real)
    requires a != 0.0
    ensures a * b * c == 0.0 <==> b == 0.0 || c == 0.0
  {
    if b != 0.0 && c != 0.0 {
      assert a * b != 0.0;
    }
  }

  // ---- every run -----------------------------------------------------------------------------------

  function TotalDrift(lot: Lot, fills: seq<Fill>): real
    requires lot.entryPrice.Some?
  {
    if fills == [] then 0.0
    else TotalDrift(lot, fills[..|fills| - 1]) + Drift(AfterAll(lot, fills[..|fills| - 1]), fills[|fills| - 1])
  }

  /** The entry price is the cash paid in per unit entered. */
  ghost predicate Averages(lot: Lot, paid: real) {
    lot.entryPrice.Some? && lot.entryQuantity > 0 && lot.entryPrice.value * lot.entryQuantity as real == paid
  }

  function CashIn(f: Fill): real { if f.Entry? then f.price * f.quantity as real else 0.0 }

  function CashOut(f: Fill): real { if f.Exit? then f.price * f.quantity as real else 0.0 }

  lemma AverageKept(lot: Lot, fill: Fill, paid: real)
    requires Averages(lot, paid) && fill.quantity > 0
    ensures Averages(After(lot, fill), paid + CashIn(fill))
  {
  }

  /** For every run of fills on a lot the entry price is the entry cash per unit entered. */
  lemma {:induction false} EntryPriceIsAverage(start: Lot, paid: real, fills: seq<Fill>)
    requires Averages(start, paid) && Positive(fills)
    ensures Averages(AfterAll(start, fills), paid + EntryCash(fills))
  {
    if fills != [] {
      var before, f := fills[..|fills| - 1], fills[|fills| - 1];
      EntryPriceIsAverage(start, paid, before);
      AverageKept(AfterAll(start, before), f, paid + EntryCash(before));
      assert EntryCash(fills) == EntryCash(before) + CashIn(f);
    }
  }

  ghost predicate OffBy(lot: Lot, paid: real, got: real, drift: real, ltp: real) {
    Gap(lot, paid, got, ltp) == drift
  }

  lemma GapMoves(lot: Lot, f: Fill, paid: real, got: real, drift: real, ltp: real)
    requires Averages(lot, paid) && OffBy(lot, paid, got, drift, ltp) && f.quantity > 0
    ensures OffBy(After(lot, f), paid + CashIn(f), got + CashOut(f), drift + Drift(lot, f), ltp)
  {
    match f
    case Entry(price, quantity) => EntryDrift(lot, price, quantity, paid, got, ltp);
    case Exit(price, quantity) => ExitDrift(lot, price, quantity, paid, got, ltp);
  }

  /** For every run of fills, realized plus live P&L misses the cash position by exactly the drift of
      its fills. */
  lemma {:induction false} Books(start: Lot, paid: real, fills: seq<Fill>, ltp: real)
    requires Averages(start, paid) && OffBy(start, paid, 0.0, 0.0, ltp) && Positive(fills)
    ensures OffBy(AfterAll(start, fills), paid + EntryCash(fills), ExitCash(fills), TotalDrift(start, fills), ltp)
  {
    if fills != [] {
      var before, f := fills[..|fills| - 1], fills[|fills| - 1];
      Books(start, paid, before, ltp);
      EntryPriceIsAverage(start, paid, before);
      GapMoves(AfterAll(start, before), f, paid + EntryCash(before), ExitCash(before), TotalDrift(start, before), ltp);
      assert EntryCash(fills) == EntryCash(before) + CashIn(f) && ExitCash(fills) == ExitCash(before) + CashOut(f);
      assert TotalDrift(start, fills) == TotalDrift(start, before) + Drift(AfterAll(start, before), f);
    }
  }

  lemma OpeningBalances(instrument: Key, side: Side, first: Fill, ltp: real)
    requires first.Entry? && first.quantity > 0
    ensures Averages(Opened(instrument, side, first), CashIn(first))
    ensures OffBy(Opened(instrument, side, first), CashIn(first), 0.0, 0.0, ltp)
  {
    assert (ltp - first.price) * first.quantity as real == ltp * first.quantity as real - first.price * first.quantity as real;
  }

  predicate EntriesFirst(fills: seq<Fill>) {
    forall j, k :: 0 <= j < k < |fills| && fills[k].Entry? ==> fills[j].Entry?
  }

  /** What is left of a run of entries and then exits that never exits more than is there. */
  lemma {:induction false} DisciplinedRun(instrument: Key, side: Side, first: Fill, fills: seq<Fill>)
    requires first.Entry? && first.quantity > 0 && Positive(fills) && EntriesFirst(fills)
    requires Exited(fills) <= first.quantity + Entered(fills)
    ensures var lot := AfterAll(Opened(instrument, side, first), fills);
            && lot.remaining == first.quantity + Entered(fills) - Exited(fills)
            && lot.entryQuantity == first.quantity + Entered(fills)
            && lot.side == side
            && (lot.open <==> lot.remaining > 0)
            && TotalDrift(Opened(instrument, side, first), fills) == 0.0
  {
    if fills != [] {
      var before, f := fills[..|fills| - 1], fills[|fills| - 1];
      assert EntriesFirst(before);
      if f.Entry? {
        NothingExited(before);
      }
      ExitedIsNatural(before);
      DisciplinedRun(instrument, side, first, before);
      FillKeepsBooksIff(AfterAll(Opened(instrument, side, first), before), f);
    }
  }

  lemma {:induction false} NothingExited(fills: seq<Fill>)
    requires forall k :: 0 <= k < |fills| ==> fills[k].Entry?
    ensures Exited(fills) == 0
  {
    if fills != [] { NothingExited(fills[..|fills| - 1]); }
  }

  lemma {:induction false} ExitedIsNatural(fills: seq<Fill>)
    requires Positive(fills)
    ensures Exited(fills) >= 0 && Entered(fills) >= 0
  {
    if fills != [] { ExitedIsNatural(fills[..|fills| - 1]); }
  }

  /** The accounting identity: for entries and then exits of no more than was entered, realized plus
      live P&L at any price is the exit cash plus the value of what remains less the entry cash,
      with the sign of the lot; the lot is CLOSED exactly when nothing remains. */
  lemma AccountingIdentity(instrument: Key, side: Side, first: Fill, fills: seq<Fill>, ltp: real)
    requires first.Entry? && first.quantity > 0 && Positive(fills) && EntriesFirst(fills)
    requires Exited(fills) <= first.quantity + Entered(fills)
    ensures var lot := AfterAll(Opened(instrument, side, first), fills);
            && Averages(lot, CashIn(first) + EntryCash(fills))
            && lot.remaining == first.quantity + Entered(fills) - Exited(fills)
            && (lot.open <==> lot.remaining != 0)
            && lot.side == side
            && Balanced(lot, CashIn(first) + EntryCash(fills), ExitCash(fills), ltp)
  {
    OpeningBalances(instrument, side, first, ltp);
    EntryPriceIsAverage(Opened(instrument, side, first), CashIn(first), fills);
    Books(Opened(instrument, side, first), CashIn(first), fills, ltp);
    DisciplinedRun(instrument, side, first, fills);
    BalancedBooks(AfterAll(Opened(instrument, side, first), fills), CashIn(first) + EntryCash(fills), ExitCash(fills), ltp);
  }

  /** Realized plus live P&L is what came out plus what remains is worth less what went in. */
  ghost predicate Balanced(lot: Lot, paid: real, got: real, ltp: real) {
    lot.realized + LivePnl(lot, ltp) == Sign(lot.side) * (got + ltp * lot.remaining as real - paid)
  }

  lemma BalancedBooks(lot: Lot, paid: real, got: real, ltp: real)
    ensures OffBy(lot, paid, got, 0.0, ltp) <==> Balanced(lot, paid, got, ltp)
  {
  }

  /** For any run at all the identity holds exactly when the drifts of its fills cancel out. */
  lemma BalancedIffNoDrift(instrument: Key, side: Side, first: Fill, fills: seq<Fill>, ltp: real)
    requires first.Entry? && first.quantity > 0 && Positive(fills)
    ensures Balanced(AfterAll(Opened(instrument, side, first), fills), CashIn(first) + EntryCash(fills), ExitCash(fills), ltp)
            <==> TotalDrift(Opened(instrument, side, first), fills) == 0.0
  {
    OpeningBalances(instrument, side, first, ltp);
    Books(Opened(instrument, side, first), CashIn(first), fills, ltp);
    BalancedBooks(AfterAll(Opened(instrument, side, first), fills), CashIn(first) + EntryCash(fills), ExitCash(fills), ltp);
  }

  /** Something remained after every fill so far. */
  predicate NeverEmptied(lot: Lot, fills: seq<Fill>)
    requires lot.entryPrice.Some?
  {
    AfterAll(lot, fills).remaining > 0 && (fills == [] || NeverEmptied(lot, fills[..|fills| - 1]))
  }

  /** In any run a lot is OPEN exactly as long as it was never emptied: one that was once closed
      stays CLOSED even when a later entry gives it something to hold. */
  lemma {:induction false} OpenIffNeverEmptied(lot: Lot, fills: seq<Fill>)
    requires lot.entryPrice.Some? && lot.open && lot.remaining > 0 && Positive(fills)
    ensures AfterAll(lot, fills).open <==> NeverEmptied(lot, fills)
    ensures AfterAll(lot, fills).remaining >= 0
  {
    if fills != [] {
      OpenIffNeverEmptied(lot, fills[..|fills| - 1]);
    }
  }
}
