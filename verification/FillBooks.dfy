/** What the lots of a whole run mean in cash: the books of every lot, in terms of the broker orders
    whose fills were logged for it. */
module FillBooks {
  import opened Trading
  import opened Fills
  import opened Accounting
  import opened FillMachine
  import opened FillSafety
  import opened FillTheorems

  /** A logged fill as an entry or an exit. */
  function AsFill(a: Applied): Fill
    requires Fillable(a.order)
  {
    if a.role == ENTRY then Entry(a.order.averagePrice.value, a.order.filled) else Exit(a.order.averagePrice.value, a.order.filled)
  }

  /** The fills logged for one lot, in order. */
  function FillsOf(log: seq<Applied>, lot: Id): seq<Fill> {
    if log == [] then []
    else
      var a := log[|log| - 1];
      FillsOf(log[..|log| - 1], lot) + if a.lot == lot && Fillable(a.order) then [AsFill(a)] else []
  }

  /** Every logged fill could be applied when its turn came. */
  ghost predicate AllApply(lots: map<Id, Lot>, log: seq<Applied>) {
    log == [] || (AllApply(lots, log[..|log| - 1]) && CanApply(Replay(lots, log[..|log| - 1]), log[|log| - 1]))
  }

  /** The lot is what its own fills make of it, the first being the entry that opened it. */
  ghost predicate IsMadeOf(lot: Lot, fills: seq<Fill>) {
    && fills != [] && fills[0].Entry? && fills[0].quantity > 0 && Positive(fills[1..])
    && lot.(bracket := NO_BRACKET) == AfterAll(Opened(lot.instrument, lot.side, fills[0]), fills[1..])
  }

  lemma OneMoreFill(lot: Lot, fills: seq<Fill>, fill: Fill)
    requires IsMadeOf(lot, fills) && fill.quantity > 0 && lot.entryPrice.Some?
    ensures IsMadeOf(After(lot, fill), fills + [fill])
  {
    var rest := fills[1..];
    assert (fills + [fill])[1..] == rest + [fill];
    assert (rest + [fill])[..|rest|] == rest;
    AfterIgnoresBracket(lot, fill);
  }

  lemma AfterIgnoresBracket(lot: Lot, fill: Fill)
    requires lot.entryPrice.Some?
    ensures After(lot, fill).(bracket := NO_BRACKET) == After(lot.(bracket := NO_BRACKET), fill)
    ensures After(lot, fill).instrument == lot.instrument && After(lot, fill).side == lot.side
  {
    if fill.Entry? {
      assert EntryInto(lot, fill.price, fill.quantity).entryPrice == Some(Average(lot.entryPrice.value, lot.entryQuantity, fill.price, fill.quantity));
    }
  }

  /** Starting without lots, every lot is made of the fills logged for it. */
  lemma {:induction false} LotsAreMadeOfFills(log: seq<Applied>, lot: Id)
    requires AllApply(map[], log)
    ensures lot in Replay(map[], log) <==> FillsOf(log, lot) != []
    ensures lot in Replay(map[], log) ==> Replay(map[], log)[lot].entryPrice.Some? && IsMadeOf(Replay(map[], log)[lot], FillsOf(log, lot))
  {
    if log != [] {
      var front, a := log[..|log| - 1], log[|log| - 1];
      var before := Replay(map[], front);
      LotsAreMadeOfFills(front, lot);
      if a.lot == lot {
        if lot in before {
          assert LotAfter(before, a) == After(before[lot], AsFill(a));
          assert FillsOf(log, lot) == FillsOf(front, lot) + [AsFill(a)];
          OneMoreFill(before[lot], FillsOf(front, lot), AsFill(a));
        } else {
          assert a.role == ENTRY && FillsOf(log, lot) == [AsFill(a)];
          FirstFill(a);
        }
      } else {
        assert FillsOf(log, lot) == FillsOf(front, lot);
      }
    }
  }

  lemma FirstFill(a: Applied)
    requires Fillable(a.order) && a.role == ENTRY
    ensures IsMadeOf(NewLot(a.order.instrument, a.order.side, a.order.averagePrice.value, a.order.filled).(bracket := a.bracket), [AsFill(a)])
  {
    assert [AsFill(a)][1..] == [];
  }

  lemma {:induction false} RunsApply(lots: map<Id, Lot>, s: State, steps: seq<Step>)
    requires s.lots == Replay(lots, s.applied) && AllApply(lots, s.applied)
    ensures AllApply(lots, Run(s, steps).applied)
    decreases |steps|
  {
    if steps != [] {
      var fill := FillIn(s, steps[0]);
      StepAppliesOneFill(s, steps[0]);
      ApplyIfReplays(lots, s, fill);
      if fill.Some? && CanApply(s.lots, fill.value) { assert (s.applied + [fill.value])[..|s.applied|] == s.applied; }
      RunsApply(lots, Next(s, steps[0]), steps[1..]);
    }
  }

  /** The books of every lot of every run: its entry price is the cash its logged entries paid per unit,
      and realized plus live P&L misses the cash of its logged fills by exactly their drift. */
  lemma BooksOfEveryLot(steps: seq<Step>, lot: Id, ltp: real)
    requires lot in Run(Initial(map[]), steps).lots
    ensures var s := Run(Initial(map[]), steps);
            var it, fills := s.lots[lot], FillsOf(s.applied, lot);
            && IsMadeOf(it, fills)
            && Averages(it, CashIn(fills[0]) + EntryCash(fills[1..]))
            && OffBy(it, CashIn(fills[0]) + EntryCash(fills[1..]), ExitCash(fills[1..]),
                     TotalDrift(Opened(it.instrument, it.side, fills[0]), fills[1..]), ltp)
  {
    var s := Run(Initial(map[]), steps);
    LotsAreSerial(map[], Initial(map[]), steps);
    RunsApply(map[], Initial(map[]), steps);
    LotsAreMadeOfFills(s.applied, lot);
    BooksOfFills(s.lots[lot], FillsOf(s.applied, lot), ltp);
  }

  lemma BooksOfFills(lot: Lot, fills: seq<Fill>, ltp: real)
    requires IsMadeOf(lot, fills)
    ensures Averages(lot, CashIn(fills[0]) + EntryCash(fills[1..]))
    ensures OffBy(lot, CashIn(fills[0]) + EntryCash(fills[1..]), ExitCash(fills[1..]),
                  TotalDrift(Opened(lot.instrument, lot.side, fills[0]), fills[1..]), ltp)
  {
    var start, rest := Opened(lot.instrument, lot.side, fills[0]), fills[1..];
    OpeningBalances(lot.instrument, lot.side, fills[0], ltp);
    EntryPriceIsAverage(start, CashIn(fills[0]), rest);
    Books(start, CashIn(fills[0]), rest, ltp);
    BracketIsNoMoney(lot, CashIn(fills[0]) + EntryCash(rest), ExitCash(rest), TotalDrift(start, rest), ltp);
  }

  lemma BracketIsNoMoney(lot: Lot, paid: real, got: real, drift: real, ltp: real)
    ensures Averages(lot.(bracket := NO_BRACKET), paid) ==> Averages(lot, paid)
    ensures OffBy(lot.(bracket := NO_BRACKET), paid, got, drift, ltp) ==> OffBy(lot, paid, got, drift, ltp)
  {
  }

  /** The accounting identity over runs: in every hazard-free run, a lot whose logged fills are entries
      and then exits of no more than was entered has realized plus live P&L equal to the cash of those
      fills plus the value of what remains; and each of those fills is a different order of the broker's. */
  lemma CalmLotsBalance(steps: seq<Step>, lot: Id, ltp: real)
    requires Calm(Initial(map[]), steps) && lot in Run(Initial(map[]), steps).lots
    requires var fills := FillsOf(Run(Initial(map[]), steps).applied, lot);
             fills != [] && EntriesFirst(fills[1..]) && Exited(fills[1..]) <= fills[0].quantity + Entered(fills[1..])
    ensures var s := Run(Initial(map[]), steps);
            var it, fills := s.lots[lot], FillsOf(s.applied, lot);
            && Balanced(it, CashIn(fills[0]) + EntryCash(fills[1..]), ExitCash(fills[1..]), ltp)
            && it.remaining == fills[0].quantity + Entered(fills[1..]) - Exited(fills[1..])
            && (it.open <==> it.remaining != 0)
            && (forall o :: Times(s.applied, o) <= 1) && LogIsTrue(s)
  {
    var s := Run(Initial(map[]), steps);
    AtMostOnce(map[], steps);
    BooksOfEveryLot(steps, lot, ltp);
    var it, fills := s.lots[lot], FillsOf(s.applied, lot);
    DisciplinedRun(it.instrument, it.side, fills[0], fills[1..]);
    BalancedBooks(it, CashIn(fills[0]) + EntryCash(fills[1..]), ExitCash(fills[1..]), ltp);
  }
}
