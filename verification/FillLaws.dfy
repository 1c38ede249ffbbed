/** What an order placed outside the engine does to the lots, said by signed quantities: a buy adds to
    what is long and takes off what is short, a sell the other way round. */
module FillLaws {
  import opened Trading
  import opened Fills
  import opened FillMachine
  import opened FillTheorems

  // ---- open lots have something left ----------------------------------------------------------------

  ghost predicate OpenLotsRemain(lots: map<Id, Lot>) { forall l :: l in lots && lots[l].open ==> lots[l].remaining > 0 }

  lemma ApplyKeepsRemaining(s: State, a: Applied)
    requires OpenLotsRemain(s.lots)
    ensures OpenLotsRemain(Apply(s, a).lots)
  {
  }

  lemma StepKeepsRemaining(s: State, e: Step)
    requires OpenLotsRemain(s.lots)
    ensures OpenLotsRemain(Next(s, e).lots)
  {
    match e
    case Process(t, newLot, targetRule, stopRule) =>
      if t in s.tasks && s.tasks[t].Fetched? && newLot !in s.lots { ProcessKeepsRemaining(s, t, newLot, targetRule, stopRule); }
    case ProcessRaised(t, newLot, targetRule, stopRule, failure) =>
      if t in s.tasks { FillKeepsRemaining(s, WrittenFill(s, s.tasks[t], newLot, targetRule, stopRule, failure)); }
    case Resolve(order, lot) => if order in s.pending { ApplyKeepsRemaining(s, ResolvedFill(s, order, lot)); }
    case ResolveRaised(order, lot, _) => if order in s.pending { ApplyKeepsRemaining(s, ResolvedFill(s, order, lot)); }
    case _ =>
  }

  lemma ProcessKeepsRemaining(s: State, t: nat, newLot: Id, targetRule: Id, stopRule: Id)
    requires OpenLotsRemain(s.lots) && t in s.tasks && s.tasks[t].Fetched? && newLot !in s.lots
    ensures OpenLotsRemain(ProcessStep(s, t, newLot, targetRule, stopRule).lots)
  {
    ProcessAppliesOneFill(s, t, newLot, targetRule, stopRule);
    FillKeepsRemaining(s, FillIn(s, Process(t, newLot, targetRule, stopRule)));
  }

  lemma FillKeepsRemaining(s: State, fill: Option<Applied>)
    requires OpenLotsRemain(s.lots)
    ensures OpenLotsRemain(ApplyIf(s, fill).lots)
  {
    if fill.Some? { ApplyKeepsRemaining(s, fill.value); }
  }

  /** In every run, hazards included, a lot that is open has something left. */
  lemma {:induction false} OpenLotsAlwaysRemain(s: State, steps: seq<Step>)
    requires OpenLotsRemain(s.lots)
    ensures OpenLotsRemain(Run(s, steps).lots)
    decreases |steps|
  {
    if steps != [] {
      StepKeepsRemaining(s, steps[0]);
      OpenLotsAlwaysRemain(Next(s, steps[0]), steps[1..]);
    }
  }

  // ---- which lots an outside fill takes off ----------------------------------------------------------

  /** The fill moves the lot's signed remainder toward zero. */
  predicate TakesOff(lot: Lot, o: BrokerOrder) {
    var has, fill := Signed(lot.side, lot.remaining), Signed(o.side, o.filled);
    (has > 0 && fill < 0) || (has < 0 && fill > 0)
  }

  predicate OpenOn(lots: map<Id, Lot>, instrument: Key, l: Id) { l in lots && lots[l].open && lots[l].instrument == instrument }

  lemma ClosingTakesOff(lots: map<Id, Lot>, o: BrokerOrder)
    requires OpenLotsRemain(lots) && o.filled > 0
    ensures forall l :: l in ClosingLots(lots, o.instrument, o.side) <==> OpenOn(lots, o.instrument, l) && TakesOff(lots[l], o)
    ensures forall l :: l in OpenLots(lots, o.instrument) <==> OpenOn(lots, o.instrument, l)
  {
  }

  /** The signed remainder after the fill: the two added up, cut off at zero. */
  function NetOf(has: int, fill: int): int { if has > 0 then Max(has + fill, 0) else Min(has + fill, 0) }

  /** The lot that took the fill as an exit: its signed remainder moved by the fill, it is open as long as
      something is left, and it banked the fill's cash against its entry price. */
  predicate ExitedBy(lot: Lot, lot': Lot, o: BrokerOrder)
    requires lot.entryPrice.Some? && o.averagePrice.Some?
  {
    && Signed(lot'.side, lot'.remaining) == NetOf(Signed(lot.side, lot.remaining), Signed(o.side, o.filled))
    && lot'.realized - lot.realized == Signed(o.side, o.filled) as real * (lot.entryPrice.value - o.averagePrice.value)
    && (lot'.open <==> lot'.remaining > 0)
    && lot' == lot.(remaining := lot'.remaining, realized := lot'.realized, open := lot'.open)
  }

  /** A new lot on the order's side, for all of it, bracketed five percent either way: the target where it
      gains, the stop where it loses. */
  predicate OpenedBy(lot: Lot, o: BrokerOrder)
    requires o.averagePrice.Some?
  {
    var price := o.averagePrice.value;
    && lot.instrument == o.instrument && lot.open && lot.realized == 0.0 && lot.entryPrice == Some(price) && lot.entryQuantity == o.filled
    && Signed(lot.side, lot.remaining) == Signed(o.side, o.filled) && lot.remaining == o.filled
    && lot.bracket.target == Some(price + price * 0.05 * Sign(o.side)) && lot.bracket.stop == Some(price - price * 0.05 * Sign(o.side))
    && lot.bracket.targetRule.Some? && lot.bracket.stopRule.Some?
  }

  /** A complete outside order that takes off exactly one open lot of its instrument is an exit of that
      lot and of nothing else. */
  lemma OneIsTakenOff(s: State, t: nat, o: BrokerOrder, newLot: Id, lot: Id)
    requires IsExternal(s, o) && Deliverable(s, t, o, newLot) && OpenLotsRemain(s.lots)
    requires OpenOn(s.lots, o.instrument, lot) && TakesOff(s.lots[lot], o) && s.lots[lot].entryPrice.Some?
    requires forall l :: OpenOn(s.lots, o.instrument, l) && TakesOff(s.lots[l], o) ==> l == lot
    ensures var s' := Run(s, Delivery(t, o.id, newLot));
            lot in s'.lots && s'.lots == s.lots[lot := s'.lots[lot]] && ExitedBy(s.lots[lot], s'.lots[lot], o) && s'.pending == s.pending
  {
    ClosingTakesOff(s.lots, o);
    assert ClosingLots(s.lots, o.instrument, o.side) == {lot};
    ExternalExitClosesTheOnlyLot(s, t, o, newLot, lot);
    OneIsNoQuestion(s, t, o, newLot, lot);
    ExitIs(s.lots[lot], o);
  }

  lemma OneIsNoQuestion(s: State, t: nat, o: BrokerOrder, newLot: Id, lot: Id)
    requires IsExternal(s, o) && Deliverable(s, t, o, newLot)
    requires ClosingLots(s.lots, o.instrument, o.side) == {lot} && lot in s.lots && s.lots[lot].entryPrice.Some?
    ensures Run(s, Delivery(t, o.id, newLot)).pending == s.pending
  {
    OneCandidate(s, o, lot);
    var r := Resolution(Some(EXIT), Some(lot), None, None, None, None, {});
    DeliveryApplies(s, t, o, newLot, r, Applied(o, EXIT, lot, ArmedBracket(r, "", "")));
  }

  lemma ExitIs(lot: Lot, o: BrokerOrder)
    requires lot.entryPrice.Some? && Fillable(o) && TakesOff(lot, o) && lot.open && lot.remaining > 0
    ensures ExitedBy(lot, ExitFrom(lot, o.averagePrice.value, o.filled), o)
  {
    var gain := (o.averagePrice.value - lot.entryPrice.value) * o.filled as real;
    assert RealizedPnl(lot.entryPrice.value, o.averagePrice.value, o.filled, lot.side) == gain * Sign(lot.side);
  }

  /** One that takes off several open lots changes none: it waits for a human, with exactly those to
      choose from. */
  lemma SeveralWait(s: State, t: nat, o: BrokerOrder, newLot: Id, a: Id, b: Id)
    requires IsExternal(s, o) && Deliverable(s, t, o, newLot) && OpenLotsRemain(s.lots) && o.id !in s.pending && a != b
    requires OpenOn(s.lots, o.instrument, a) && TakesOff(s.lots[a], o) && OpenOn(s.lots, o.instrument, b) && TakesOff(s.lots[b], o)
    ensures var s' := Run(s, Delivery(t, o.id, newLot));
            && s'.lots == s.lots && o.id in s'.pending && s'.pending == s.pending[o.id := s'.pending[o.id]] && s'.pending[o.id].order == o
            && forall l :: l in s'.pending[o.id].candidates <==> OpenOn(s.lots, o.instrument, l) && TakesOff(s.lots[l], o)
  {
    ClosingTakesOff(s.lots, o);
    TwoOrMore(ClosingLots(s.lots, o.instrument, o.side), a, b);
    ExternalExitIsNeverGuessed(s, t, o, newLot);
  }

  /** One that takes off none of the open lots there are, an add-on, leaves lots and questions alone. */
  lemma AddOnChangesNothing(s: State, t: nat, o: BrokerOrder, newLot: Id, open: Id)
    requires IsExternal(s, o) && Deliverable(s, t, o, newLot) && OpenLotsRemain(s.lots) && OpenOn(s.lots, o.instrument, open)
    requires forall l :: OpenOn(s.lots, o.instrument, l) ==> !TakesOff(s.lots[l], o)
    ensures var s' := Run(s, Delivery(t, o.id, newLot)); s'.lots == s.lots && s'.pending == s.pending && s'.applied == s.applied
  {
    ClosingTakesOff(s.lots, o);
    var closing := ClosingLots(s.lots, o.instrument, o.side);
    assert closing == {};
    var r := Resolution(None, None, None, None, None, None, {});
    assert open in OpenLots(s.lots, o.instrument);
    assert Detect(s, o, None) == r;
    DeliveryProcesses(s, t, o.id, newLot);
    SameFill(s, WithFetched(s, t, o), o, newLot, r);
  }

  /** With nothing open on its instrument it opens a lot of its own. */
  lemma NothingOpenOpensALot(s: State, t: nat, o: BrokerOrder, newLot: Id)
    requires IsExternal(s, o) && Deliverable(s, t, o, newLot) && forall l :: !OpenOn(s.lots, o.instrument, l)
    ensures var s' := Run(s, Delivery(t, o.id, newLot));
            newLot in s'.lots && s'.lots == s.lots[newLot := s'.lots[newLot]] && OpenedBy(s'.lots[newLot], o)
  {
    forall l ensures l !in OpenLots(s.lots, o.instrument) { assert !OpenOn(s.lots, o.instrument, l); }
    assert OpenLots(s.lots, o.instrument) == {};
    ExternalEntryIsProtected(s, t, o, newLot);
  }

  /** So the only open lot of an instrument changes exactly when the order is on the other side. */
  lemma OnlyLotChangesIffOpposite(s: State, t: nat, o: BrokerOrder, newLot: Id, lot: Id)
    requires IsExternal(s, o) && Deliverable(s, t, o, newLot) && OpenLotsRemain(s.lots)
    requires lot in s.lots && s.lots[lot].entryPrice.Some? && forall l :: OpenOn(s.lots, o.instrument, l) <==> l == lot
    ensures var lots' := Run(s, Delivery(t, o.id, newLot)).lots;
            && (lots' != s.lots <==> o.side != s.lots[lot].side)
            && (o.side != s.lots[lot].side ==> lot in lots' && lots' == s.lots[lot := lots'[lot]] && ExitedBy(s.lots[lot], lots'[lot], o))
  {
    assert OpenOn(s.lots, o.instrument, lot);
    if o.side != s.lots[lot].side { OneIsTakenOff(s, t, o, newLot, lot); } else { AddOnChangesNothing(s, t, o, newLot, lot); }
  }

  /** A human's answer takes the fill off the lot picked, records the order as its exit and drops the
      question; any other answer changes nothing. */
  lemma AnswerTakesOff(s: State, order: Id, lot: Id)
    requires order in s.pending && lot in s.lots && s.lots[lot].entryPrice.Some? && s.lots[lot].open && s.lots[lot].remaining > 0
    requires Fillable(s.pending[order].order) && TakesOff(s.lots[lot], s.pending[order].order)
    ensures var o, s' := s.pending[order].order, Next(s, Resolve(order, lot));
            if lot in s.pending[order].candidates then
              && lot in s'.lots && s'.lots == s.lots[lot := s'.lots[lot]] && ExitedBy(s.lots[lot], s'.lots[lot], o)
              && s'.pending == s.pending - {order}
              && o.id in s'.history && s'.history[o.id].status == o.status && s'.history[o.id].role == Some(EXIT) && s'.history[o.id].lot == Some(lot)
            else s' == s
  {
    ExitIs(s.lots[lot], s.pending[order].order);
  }

  lemma TwoOrMore(ids: set<Id>, a: Id, b: Id)
    requires a in ids && b in ids && a != b
    ensures |ids| > 1
  {
    assert |ids - {a}| > 0;
  }
}
