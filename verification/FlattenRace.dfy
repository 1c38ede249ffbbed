/** The emergency flatten beside everything else that trades: the evaluator's legs and the user's own
    orders can land before a lot's turn, and between the positions that turn reads and the order it
    sends. */
module FlattenRace {
  import opened Trading
  import opened Broker
  import opened MaxLossFlatten
  import TriggerRules
  import TriggerMachine
  import TriggerSafety
  import TriggerTheorems
  import TriggerExactness

  /** Orders of others: those that land before turn `i` reads the positions, and those that land between
      that read and the landing of the turn's own order. */
  datatype Others = Others(before: nat -> seq<Sent>, between: nat -> seq<Sent>)

  const NOBODY := Others(i => [], i => [])

  /** What landed orders add to a net position. */
  function Flow(log: seq<Sent>, k: Key): int {
    if log == [] then 0
    else Flow(log[..|log| - 1], k) + (var o := log[|log| - 1]; if o.landed && o.key == k then Signed(o.side, o.quantity) else 0)
  }

  lemma {:induction false} FlowIsTraded(net: map<Key, int>, log: seq<Sent>, k: Key)
    ensures Held(AfterAll(net, log), k) == Held(net, k) + Flow(log, k)
  {
    if log != [] { FlowIsTraded(net, log[..|log| - 1], k); }
  }

  // ---- turns -------------------------------------------------------------------------------------

  /** The positions turn `i` reads. */
  function Read(net: map<Key, int>, o: Others, i: nat): map<Key, int> { AfterAll(net, o.before(i)) }

  /** The positions its order meets. */
  function Met(net: map<Key, int>, o: Others, i: nat): map<Key, int> { AfterAll(Read(net, o, i), o.between(i)) }

  /** One turn: the quantity comes from what was read, the order moves what it meets. */
  function Turn(net: map<Key, int>, lots: seq<OpenLot>, w: Weather, o: Others, i: nat): map<Key, int>
    requires i < |lots|
  {
    var q := ExitQuantity(Read(net, o, i), lots[i], w.rules(i));
    if q <= 0 then Met(net, o, i) else After(Met(net, o, i), Sent(lots[i].key, Opposite(lots[i].side), q, !w.outcome(i).Rejected?))
  }

  function RacedNet(net: map<Key, int>, lots: seq<OpenLot>, w: Weather, o: Others, n: nat): map<Key, int>
    requires n <= |lots|
  {
    if n == 0 then net else Turn(RacedNet(net, lots, w, o, n - 1), lots, w, o, n - 1)
  }

  /** Left alone, the turns are those of the flatten by itself. */
  lemma {:induction false} AloneIsFlatten(net: map<Key, int>, lots: seq<OpenLot>, w: Weather, n: nat)
    requires n <= |lots|
    ensures RacedNet(net, lots, w, NOBODY, n) == NetAfter(net, lots, w, n)
  {
    if n > 0 { AloneIsFlatten(net, lots, w, n - 1); }
  }

  // ---- through zero --------------------------------------------------------------------------------

  /** The turn's own order leaves its position nearer to zero, or as it was. */
  predicate Closes(net: map<Key, int>, lots: seq<OpenLot>, w: Weather, o: Others, i: nat)
    requires i < |lots|
  {
    Toward(Held(Met(net, o, i), lots[i].key), Held(Turn(net, lots, w, o, i), lots[i].key))
  }

  /** What others' orders between read and landing took off a position that a lot on `side` is part of. */
  function TakenOff(o: Others, i: nat, k: Key, side: Side): int { -Signed(side, Flow(o.between(i), k)) }

  /** Of what could be closed at the read, more is gone than the order left over. */
  predicate Overtaken(net: map<Key, int>, lots: seq<OpenLot>, w: Weather, o: Others, i: nat)
    requires i < |lots|
  {
    var lot, q := lots[i], ExitQuantity(Read(net, o, i), lots[i], w.rules(i));
    q > 0 && !w.outcome(i).Rejected? && TakenOff(o, i, lot.key, lot.side) > Closeable(Held(Read(net, o, i), lot.key), lot.side) - q
  }

  /** Exactly when a turn goes through zero: its order lands, and between the positions it read and
      its landing other orders of the instrument took off more than its quantity had left over. */
  lemma ClosesIffNotOvertaken(net: map<Key, int>, lots: seq<OpenLot>, w: Weather, o: Others, i: nat)
    requires i < |lots|
    ensures Closes(net, lots, w, o, i) <==> !Overtaken(net, lots, w, o, i)
  {
    FlowIsTraded(Read(net, o, i), o.between(i), lots[i].key);
  }

  predicate LandsOn(s: Sent, k: Key, side: Side) { s.landed && s.key == k && s.side == side && s.quantity > 0 }

  lemma {:induction false} SomethingTookOff(log: seq<Sent>, k: Key, side: Side)
    requires forall j :: 0 <= j < |log| ==> log[j].quantity >= 0
    requires Signed(side, Flow(log, k)) < 0
    ensures exists j :: 0 <= j < |log| && LandsOn(log[j], k, Opposite(side))
  {
    var front, last := log[..|log| - 1], log[|log| - 1];
    if LandsOn(last, k, Opposite(side)) {
      assert LandsOn(log[|log| - 1], k, Opposite(side));
    } else {
      SomethingTookOff(front, k, side);
      var j :| 0 <= j < |front| && LandsOn(front[j], k, Opposite(side));
      assert LandsOn(log[j], k, Opposite(side));
    }
  }

  /** So it takes an order of the same instrument, on the side that exits the lot, that lands in between. */
  lemma ThroughZeroNeedsALeg(net: map<Key, int>, lots: seq<OpenLot>, w: Weather, o: Others, i: nat)
    requires i < |lots| && !Closes(net, lots, w, o, i)
    requires forall j :: 0 <= j < |o.between(i)| ==> o.between(i)[j].quantity >= 0
    ensures exists j :: 0 <= j < |o.between(i)| && LandsOn(o.between(i)[j], lots[i].key, Opposite(lots[i].side))
  {
    ClosesIffNotOvertaken(net, lots, w, o, i);
    SomethingTookOff(o.between(i), lots[i].key, lots[i].side);
  }

  /** In a whole flatten no own order goes through zero exactly when none is overtaken, whatever lands
      before each turn. */
  lemma FlattenClosesIff(net: map<Key, int>, lots: seq<OpenLot>, w: Weather, o: Others)
    ensures (forall i :: 0 <= i < |lots| ==> Closes(RacedNet(net, lots, w, o, i), lots, w, o, i))
            <==> (forall i :: 0 <= i < |lots| ==> !Overtaken(RacedNet(net, lots, w, o, i), lots, w, o, i))
  {
    forall i | 0 <= i < |lots|
      ensures Closes(RacedNet(net, lots, w, o, i), lots, w, o, i) <==> !Overtaken(RacedNet(net, lots, w, o, i), lots, w, o, i)
    {
      ClosesIffNotOvertaken(RacedNet(net, lots, w, o, i), lots, w, o, i);
    }
  }

  // ---- beside the evaluator --------------------------------------------------------------------------

  /** In some continuation of the firing protocol an exit of the leg lands. */
  ghost predicate CanLand(s: TriggerMachine.State, id: Id) {
    exists steps :: TriggerSafety.HasLanded(TriggerMachine.Run(s, steps).log, id) && !TriggerSafety.HasLanded(s.log, id)
  }

  /** After a turn has found no leg of its lot in flight, an exit of one of them can still land before the
      turn's own order exactly when that leg was ARMED then: the check keeps off every other leg, and
      cannot keep off that one. */
  lemma OwnLegCanLandIffArmed(s: TriggerMachine.State, lot: OpenLot, id: Id)
    requires TriggerSafety.Inv(s) && id in lot.legs && id in s.rules && !InFlight(lot, s.rules)
    ensures CanLand(s, id) <==> s.rules[id].state == TriggerRules.ARMED
  {
    if s.rules[id].state == TriggerRules.ARMED {
      var steps := TriggerExactness.ArmedCanLand(s, id);
      assert TriggerSafety.HasLanded(TriggerMachine.Run(s, steps).log, id);
    } else {
      assert s.rules[id].state != TriggerRules.FIRING;
      forall steps | TriggerSafety.HasLanded(TriggerMachine.Run(s, steps).log, id) ensures TriggerSafety.HasLanded(s.log, id) {
        TriggerTheorems.OutStaysOut(s, steps, id);
      }
    }
  }

  /** Once an exit order of a rule went out, the flatten sends none for a lot that has the rule as a leg
      until the rule is over, marked FAILED or CANCELLED: whatever happened in the run, the rule is not
      ARMED any more, and a flatten that reads it FIRING or PLACED skips the lot. */
  lemma SentLegKeepsFlattenOff(start: map<Id, TriggerMachine.LotView>, steps: seq<TriggerMachine.Step>, id: Id,
                               net: map<Key, int>, lots: seq<OpenLot>, w: Weather, i: nat)
    requires TriggerTheorems.HasSent(TriggerMachine.Run(TriggerMachine.Initial(start), steps).log, id)
    requires i < |lots| && id in lots[i].legs && w.rules(i) == TriggerMachine.Run(TriggerMachine.Initial(start), steps).rules
    ensures id in w.rules(i) && w.rules(i)[id].state in {TriggerRules.FIRING, TriggerRules.PLACED, TriggerRules.FAILED, TriggerRules.CANCELLED}
    ensures w.rules(i)[id].state in {TriggerRules.FIRING, TriggerRules.PLACED} ==> Orders(net, lots, w, i + 1) == Orders(net, lots, w, i)
  {
    var s := TriggerMachine.Run(TriggerMachine.Initial(start), steps);
    TriggerTheorems.OneExitOrderPerRule(start, steps);
    TriggerTheorems.InitialInv(start);
    TriggerSafety.RunKeepsInv(TriggerMachine.Initial(start), steps);
    assert TriggerSafety.HasFired(s.log, id);
    OrderIffNothingElseExits(net, lots, w, i);
  }

  /** A lot's own leg that fires for all of it right then turns the whole position round. */
  lemma LegInBetweenTurnsRound(lot: OpenLot, w: Weather, q: nat)
    requires q == lot.remaining > 0 && !InFlight(lot, w.rules(0)) && !w.outcome(0).Rejected?
    ensures var net := map[lot.key := Signed(lot.side, q)];
            var o := Others(i => [], i => [Sent(lot.key, Opposite(lot.side), q, true)]);
            Held(RacedNet(net, [lot], w, o, 1), lot.key) == -Signed(lot.side, q)
  {
    var net := map[lot.key := Signed(lot.side, q)];
    var leg := Sent(lot.key, Opposite(lot.side), q, true);
    var o := Others(i => [], i => [leg]);
    assert Read(net, o, 0) == net;
    assert [leg][..0] == [];
    assert Met(net, o, 0) == After(net, leg);
    assert RacedNet(net, [lot], w, o, 0) == net;
  }
}
