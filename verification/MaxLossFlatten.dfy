/** The emergency flatten: one market exit per open lot, capped by what the broker really holds. */
module MaxLossFlatten {
  import opened Trading
  import opened TriggerRules
  import opened Broker

  /** A lot that is not CLOSED; `legs` are the rule ids of its bracket. */
  datatype OpenLot = OpenLot(id: Id, key: Key, side: Side, remaining: int, legs: seq<Id>)

  /** What the call runs into at each lot: the ledger's rules when the lot's turn comes, whether the
      positions call raises, and what the placement comes to. */
  datatype Weather = Weather(rules: nat -> Table, raises: nat -> bool, outcome: nat -> Outcome)

  predicate InFlight(lot: OpenLot, rules: Table) {
    exists i :: 0 <= i < |lot.legs| && lot.legs[i] in rules && rules[lot.legs[i]].state in {EVALUATING, FIRING, PLACED}
  }

  /** Every leg there is rests: it waits for its price, or is over without an order out. */
  predicate LegsRest(lot: OpenLot, rules: Table) {
    forall i :: 0 <= i < |lot.legs| && lot.legs[i] in rules ==> rules[lot.legs[i]].state in {ARMED, FAILED, CANCELLED}
  }

  lemma RestsIffNotInFlight(lot: OpenLot, rules: Table)
    ensures LegsRest(lot, rules) <==> !InFlight(lot, rules)
  {
    forall i | 0 <= i < |lot.legs| && lot.legs[i] in rules
      ensures rules[lot.legs[i]].state in {ARMED, FAILED, CANCELLED} <==> rules[lot.legs[i]].state !in {EVALUATING, FIRING, PLACED}
    {
      var state := rules[lot.legs[i]].state;
      assert state.ARMED? || state.EVALUATING? || state.FIRING? || state.PLACED? || state.FAILED? || state.CANCELLED?;
    }
  }

  /** What can be closed at the broker of a lot that was entered on `side`. */
  function Closeable(held: int, side: Side): int { if side == SELL then Max(-held, 0) else Max(held, 0) }

  /** The quantity of a lot's exit order; nothing is sent for zero or less. */
  function ExitQuantity(net: map<Key, int>, lot: OpenLot, rules: Table): int {
    if lot.remaining <= 0 || InFlight(lot, rules) then 0 else Min(lot.remaining, Closeable(Held(net, lot.key), lot.side))
  }

  function ExitOrder(net: map<Key, int>, lot: OpenLot, rules: Table, outcome: Outcome): seq<Sent> {
    var q := ExitQuantity(net, lot, rules);
    if q <= 0 then [] else [Sent(lot.key, Opposite(lot.side), q, !outcome.Rejected?)]
  }

  function OneLot(net: map<Key, int>, lot: OpenLot, rules: Table, outcome: Outcome): map<Key, int> {
    var q := ExitQuantity(net, lot, rules);
    if q <= 0 then net else After(net, Sent(lot.key, Opposite(lot.side), q, !outcome.Rejected?))
  }

  function NetAfter(net: map<Key, int>, lots: seq<OpenLot>, w: Weather, n: nat): map<Key, int>
    requires n <= |lots|
  {
    if n == 0 then net else OneLot(NetAfter(net, lots, w, n - 1), lots[n - 1], w.rules(n - 1), w.outcome(n - 1))
  }

  /** The orders of the first `n` lots. */
  function Orders(net: map<Key, int>, lots: seq<OpenLot>, w: Weather, n: nat): seq<Sent>
    requires n <= |lots|
  {
    if n == 0 then []
    else Orders(net, lots, w, n - 1) + ExitOrder(NetAfter(net, lots, w, n - 1), lots[n - 1], w.rules(n - 1), w.outcome(n - 1))
  }

  /** The lots whose placement did not raise. */
  function Placed(net: map<Key, int>, lots: seq<OpenLot>, w: Weather, n: nat): seq<Id>
    requires n <= |lots|
  {
    if n == 0 then []
    else
      Placed(net, lots, w, n - 1)
      + if ExitQuantity(NetAfter(net, lots, w, n - 1), lots[n - 1], w.rules(n - 1)) > 0 && w.outcome(n - 1).Accepted? then [lots[n - 1].id] else []
  }

  // ---- the loop ----------------------------------------------------------------------------------

  method HasExitInFlight(lot: OpenLot, rules: Table) returns (r: bool)
    ensures r == InFlight(lot, rules)
    ensures !r <==> LegsRest(lot, rules)
  {
    RestsIffNotInFlight(lot, rules);
    for i := 0 to |lot.legs|
      invariant forall j :: 0 <= j < i ==> !(lot.legs[j] in rules && rules[lot.legs[j]].state in {EVALUATING, FIRING, PLACED})
    {
      if lot.legs[i] in rules && (rules[lot.legs[i]].state == EVALUATING || rules[lot.legs[i]].state == FIRING || rules[lot.legs[i]].state == PLACED) {
        return true;
      }
    }
    return false;
  }

  datatype Exit = Skipped | WentOut | DidNotGoOut | Raised

  /** One turn of the loop. */
  method ExitLot(account: Account, lot: OpenLot, rules: Table, raises: bool, outcome: Outcome) returns (exit: Exit)
    modifies account
    ensures exit.Raised? <==> raises && lot.remaining > 0 && !InFlight(lot, rules)
    ensures exit.WentOut? <==> !exit.Raised? && ExitQuantity(old(account.net), lot, rules) > 0 && outcome.Accepted?
    ensures exit.Raised? ==> account.net == old(account.net) && account.log == old(account.log)
    ensures !exit.Raised? ==> account.net == OneLot(old(account.net), lot, rules, outcome)
    ensures !exit.Raised? ==> account.log == old(account.log) + ExitOrder(old(account.net), lot, rules, outcome)
  {
    if lot.remaining <= 0 {
      return Skipped;
    }
    var inFlight := HasExitInFlight(lot, rules);
    if inFlight {
      return Skipped;
    }
    if raises {
      return Raised;
    }
    var held := if lot.key in account.net then account.net[lot.key] else 0;
    var closeable := if lot.side == SELL then Max(-held, 0) else Max(held, 0);
    var quantity := Min(lot.remaining, closeable);
    if quantity <= 0 {
      return Skipped;
    }
    var ok := account.PlaceMarketOrder(lot.key, if lot.side == BUY then SELL else BUY, quantity, outcome);
    return if ok then WentOut else DidNotGoOut;
  }

  /** The positions call of a lot's turn is made, and raises. */
  predicate Fails(lots: seq<OpenLot>, w: Weather, i: nat)
    requires i < |lots|
  {
    w.raises(i) && lots[i].remaining > 0 && !InFlight(lots[i], w.rules(i))
  }

  /** `flatten_open_lots`. A placement that raises is passed over; the first positions call that raises
      ends the whole flatten, after the `done` lots before it. */
  method FlattenOpenLots(account: Account, lots: seq<OpenLot>, w: Weather) returns (placed: seq<Id>, raised: bool, done: nat)
    requires account.log == []
    modifies account
    ensures raised <==> exists i :: 0 <= i < |lots| && Fails(lots, w, i)
    ensures if raised then done < |lots| && Fails(lots, w, done) else done == |lots|
    ensures forall i :: 0 <= i < done ==> !Fails(lots, w, i)
    ensures account.log == Orders(old(account.net), lots, w, done)
    ensures account.net == NetAfter(old(account.net), lots, w, done)
    ensures placed == Placed(old(account.net), lots, w, done)
  {
    ghost var net0 := account.net;
    placed, raised, done := [], false, 0;
    while done < |lots|
      invariant done <= |lots| && account.log == Orders(net0, lots, w, done)
      invariant !raised && forall i :: 0 <= i < done ==> !Fails(lots, w, i)
      invariant account.net == NetAfter(net0, lots, w, done)
      invariant placed == Placed(net0, lots, w, done)
      decreases |lots| - done
    {
      var exit := ExitLot(account, lots[done], w.rules(done), w.raises(done), w.outcome(done));
      if exit.Raised? {
        assert Fails(lots, w, done);
        return placed, true, done;
      }
      if exit.WentOut? {
        placed := placed + [lots[done].id];
      }
      done := done + 1;
    }
  }

  // ---- what it never does --------------------------------------------------------------------------

  /** The net positions are what the orders made of them. */
  lemma {:induction false} NetIsWhatWasTraded(net: map<Key, int>, lots: seq<OpenLot>, w: Weather, n: nat)
    requires n <= |lots|
    ensures NetAfter(net, lots, w, n) == AfterAll(net, Orders(net, lots, w, n))
  {
    if n > 0 {
      NetIsWhatWasTraded(net, lots, w, n - 1);
      var before := Orders(net, lots, w, n - 1);
      var order := ExitOrder(NetAfter(net, lots, w, n - 1), lots[n - 1], w.rules(n - 1), w.outcome(n - 1));
      if order == [] {
        assert before + order == before;
      } else {
        LogMore(net, before, order[0], lots[n - 1].key);
        assert order == [order[0]];
      }
    }
  }

  /** What one lot does to one net position. */
  lemma OneLotHeld(net: map<Key, int>, lot: OpenLot, rules: Table, outcome: Outcome, k: Key)
    ensures var q := ExitQuantity(net, lot, rules);
            Held(OneLot(net, lot, rules, outcome), k)
            == if lot.key == k && q > 0 && !outcome.Rejected? then Held(net, k) - Signed(lot.side, q) else Held(net, k)
  {
  }

  /** The flatten's own orders never push a net position through zero or make it larger, whatever lands,
      is rejected or was in flight, however the lots are mixed, and wherever the call stops. */
  lemma {:induction false} NeverThroughZero(net: map<Key, int>, lots: seq<OpenLot>, w: Weather, n: nat, k: Key)
    requires n <= |lots|
    ensures Toward(Held(net, k), Held(NetAfter(net, lots, w, n), k))
  {
    if n > 0 {
      NeverThroughZero(net, lots, w, n - 1, k);
      OneLotHeld(NetAfter(net, lots, w, n - 1), lots[n - 1], w.rules(n - 1), w.outcome(n - 1), k);
    }
  }

  /** Every order is the exit of one lot that had no leg in flight, for at least one and at most all of
      what remained of it. */
  lemma {:induction false} OrdersAreExits(net: map<Key, int>, lots: seq<OpenLot>, w: Weather, n: nat, i: nat)
    requires n <= |lots| && i < |Orders(net, lots, w, n)|
    ensures exists j :: 0 <= j < n && IsExitOf(Orders(net, lots, w, n)[i], lots[j]) && !InFlight(lots[j], w.rules(j))
  {
    var before := Orders(net, lots, w, n - 1);
    if i < |before| {
      OrdersAreExits(net, lots, w, n - 1, i);
      var j :| 0 <= j < n - 1 && IsExitOf(before[i], lots[j]) && !InFlight(lots[j], w.rules(j));
      assert Orders(net, lots, w, n)[i] == before[i];
    } else {
      assert IsExitOf(Orders(net, lots, w, n)[i], lots[n - 1]);
    }
  }

  predicate IsExitOf(o: Sent, lot: OpenLot) {
    o.key == lot.key && o.side == Opposite(lot.side) && 1 <= o.quantity <= lot.remaining
  }

  // ---- who gets an order ---------------------------------------------------------------------------

  /** What the broker holds of the lot's instrument, counted in the lot's own direction. */
  function HeldItsWay(net: map<Key, int>, lot: OpenLot): int { Signed(lot.side, Held(net, lot.key)) }

  /** The order exits the lot for all that it can: all that remains of it or all that is held, whichever is
      less, against the lot's direction. */
  predicate ExitsAllItCan(o: Sent, lot: OpenLot, net: map<Key, int>) {
    && o.key == lot.key
    && (o.quantity == lot.remaining || o.quantity == HeldItsWay(net, lot)) && o.quantity <= lot.remaining && o.quantity <= HeldItsWay(net, lot)
    && Signed(lot.side, o.quantity) + Signed(o.side, o.quantity) == 0
  }

  /** Exactly the lots with something left, something held their way and no leg that is being placed or
      has an order out get an order, one each; the others get none. */
  lemma OrderIffNothingElseExits(net: map<Key, int>, lots: seq<OpenLot>, w: Weather, i: nat)
    requires i < |lots|
    ensures var before, after, lot, held := Orders(net, lots, w, i), Orders(net, lots, w, i + 1), lots[i], NetAfter(net, lots, w, i);
            if lot.remaining > 0 && HeldItsWay(held, lot) > 0 && LegsRest(lot, w.rules(i))
            then |after| == |before| + 1 && after[..|before|] == before && ExitsAllItCan(after[|before|], lot, held)
            else after == before
    ensures Placed(net, lots, w, i + 1) == Placed(net, lots, w, i)
                                           + if Orders(net, lots, w, i + 1) != Orders(net, lots, w, i) && w.outcome(i).Accepted? then [lots[i].id] else []
  {
    RestsIffNotInFlight(lots[i], w.rules(i));
  }

  /** And the call ends early exactly when the positions call raises at a lot that has something left and
      whose legs rest. */
  lemma FailsIff(lots: seq<OpenLot>, w: Weather, i: nat)
    requires i < |lots|
    ensures Fails(lots, w, i) <==> w.raises(i) && lots[i].remaining > 0 && LegsRest(lots[i], w.rules(i))
  {
    RestsIffNotInFlight(lots[i], w.rules(i));
  }

  // ---- what it achieves ------------------------------------------------------------------------------

  /** What the first `n` lots of an instrument entered on `side` have left to close, but for those with
      a leg in flight. */
  function Eligible(lots: seq<OpenLot>, w: Weather, n: nat, k: Key, side: Side): int
    requires n <= |lots|
  {
    if n == 0 then 0
    else
      Eligible(lots, w, n - 1, k, side) + Share(lots[n - 1], w.rules(n - 1), k, side)
  }

  predicate NothingFails(w: Weather, n: nat) { forall i :: 0 <= i < n ==> !w.outcome(i).Rejected? }

  /** When every order lands, a long position ends smaller by what its long lots have left, or flat, and
      a short one likewise; lots on the other side of the net position do nothing. */
  lemma {:induction false} ClosesWhatIsEligible(net: map<Key, int>, lots: seq<OpenLot>, w: Weather, n: nat, k: Key)
    requires n <= |lots| && NothingFails(w, n)
    ensures var held := Held(net, k);
            Held(NetAfter(net, lots, w, n), k)
            == if held >= 0 then Max(held - Eligible(lots, w, n, k, BUY), 0) else Min(held + Eligible(lots, w, n, k, SELL), 0)
    ensures Eligible(lots, w, n, k, BUY) >= 0 && Eligible(lots, w, n, k, SELL) >= 0
  {
    if n > 0 {
      ClosesWhatIsEligible(net, lots, w, n - 1, k);
      OneLotCloses(NetAfter(net, lots, w, n - 1), lots[n - 1], w.rules(n - 1), w.outcome(n - 1), k);
    }
  }

  /** What one lot has left to close of an instrument, on one side. */
  function Share(lot: OpenLot, rules: Table, k: Key, side: Side): int {
    if lot.key == k && lot.side == side && lot.remaining > 0 && !InFlight(lot, rules) then lot.remaining else 0
  }

  lemma OneLotCloses(net: map<Key, int>, lot: OpenLot, rules: Table, outcome: Outcome, k: Key)
    requires !outcome.Rejected?
    ensures var held := Held(net, k);
            Held(OneLot(net, lot, rules, outcome), k)
            == if held >= 0 then Max(held - Share(lot, rules, k, BUY), 0) else Min(held + Share(lot, rules, k, SELL), 0)
  {
  }

  /** So an instrument ends flat exactly when the eligible lots on its own side cover it. */
  lemma EndsFlatIff(net: map<Key, int>, lots: seq<OpenLot>, w: Weather, k: Key)
    requires NothingFails(w, |lots|)
    ensures Held(NetAfter(net, lots, w, |lots|), k) == 0
            <==> Abs(Held(net, k)) <= Eligible(lots, w, |lots|, k, if Held(net, k) >= 0 then BUY else SELL)
  {
    ClosesWhatIsEligible(net, lots, w, |lots|, k);
  }

  function SignedRemaining(lots: seq<OpenLot>, n: nat, k: Key): int
    requires n <= |lots|
  {
    if n == 0 then 0
    else
      SignedRemaining(lots, n - 1, k)
      + if lots[n - 1].key == k then Signed(lots[n - 1].side, Max(lots[n - 1].remaining, 0)) else 0
  }

  lemma {:induction false} EligibleCoversSum(lots: seq<OpenLot>, w: Weather, n: nat, k: Key)
    requires n <= |lots| && forall i :: 0 <= i < n ==> !InFlight(lots[i], w.rules(i))
    ensures SignedRemaining(lots, n, k) == Eligible(lots, w, n, k, BUY) - Eligible(lots, w, n, k, SELL)
    ensures Eligible(lots, w, n, k, BUY) >= 0 && Eligible(lots, w, n, k, SELL) >= 0
  {
    if n > 0 { EligibleCoversSum(lots, w, n - 1, k); }
  }

  /** If the broker's net is the signed sum of what remains of the open lots, nothing is in flight and
      nothing fails, every instrument ends flat, mixed directions or not. */
  lemma LedgerTruthEndsFlat(net: map<Key, int>, lots: seq<OpenLot>, w: Weather, k: Key)
    requires NothingFails(w, |lots|) && forall i :: 0 <= i < |lots| ==> !InFlight(lots[i], w.rules(i))
    requires Held(net, k) == SignedRemaining(lots, |lots|, k)
    ensures Held(NetAfter(net, lots, w, |lots|), k) == 0
  {
    EligibleCoversSum(lots, w, |lots|, k);
    EndsFlatIff(net, lots, w, k);
  }
}
