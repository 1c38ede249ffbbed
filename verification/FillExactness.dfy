/** The hazards are exactly the steps after which a fill can be applied twice: from the state after one
    there is a way on, without any further hazard, that applies some order twice. */
module FillExactness {
  import opened Trading
  import opened Fills
  import opened FillMachine
  import opened FillSafety
  import opened FillTheorems

  // ---- things nobody has used yet ------------------------------------------------------------------

  lemma FreshIn(used: set<Id>) returns (id: Id)
    ensures id !in used
  {
    id := "";
    var left := used;
    while left != {}
      invariant left <= used
      invariant forall k :: k in used - left ==> |k| < |id|
      decreases left
    {
      var k :| k in left;
      left := left - {k};
      if |k| >= |id| { id := k + "+"; }
    }
    assert used - left == used;
  }

  lemma FreshTask(s: State) returns (t: nat)
    ensures t !in s.tasks
  {
    t := 0;
    var left := s.tasks.Keys;
    while left != {}
      invariant left <= s.tasks.Keys
      invariant forall u :: u in s.tasks.Keys - left ==> u < t
      decreases left
    {
      var u :| u in left;
      assert s.tasks.Keys - (left - {u}) == s.tasks.Keys - left + {u};
      left := left - {u};
      if u >= t { t := u + 1; }
    }
    assert s.tasks.Keys - left == s.tasks.Keys;
  }

  function Orders(log: seq<Applied>): set<Id> {
    if log == [] then {} else Orders(log[..|log| - 1]) + {log[|log| - 1].order.id}
  }

  lemma {:induction false} NeverApplied(log: seq<Applied>, order: Id)
    requires order !in Orders(log)
    ensures Times(log, order) == 0
  {
    if log != [] { NeverApplied(log[..|log| - 1], order); }
  }

  /** An order nobody has heard of. */
  predicate Unheard(s: State, order: Id) {
    && order !in s.book && order !in s.history && order !in s.holder && order !in s.pending && Times(s.applied, order) == 0
  }

  lemma FreshOrder(s: State) returns (order: Id)
    ensures Unheard(s, order)
  {
    order := FreshIn(s.book.Keys + s.history.Keys + s.holder.Keys + s.pending.Keys + Orders(s.applied));
    NeverApplied(s.applied, order);
  }

  // ---- going on without hazards --------------------------------------------------------------------

  lemma {:induction false} CalmConcat(s: State, a: seq<Step>, b: seq<Step>)
    requires Calm(s, a) && Calm(Run(s, a), b)
    ensures Calm(s, a + b) && Run(s, a + b) == Run(Run(s, a), b)
    decreases |a|
  {
    if a == [] {
      assert a + b == b;
    } else {
      assert (a + b)[1..] == a[1..] + b && (a + b)[0] == a[0];
      CalmConcat(Next(s, a[0]), a[1..], b);
    }
  }

  lemma CalmOne(s: State, e: Step)
    requires !Hazard(s, e)
    ensures Calm(s, [e]) && Run(s, [e]) == Next(s, e)
  {
    assert [e][1..] == [];
  }

  /** Steps that are never hazards. */
  predicate IsPlain(e: Step) {
    e.BrokerUpdate? || e.SetPlaced? || e.Push? || e.Acquire? || e.Fetch? || e.FetchRaised? || e.Process? || e.NotificationSent? || e.Resolve?
    || (e.ProcessRaised? && e.failure.BEFORE_LOT?)
  }

  lemma {:induction false} PlainIsCalm(s: State, steps: seq<Step>)
    requires forall k :: 0 <= k < |steps| ==> IsPlain(steps[k])
    ensures Calm(s, steps)
    decreases |steps|
  {
    if steps != [] {
      assert IsPlain(steps[0]);
      PlainIsCalm(Next(s, steps[0]), steps[1..]);
    }
  }

  /** `s'` is `s` as far as this order, the tasks and the locks go; lots only gained. */
  ghost predicate SameFor(s: State, s': State, order: Id) {
    && ViewOf(s', order) == ViewOf(s, order) && s'.tasks == s.tasks && s'.holder == s.holder && s'.pending == s.pending
    && (forall l :: l in s.lots && s.lots[l].entryPrice.Some? ==> l in s'.lots && s'.lots[l].entryPrice.Some?)
  }

  lemma SameForTrans(s: State, s1: State, s2: State, order: Id)
    requires SameFor(s, s1, order) && SameFor(s1, s2, order)
    ensures SameFor(s, s2, order)
  {
  }

  /** A delivery that applies `o`'s fill leaves every other order as it was. */
  lemma DeliveredElsewhere(s: State, t: nat, o: BrokerOrder, newLot: Id, r: Resolution, a: Applied, order: Id)
    requires Deliverable(s, t, o, newLot) && o.id != order
    requires ResolveRole(s, o) == r && r.candidates == {} && FillOf(s, o, r, newLot, "", "") == Some(a) && a.order == o
    ensures var s' := Run(s, Delivery(t, o.id, newLot));
            && SameFor(s, s', order) && s'.lots == s.lots[a.lot := LotAfter(s.lots, a)] && Calm(s, Delivery(t, o.id, newLot))
  {
    DeliveryApplies(s, t, o, newLot, r, a);
    PlainIsCalm(s, Delivery(t, o.id, newLot));
    TimesAfter(s.applied, a, order);
    FillsAreRetakable(s, o, newLot, "", "");
    LotAfterIsPriced(s.lots, a);
  }

  lemma LotAfterIsPriced(lots: map<Id, Lot>, a: Applied)
    requires CanApply(lots, a)
    ensures LotAfter(lots, a).entryPrice.Some?
  {
  }

  // ---- other orders' fills -------------------------------------------------------------------------

  /** A new order's recorded entry under `key` makes `key` a lot with a price; it stays in the
      instrument it was in, and no other lot moves. */
  lemma EnterLot(s: State, key: Id, order: Id) returns (steps: seq<Step>)
    ensures Calm(s, steps)
    ensures var s' := Run(s, steps);
            && SameFor(s, s', order) && key in s'.lots && s'.lots[key].entryPrice.Some?
            && s'.lots == s.lots[key := s'.lots[key]]
            && (key in s.lots ==> s'.lots[key].instrument == s.lots[key].instrument && s'.lots[key].open == s.lots[key].open)
  {
    var y := FreshOrder(s);
    if y == order {
      // keep clear of the order itself
      y := FreshIn(s.book.Keys + s.history.Keys + s.holder.Keys + s.pending.Keys + Orders(s.applied) + {order});
      NeverApplied(s.applied, y);
    }
    steps := EnterLotBy(s, key, order, y);
  }

  lemma EnterLotBy(s: State, key: Id, order: Id, y: Id) returns (steps: seq<Step>)
    requires Unheard(s, y) && y != order
    ensures Calm(s, steps)
    ensures var s' := Run(s, steps);
            && SameFor(s, s', order) && key in s'.lots && s'.lots[key].entryPrice.Some?
            && s'.lots == s.lots[key := s'.lots[key]]
            && (key in s.lots ==> s'.lots[key].instrument == s.lots[key].instrument && s'.lots[key].open == s.lots[key].open)
  {
    var b := BrokerOrder(y, None, "", BUY, COMPLETE, Some(1.0), 1);
    var row := PlacementRow(key, ENTRY, None, None, None);
    var intro := [BrokerUpdate(b)];
    CalmOne(s, BrokerUpdate(b));
    var s1 := s.(book := s.book[y := b]);
    assert Run(s, intro) == s1;
    var placement := RecordPlacement(y, key, ENTRY, None, None, None);
    CalmOne(s1, placement);
    var s2 := s1.(history := s1.history[y := row]);
    assert Next(s1, placement) == s2;
    CalmConcat(s, intro, [placement]);
    var t := FreshTask(s2);
    var newLot := FreshIn(s2.lots.Keys);
    var r := Resolution(Some(ENTRY), Some(key), Some(key), None, None, None, {});
    var a := Applied(b, ENTRY, key, ArmedBracket(r, "", ""));
    DeliveredElsewhere(s2, t, b, newLot, r, a, order);
    CalmConcat(s, intro + [placement], Delivery(t, y, newLot));
    steps := intro + [placement] + Delivery(t, y, newLot);
    assert SameFor(s, s2, order);
    SameForTrans(s, s2, Run(s, steps), order);
  }

  /** A new order that a rule on `lot` claims, for all that remains, closes the lot. */
  lemma ExitLot(s: State, lot: Id, order: Id) returns (steps: seq<Step>)
    requires lot in s.lots && s.lots[lot].entryPrice.Some?
    ensures Calm(s, steps)
    ensures var s' := Run(s, steps);
            && SameFor(s, s', order) && lot in s'.lots && !s'.lots[lot].open && s'.lots == s.lots[lot := s'.lots[lot]]
  {
    var x := FreshIn(s.book.Keys + s.history.Keys + s.holder.Keys + s.pending.Keys + Orders(s.applied) + {order});
    NeverApplied(s.applied, x);
    var b := BrokerOrder(x, Some(x), "", SELL, COMPLETE, Some(1.0), Max(s.lots[lot].remaining, 1));
    var rules := map[x := Some(lot)];
    CalmOne(s, BrokerUpdate(b));
    var s1 := s.(book := s.book[x := b]);
    assert Next(s, BrokerUpdate(b)) == s1;
    CalmOne(s1, SetPlaced(rules));
    var s2 := s1.(placed := rules);
    CalmConcat(s, [BrokerUpdate(b)], [SetPlaced(rules)]);
    var t := FreshTask(s2);
    var newLot := FreshIn(s2.lots.Keys);
    var r := Resolution(Some(EXIT), Some(lot), Some(x), None, None, None, {});
    var a := Applied(b, EXIT, lot, ArmedBracket(r, "", ""));
    DeliveredElsewhere(s2, t, b, newLot, r, a, order);
    CalmConcat(s, [BrokerUpdate(b)] + [SetPlaced(rules)], Delivery(t, x, newLot));
    steps := [BrokerUpdate(b)] + [SetPlaced(rules)] + Delivery(t, x, newLot);
    assert SameFor(s, s2, order);
    SameForTrans(s, s2, Run(s, steps), order);
  }

  /** Other orders can close every open lot of an instrument. */
  lemma {:induction false} CloseAll(s: State, instrument: Key, order: Id) returns (steps: seq<Step>)
    ensures Calm(s, steps) && SameFor(s, Run(s, steps), order) && OpenLots(Run(s, steps).lots, instrument) == {}
    decreases |OpenLots(s.lots, instrument)|
  {
    var open := OpenLots(s.lots, instrument);
    if open == {} {
      steps := [];
    } else {
      var lot :| lot in open;
      var enter := EnterLot(s, lot, order);
      var s1 := Run(s, enter);
      var exit := ExitLot(s1, lot, order);
      var s2 := Run(s1, exit);
      CalmConcat(s, enter, exit);
      SameForTrans(s, s1, s2, order);
      assert OpenLots(s2.lots, instrument) == open - {lot};
      var rest := CloseAll(s2, instrument, order);
      CalmConcat(s, enter + exit, rest);
      steps := enter + exit + rest;
      SameForTrans(s, s2, Run(s, steps), order);
    }
  }

  // ---- taking a loose fill once more -----------------------------------------------------------------

  /** The task in an order's lock can end without writing anything. */
  lemma Unlock(s: State, order: Id) returns (steps: seq<Step>)
    requires AllNamed(s) && !Notified(ViewOf(s, order))
    ensures Calm(s, steps)
    ensures var s' := Run(s, steps);
            && order !in s'.holder && ViewOf(s', order) == ViewOf(s, order).(held := None)
            && s' == s.(tasks := s'.tasks, holder := s'.holder)
  {
    steps := [];
    if order in s.holder {
      LocksAreNamed(s);
      var t := s.holder[order];
      assert Named(order, ViewOf(s, order));
      var newLot := FreshIn(s.lots.Keys);
      var e := if s.tasks[t].Fetching? then FetchRaised(t) else ProcessRaised(t, newLot, "", "", BEFORE_LOT);
      assert Next(s, e) == Release(s, t);
      ReleaseFrees(s, t);
      CalmOne(s, e);
      steps := [e];
    }
  }

  /** The order's fill was applied once more; what is asked stays asked, and priced lots stay priced. */
  ghost predicate Taken(s: State, s': State, order: Id) {
    && Times(s'.applied, order) == Times(s.applied, order) + 1 && s'.pending == s.pending
    && (forall l :: l in s.lots && s.lots[l].entryPrice.Some? ==> l in s'.lots && s'.lots[l].entryPrice.Some?)
  }

  lemma DeliveryTakes(s: State, t: nat, o: BrokerOrder, newLot: Id, r: Resolution, a: Applied)
    requires Deliverable(s, t, o, newLot) && ResolveRole(s, o) == r && r.candidates == {}
    requires FillOf(s, o, r, newLot, "", "") == Some(a) && a.order == o
    ensures Calm(s, Delivery(t, o.id, newLot)) && Taken(s, Run(s, Delivery(t, o.id, newLot)), o.id)
  {
    DeliveryApplies(s, t, o, newLot, r, a);
    FillsAreRetakable(s, o, newLot, "", "");
    LotAfterIsPriced(s.lots, a);
    PlainIsCalm(s, Delivery(t, o.id, newLot));
  }

  /** A loose fill can be applied by the next delivery, whatever its looseness: as the entry its row
      speaks of, as the exit of a rule that comes to claim its tag, or as an external entry once its
      instrument has no open lot. */
  lemma TakeOnce(s: State, order: Id) returns (steps: seq<Step>)
    requires order !in s.holder && order in s.book && s.book[order].id == order && s.book[order].status == COMPLETE
    requires Loose(ViewOf(s, order))
    ensures Calm(s, steps)
    ensures Taken(s, Run(s, steps), order)
  {
    var o := s.book[order];
    if o.tag.Some? {
      steps := TakeByTag(s, o, "lot");
    } else if RoleIn(ViewOf(s, order)) == Some(ENTRY) {
      steps := TakeAsEntry(s, o);
    } else {
      var close := CloseAll(s, o.instrument, order);
      var s1 := Run(s, close);
      var rest := TakeAsEntry(s1, o);
      CalmConcat(s, close, rest);
      steps := close + rest;
    }
  }

  lemma TakeByTag(s: State, o: BrokerOrder, lot: Id) returns (steps: seq<Step>)
    requires o.id !in s.holder && At(s.book, o.id) == Some(o) && o.status == COMPLETE && o.tag.Some? && Loose(ViewOf(s, o.id))
    ensures Calm(s, steps)
    ensures Taken(s, Run(s, steps), o.id)
  {
    var enter := EnterLot(s, lot, o.id);
    var s1 := Run(s, enter);
    assert ViewOf(s1, o.id) == ViewOf(s, o.id);
    var r := Resolution(Some(EXIT), Some(lot), o.tag, None, None, None, {});
    var rest := TakeAs(s1, map[o.tag.value := Some(lot)], o, r, Applied(o, EXIT, lot, ArmedBracket(r, "", "")));
    CalmConcat(s, enter, rest);
    steps := enter + rest;
  }

  lemma TakeAsEntry(s: State, o: BrokerOrder) returns (steps: seq<Step>)
    requires o.id !in s.holder && At(s.book, o.id) == Some(o) && o.status == COMPLETE && o.tag.None? && Loose(ViewOf(s, o.id))
    requires RoleIn(ViewOf(s, o.id)) == Some(ENTRY) || OpenLots(s.lots, o.instrument) == {}
    ensures Calm(s, steps)
    ensures Taken(s, Run(s, steps), o.id)
  {
    var t := FreshTask(s);
    var newLot := FreshIn(s.lots.Keys);
    EntryRole(s, o, newLot);
    var r := ResolveRole(s, o);
    DeliveryTakes(s, t, o, newLot, r, Applied(o, ENTRY, if r.lot.Some? then r.lot.value else newLot, ArmedBracket(r, "", "")));
    steps := Delivery(t, o.id, newLot);
  }

  lemma EntryRole(s: State, o: BrokerOrder, newLot: Id)
    requires At(s.book, o.id) == Some(o) && o.status == COMPLETE && o.tag.None? && Loose(ViewOf(s, o.id))
    requires RoleIn(ViewOf(s, o.id)) == Some(ENTRY) || OpenLots(s.lots, o.instrument) == {}
    ensures var r := ResolveRole(s, o);
            && r.role == Some(ENTRY) && r.candidates == {}
            && FillOf(s, o, r, newLot, "", "") == Some(Applied(o, ENTRY, if r.lot.Some? then r.lot.value else newLot, ArmedBracket(r, "", "")))
  {
    assert RoleIn(ViewOf(s, o.id)) != Some(ENTRY) ==> RoleIn(ViewOf(s, o.id)).None?;
  }

  lemma TakeAs(s: State, rules: map<Id, Option<Id>>, o: BrokerOrder, r: Resolution, a: Applied) returns (steps: seq<Step>)
    requires o.id !in s.holder && At(s.book, o.id) == Some(o) && o.status == COMPLETE && Fillable(o) && !AlreadyApplied(s, o.id)
    requires ResolveRole(s.(placed := rules), o) == r && r.candidates == {} && r.role == Some(EXIT) && r.lot.Some?
    requires a == Applied(o, EXIT, r.lot.value, ArmedBracket(r, "", "")) && CanApply(s.lots, a)
    ensures Calm(s, steps)
    ensures Taken(s, Run(s, steps), o.id)
  {
    var s1 := s.(placed := rules);
    CalmOne(s, SetPlaced(rules));
    var t := FreshTask(s);
    var newLot := FreshIn(s.lots.Keys);
    assert FillOf(s1, o, r, newLot, "", "") == Some(a);
    DeliveryTakes(s1, t, o, newLot, r, a);
    CalmConcat(s, [SetPlaced(rules)], Delivery(t, o.id, newLot));
    steps := [SetPlaced(rules)] + Delivery(t, o.id, newLot);
  }

  // ---- exactness ---------------------------------------------------------------------------------------

  /** From here some order can be applied twice without a further hazard. */
  ghost predicate CanDouble(s: State) {
    exists steps, order :: Calm(s, steps) && Times(Run(s, steps).applied, order) >= 2
  }

  lemma AnswerTakes(s: State, order: Id, lot: Id)
    requires order in s.pending && lot in s.pending[order].candidates && s.pending[order].order.id == order
    requires Fillable(s.pending[order].order) && lot in s.lots && s.lots[lot].entryPrice.Some?
    ensures Calm(s, [Resolve(order, lot)]) && Times(Run(s, [Resolve(order, lot)]).applied, order) == Times(s.applied, order) + 1
  {
    AnswerApplies(s, order, lot);
    CalmOne(s, Resolve(order, lot));
  }

  /** Applied once and loose. */
  lemma AppliedAndLoose(s: State, order: Id)
    requires AllNamed(s) && Times(s.applied, order) == 1 && Completed(ViewOf(s, order)) && Loose(ViewOf(s, order))
    ensures CanDouble(s)
  {
    assert Named(order, ViewOf(s, order));
    var unlock := Unlock(s, order);
    var s1 := Run(s, unlock);
    var take := TakeOnce(s1, order);
    CalmConcat(s, unlock, take);
  }

  /** Set aside and loose: a delivery takes it, then a human's answer does. */
  lemma AsideAndLoose(s: State, order: Id)
    requires AllNamed(s) && order in s.pending && Completed(ViewOf(s, order)) && Loose(ViewOf(s, order))
    requires s.book[order] == s.pending[order].order
    ensures CanDouble(s)
  {
    assert Named(order, ViewOf(s, order));
    var unlock := Unlock(s, order);
    var s1 := Run(s, unlock);
    var lot :| lot in s.pending[order].candidates;
    var rest := TakeAndAnswer(s1, order, lot);
    CalmConcat(s, unlock, rest);
  }

  lemma TakeAndAnswer(s: State, order: Id, lot: Id) returns (steps: seq<Step>)
    requires order in s.pending && lot in s.pending[order].candidates && s.pending[order].order.id == order && order !in s.holder
    requires Completed(ViewOf(s, order)) && Loose(ViewOf(s, order)) && s.book[order] == s.pending[order].order
    ensures Calm(s, steps) && Times(Run(s, steps).applied, order) == Times(s.applied, order) + 2
  {
    var enter := EnterLot(s, lot, order);
    var s1 := Run(s, enter);
    assert ViewOf(s1, order) == ViewOf(s, order);
    var take := TakeOnce(s1, order);
    var s2 := Run(s1, take);
    CalmConcat(s, enter, take);
    AnswerTakes(s2, order, lot);
    CalmConcat(s, enter + take, [Resolve(order, lot)]);
    steps := enter + take + [Resolve(order, lot)];
  }

  /** Applied by an answer that is still asked for. */
  lemma AppliedAndAsked(s: State, order: Id, lot: Id)
    requires Times(s.applied, order) >= 1 && order in s.pending && lot in s.pending[order].candidates
    requires s.pending[order].order.id == order && Fillable(s.pending[order].order) && lot in s.lots && s.lots[lot].entryPrice.Some?
    ensures CanDouble(s)
  {
    AnswerTakes(s, order, lot);
  }

  lemma HazardCanDouble(s: State, e: Step)
    requires AllNamed(s) && AllSettled(s) && Hazard(s, e)
    ensures CanDouble(Next(s, e))
  {
    StepKeepsOrders(s, e);
    match e
    case RecordPlacement(order, _, _, _, _, _) => LooseAfterwards(s, e, order);
    case NotificationRaised(t) =>
      LocksAreNamed(s);
      LooseAfterwards(s, e, s.tasks[t].order);
    case ProcessRaised(t, newLot, targetRule, stopRule, failure) => UnrecordedIsLoose(s, t, newLot, targetRule, stopRule, failure);
    case ResolveRaised(order, lot, failure) => AnswerStaysAsked(s, order, lot, failure);
    case _ =>
  }

  lemma LooseAfterwards(s: State, e: Step, order: Id)
    requires AllNamed(s) && AllSettled(s) && Hazard(s, e) && AllNamed(Next(s, e))
    requires (e.RecordPlacement? && e.order == order)
          || (e.NotificationRaised? && e.task in s.tasks && s.tasks[e.task].order == order && Held(s, order) == Some(s.tasks[e.task]))
    ensures CanDouble(Next(s, e))
  {
    var s' := Next(s, e);
    assert Named(order, ViewOf(s, order)) && Settled(ViewOf(s, order));
    if e.RecordPlacement? {
      RecordWrites(s, order, PlacementRow(e.key, e.role, e.target, e.stop, e.gap));
      WritesOnlyTouch(s, s', order);
    } else {
      LocksAreNamed(s);
      ReleaseFrees(s, e.task);
    }
    if order in s.pending { AsideAndLoose(s', order); } else { AppliedAndLoose(s', order); }
  }

  /** A raise between the lot and the row. */
  lemma UnrecordedIsLoose(s: State, t: nat, newLot: Id, targetRule: Id, stopRule: Id, failure: Failure)
    requires AllNamed(s) && AllSettled(s) && Hazard(s, ProcessRaised(t, newLot, targetRule, stopRule, failure))
    requires AllNamed(Next(s, ProcessRaised(t, newLot, targetRule, stopRule, failure)))
    ensures CanDouble(Next(s, ProcessRaised(t, newLot, targetRule, stopRule, failure)))
  {
    var order, fill := s.tasks[t].order, WrittenFill(s, s.tasks[t], newLot, targetRule, stopRule, failure);
    LocksAreNamed(s);
    assert Named(order, ViewOf(s, order)) && Settled(ViewOf(s, order));
    FillsAreRetakable(s, s.tasks[t].found.value, newLot, targetRule, stopRule);
    var s1 := ApplyIf(s, fill);
    ApplyWrites(s, fill, order);
    WritesOnlyTouch(s, s1, order);
    WritesKeepLocks(s, s1, order);
    ReleaseFrees(s1, t);
    AppliedAndLoose(Release(s1, t), order);
  }

  /** A raise between the lot and the end of an answer. */
  lemma AnswerStaysAsked(s: State, order: Id, lot: Id, failure: Failure)
    requires AllNamed(s) && AllSettled(s) && Hazard(s, ResolveRaised(order, lot, failure))
    ensures CanDouble(Next(s, ResolveRaised(order, lot, failure)))
  {
    assert Named(order, ViewOf(s, order)) && Settled(ViewOf(s, order));
    var s1, s2, fill := AnswerWrites(s, order, lot);
    LotAfterIsPriced(s.lots, fill.value);
    RecordLeavesTheRest(s1, order, ResolvedRow(fill.value));
    var s' := if failure == BEFORE_DELETE then s2 else s1;
    RaisedAnswerIs(s, order, lot, failure, s1, s2);
    AppliedAndAsked(s', order, lot);
  }

  lemma RaisedAnswerIs(s: State, order: Id, lot: Id, failure: Failure, s1: State, s2: State)
    requires Answers(s, order, lot) && failure != BEFORE_LOT && s.pending[order].order.id == order
    requires s1 == Apply(s, ResolvedFill(s, order, lot)) && s2 == Record(s1, order, ResolvedRow(ResolvedFill(s, order, lot)))
    ensures Next(s, ResolveRaised(order, lot, failure)) == if failure == BEFORE_DELETE then s2 else s1
  {
  }

  /** The condition is exact: from a settled state a step is a hazard if and only if after it some order
      can be applied twice without any further hazard. */
  lemma HazardIffCanDouble(s: State, e: Step)
    requires AllNamed(s) && AllSettled(s) && LogIsTrue(s)
    ensures Hazard(s, e) <==> CanDouble(Next(s, e))
  {
    if Hazard(s, e) {
      HazardCanDouble(s, e);
    } else {
      StepKeepsOrders(s, e);
      StepLogsTruth(s, e);
      forall steps, order | Calm(Next(s, e), steps) ensures Times(Run(Next(s, e), steps).applied, order) < 2 {
        CalmRunsSettle(Next(s, e), steps);
        assert Settled(ViewOf(Run(Next(s, e), steps), order));
      }
    }
  }

  // ---- what the other hazards do, step by step ----------------------------------------------------------

  /** A complete order that is recorded as an entry and not as complete, and that no rule claims. */
  predicate IsOpenEntry(s: State, o: BrokerOrder) {
    && o.status == COMPLETE && Fillable(o) && (o.tag.None? || o.tag.value !in s.placed)
    && !AlreadyApplied(s, o.id) && RoleIn(ViewOf(s, o.id)) == Some(ENTRY)
  }

  lemma OpenEntryFills(s: State, o: BrokerOrder, newLot: Id)
    requires IsOpenEntry(s, o)
    ensures var r := ResolveRole(s, o);
            && r.candidates == {}
            && FillOf(s, o, r, newLot, "", "") == Some(Applied(o, ENTRY, if r.lot.Some? then r.lot.value else newLot, ArmedBracket(r, "", "")))
  {
    assert ResolveRole(s, o).role == Some(ENTRY);
  }

  lemma OpenEntryIsDelivered(s: State, u: nat, o: BrokerOrder, newLot: Id)
    requires IsOpenEntry(s, o) && Deliverable(s, u, o, newLot)
    ensures Times(Run(s, Delivery(u, o.id, newLot)).applied, o.id) == Times(s.applied, o.id) + 1
  {
    OpenEntryFills(s, o, newLot);
    var r := ResolveRole(s, o);
    DeliveryApplies(s, u, o, newLot, r, Applied(o, ENTRY, if r.lot.Some? then r.lot.value else newLot, ArmedBracket(r, "", "")));
  }

  /** A recorded entry whose lot was written when its row could not be: the next delivery adds to the lot
      once more. */
  lemma UnrecordedEntryReapplies(s: State, t: nat, newLot: Id, u: nat, other: Id)
    requires AllNamed(s) && AllSettled(s) && t in s.tasks && s.tasks[t].Fetched? && s.tasks[t].found.Some? && newLot !in s.lots
    requires IsOpenEntry(s, s.tasks[t].found.value) && u !in s.tasks
    requires other !in Next(s, ProcessRaised(t, newLot, "", "", BEFORE_ROW)).lots
    ensures var order, e := s.tasks[t].order, ProcessRaised(t, newLot, "", "", BEFORE_ROW);
            && Hazard(s, e)
            && Times(Run(s, [e] + Delivery(u, order, other)).applied, order) == Times(s.applied, order) + 2
  {
    var order, o := s.tasks[t].order, s.tasks[t].found.value;
    var e := ProcessRaised(t, newLot, "", "", BEFORE_ROW);
    LocksAreNamed(s);
    assert Named(order, ViewOf(s, order)) && Settled(ViewOf(s, order)) && o.id == order;
    RaisedEntryStaysOpen(s, t, o, newLot);
    RunCons(s, e, Delivery(u, order, other));
    OpenEntryIsDelivered(Next(s, e), u, o, other);
  }

  lemma RaisedEntryStaysOpen(s: State, t: nat, o: BrokerOrder, newLot: Id)
    requires t in s.tasks && s.tasks[t] == Fetched(o.id, Some(o)) && newLot !in s.lots && IsOpenEntry(s, o) && At(s.book, o.id) == Some(o)
    ensures var e := ProcessRaised(t, newLot, "", "", BEFORE_ROW);
            && Hazard(s, e) && IsOpenEntry(Next(s, e), o) && Times(Next(s, e).applied, o.id) == Times(s.applied, o.id) + 1
            && o.id !in Next(s, e).holder && Next(s, e).book == s.book && Next(s, e).tasks == s.tasks - {t}
  {
    OpenEntryFills(s, o, newLot);
    var fill := FillOfTask(s, s.tasks[t], newLot, "", "");
    assert Next(s, ProcessRaised(t, newLot, "", "", BEFORE_ROW)) == Release(ApplyIf(s, fill), t);
    ApplyWrites(s, fill, o.id);
  }

  /** An answer that raised after it had written the lot is still asked for, and given again it is applied
      again. */
  lemma RaisedAnswerReapplies(s: State, order: Id, lot: Id, failure: Failure)
    requires AllNamed(s) && AllSettled(s) && Answers(s, order, lot) && failure != BEFORE_LOT
    ensures Hazard(s, ResolveRaised(order, lot, failure))
    ensures Times(Run(s, [ResolveRaised(order, lot, failure)] + [Resolve(order, lot)]).applied, order) == Times(s.applied, order) + 2
  {
    assert Named(order, ViewOf(s, order)) && Settled(ViewOf(s, order));
    var s1, s2, fill := AnswerWrites(s, order, lot);
    LotAfterIsPriced(s.lots, fill.value);
    RecordLeavesTheRest(s1, order, ResolvedRow(fill.value));
    RaisedAnswerIs(s, order, lot, failure, s1, s2);
    RunCons(s, ResolveRaised(order, lot, failure), [Resolve(order, lot)]);
    AnswerApplies(if failure == BEFORE_DELETE then s2 else s1, order, lot);
  }

  /** Recording late that an order without a tag was an exit, or a manual one, does no harm. */
  lemma LateExitRecordIsHarmless(s: State, order: Id, key: Id, role: OrderRole, target: Option<real>, stop: Option<real>, gap: Option<real>)
    requires AllNamed(s) && AllSettled(s) && LogIsTrue(s) && Times(s.applied, order) == 1
    requires role != ENTRY && order in s.book && s.book[order].tag.None?
    ensures !CanDouble(Next(s, RecordPlacement(order, key, role, target, stop, gap)))
  {
    HazardIffCanDouble(s, RecordPlacement(order, key, role, target, stop, gap));
  }
}
