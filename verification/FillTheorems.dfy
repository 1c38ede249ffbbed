/** Runs of fills: at most once, in some serial order, and exactly when not. */
module FillTheorems {
  import opened Trading
  import opened Fills
  import opened FillMachine
  import opened FillSafety

  lemma InitialIsSettled(lots: map<Id, Lot>)
    ensures AllNamed(Initial(lots)) && AllSettled(Initial(lots))
  {
  }

  lemma {:induction false} RunKeepsNames(s: State, steps: seq<Step>)
    requires AllNamed(s)
    ensures AllNamed(Run(s, steps))
    decreases |steps|
  {
    if steps != [] {
      StepKeepsOrders(s, steps[0]);
      RunKeepsNames(Next(s, steps[0]), steps[1..]);
    }
  }

  /** A resolved fill never comes back, whatever the interleaving, redelivery or failure. */
  lemma ResolvedNeverReturns(lots: map<Id, Lot>, steps: seq<Step>, order: Id)
    requires order in Run(Initial(lots), steps).resolved
    ensures order !in Run(Initial(lots), steps).pending
  {
    InitialIsSettled(lots);
    RunKeepsNames(Initial(lots), steps);
    assert Named(order, ViewOf(Run(Initial(lots), steps), order));
  }

  // ---- the lots are a serial application of the log ---------------------------------------------------

  /** The lots after the logged fills, one after the other. */
  function Replay(lots: map<Id, Lot>, log: seq<Applied>): map<Id, Lot> {
    if log == [] then lots
    else
      var before := Replay(lots, log[..|log| - 1]);
      var a := log[|log| - 1];
      if CanApply(before, a) then before[a.lot := LotAfter(before, a)] else before
  }

  lemma ApplyIfReplays(lots: map<Id, Lot>, s: State, fill: Option<Applied>)
    requires s.lots == Replay(lots, s.applied)
    ensures ApplyIf(s, fill).lots == Replay(lots, ApplyIf(s, fill).applied)
  {
  }

  /** The fill a step applies, if any: what a human answered, or what a sighting makes of a task's order. */
  function FillIn(s: State, e: Step): Option<Applied> {
    match e
    case Resolve(order, lot) => AnswerOf(s, order, lot)
    case ResolveRaised(order, lot, failure) => if failure.BEFORE_LOT? then None else AnswerOf(s, order, lot)
    case Process(t, newLot, targetRule, stopRule) =>
      if t in s.tasks && newLot !in s.lots then FillOfTask(s, s.tasks[t], newLot, targetRule, stopRule) else None
    case ProcessRaised(t, newLot, targetRule, stopRule, failure) =>
      if t in s.tasks && newLot !in s.lots && !failure.BEFORE_DELETE? then WrittenFill(s, s.tasks[t], newLot, targetRule, stopRule, failure) else None
    case _ => None
  }

  function AnswerOf(s: State, order: Id, lot: Id): Option<Applied> {
    if order in s.pending && lot in s.pending[order].candidates then Some(ResolvedFill(s, order, lot)) else None
  }

  lemma StepAppliesOneFill(s: State, e: Step)
    ensures Next(s, e).lots == ApplyIf(s, FillIn(s, e)).lots && Next(s, e).applied == ApplyIf(s, FillIn(s, e)).applied
  {
    match e
    case Resolve(order, lot) => if order in s.pending && lot in s.pending[order].candidates { ResolveAppliesItsFill(s, order, lot); }
    case ResolveRaised(order, lot, failure) => RaisedAnswerAppliesItsFill(s, order, lot, failure);
    case BrokerUpdate(_) =>
    case Push(_, _) =>
    case SetPlaced(_) =>
    case RecordPlacement(_, _, _, _, _, _) =>
    case _ => if e.task in s.tasks { TaskAppliesOneFill(s, e); }
  }

  lemma TaskAppliesOneFill(s: State, e: Step)
    requires IsTaskStep(e) && e.task in s.tasks
    ensures TaskStep(s, e).lots == ApplyIf(s, FillIn(s, e)).lots && TaskStep(s, e).applied == ApplyIf(s, FillIn(s, e)).applied
  {
    match e
    case Process(t, newLot, targetRule, stopRule) =>
      if s.tasks[t].Fetched? && newLot !in s.lots { ProcessAppliesOneFill(s, t, newLot, targetRule, stopRule); }
    case ProcessRaised(t, newLot, targetRule, stopRule, failure) => RaisedAppliesOneFill(s, t, newLot, targetRule, stopRule, failure);
    case _ => OtherTaskStepsApplyNothing(s, e);
  }

  lemma RaisedAppliesOneFill(s: State, t: nat, newLot: Id, targetRule: Id, stopRule: Id, failure: Failure)
    requires t in s.tasks
    ensures var e := ProcessRaised(t, newLot, targetRule, stopRule, failure);
            TaskStep(s, e).lots == ApplyIf(s, FillIn(s, e)).lots && TaskStep(s, e).applied == ApplyIf(s, FillIn(s, e)).applied
  {
  }

  lemma RaisedAnswerAppliesItsFill(s: State, order: Id, lot: Id, failure: Failure)
    ensures var s', fill := ResolveRaisedStep(s, order, lot, failure), FillIn(s, ResolveRaised(order, lot, failure));
            s'.lots == ApplyIf(s, fill).lots && s'.applied == ApplyIf(s, fill).applied && s'.book == s.book
  {
    if order in s.pending && lot in s.pending[order].candidates {
      var a := ResolvedFill(s, order, lot);
      RecordLeavesTheRest(Apply(s, a), a.order.id, ResolvedRow(a));
    }
  }

  lemma ResolveAppliesItsFill(s: State, order: Id, lot: Id)
    requires order in s.pending && lot in s.pending[order].candidates
    ensures var s1, s' := Apply(s, ResolvedFill(s, order, lot)), ResolveStep(s, order, lot);
            s'.lots == s1.lots && s'.applied == s1.applied && s'.book == s.book
  {
    var a := ResolvedFill(s, order, lot);
    RecordLeavesTheRest(Apply(s, a), a.order.id, ResolvedRow(a));
  }

  lemma ProcessAppliesOneFill(s: State, t: nat, newLot: Id, targetRule: Id, stopRule: Id)
    requires t in s.tasks && s.tasks[t].Fetched? && newLot !in s.lots
    ensures var fill := FillIn(s, Process(t, newLot, targetRule, stopRule));
            var s' := ProcessStep(s, t, newLot, targetRule, stopRule);
            s'.lots == ApplyIf(s, fill).lots && s'.applied == ApplyIf(s, fill).applied
  {
    if s.tasks[t].found.Some? {
      var o := s.tasks[t].found.value;
      SightingAppliesItsFill(s, o, ResolveRole(s, o), newLot, targetRule, stopRule);
    }
  }

  lemma SightingAppliesItsFill(s: State, o: BrokerOrder, r: Resolution, newLot: Id, targetRule: Id, stopRule: Id)
    ensures var fill := FillOf(s, o, r, newLot, targetRule, stopRule);
            var s' := ApplyAndRecord(s, o, r, newLot, targetRule, stopRule);
            s'.lots == ApplyIf(s, fill).lots && s'.applied == ApplyIf(s, fill).applied && s'.tasks == s.tasks && s'.book == s.book
  {
    var fill := FillOf(s, o, r, newLot, targetRule, stopRule);
    RecordLeavesTheRest(ApplyIf(s, fill), o.id, RowOf(o, r, fill));
  }

  lemma RecordLeavesTheRest(s: State, order: Id, row: HistoryRow)
    ensures Record(s, order, row) == s.(history := Record(s, order, row).history)
  {
  }

  lemma OtherTaskStepsApplyNothing(s: State, e: Step)
    requires IsTaskStep(e) && !e.Process? && !e.ProcessRaised? && e.task in s.tasks
    ensures TaskStep(s, e).lots == s.lots && TaskStep(s, e).applied == s.applied
  {
  }

  /** In every run, hazards or not, the lots are what the logged fills make of them one by one. */
  lemma {:induction false} LotsAreSerial(lots: map<Id, Lot>, s: State, steps: seq<Step>)
    requires s.lots == Replay(lots, s.applied)
    ensures Run(s, steps).lots == Replay(lots, Run(s, steps).applied)
    decreases |steps|
  {
    if steps != [] {
      StepAppliesOneFill(s, steps[0]);
      ApplyIfReplays(lots, s, FillIn(s, steps[0]));
      LotsAreSerial(lots, Next(s, steps[0]), steps[1..]);
    }
  }

  // ---- at most once ----------------------------------------------------------------------------------

  ghost predicate Calm(s: State, steps: seq<Step>)
    decreases |steps|
  {
    steps == [] || (!Hazard(s, steps[0]) && Calm(Next(s, steps[0]), steps[1..]))
  }

  /** Every logged fill is the broker's own complete order, with a price and a quantity. */
  ghost predicate LogIsTrue(s: State) {
    forall k :: 0 <= k < |s.applied| ==> IsBrokerFill(s, s.applied[k].order)
  }

  predicate IsBrokerFill(s: State, o: BrokerOrder) {
    o.status == COMPLETE && Fillable(o) && At(s.book, o.id) == Some(o)
  }

  lemma FillInIsTrue(s: State, e: Step)
    requires AllNamed(s) && AllSettled(s) && FillIn(s, e).Some? && CanApply(s.lots, FillIn(s, e).value)
    ensures IsBrokerFill(s, FillIn(s, e).value.order)
  {
    var order := if e.Resolve? || e.ResolveRaised? then e.order else s.tasks[e.task].order;
    assert Named(order, ViewOf(s, order)) && Settled(ViewOf(s, order));
    if e.Process? || e.ProcessRaised? {
      LocksAreNamed(s);
      FillsAreRetakable(s, s.tasks[e.task].found.value, e.newLot, e.targetRule, e.stopRule);
    }
  }

  lemma StepLogsTruth(s: State, e: Step)
    requires AllNamed(s) && AllSettled(s) && LogIsTrue(s)
    ensures LogIsTrue(Next(s, e))
  {
    StepAppliesOneFill(s, e);
    if FillIn(s, e).Some? && CanApply(s.lots, FillIn(s, e).value) { FillInIsTrue(s, e); }
    CompleteIsFinal(s, e);
    forall k | 0 <= k < |Next(s, e).applied| ensures IsBrokerFill(Next(s, e), Next(s, e).applied[k].order) {
      if k < |s.applied| { assert Next(s, e).applied[k] == s.applied[k] && IsBrokerFill(s, s.applied[k].order); }
    }
  }

  lemma CompleteIsFinal(s: State, e: Step)
    ensures forall o :: o in s.book && s.book[o].status == COMPLETE ==> At(Next(s, e).book, o) == Some(s.book[o])
  {
    if !e.BrokerUpdate? { OnlyTheBrokerWritesItsBook(s, e); }
  }

  lemma OnlyTheBrokerWritesItsBook(s: State, e: Step)
    requires !e.BrokerUpdate?
    ensures Next(s, e).book == s.book
  {
    match e
    case BrokerUpdate(_) =>
    case SetPlaced(_) =>
    case Push(_, _) =>
    case Resolve(order, lot) => if order in s.pending && lot in s.pending[order].candidates { ResolveAppliesItsFill(s, order, lot); }
    case ResolveRaised(order, lot, failure) => RaisedAnswerAppliesItsFill(s, order, lot, failure);
    case RecordPlacement(order, key, role, target, stop, gap) => RecordLeavesTheRest(s, order, PlacementRow(key, role, target, stop, gap));
    case _ => if e.task in s.tasks { TaskStepsLeaveTheBook(s, e); }
  }

  lemma TaskStepsLeaveTheBook(s: State, e: Step)
    requires IsTaskStep(e) && e.task in s.tasks
    ensures TaskStep(s, e).book == s.book
  {
    if e.Process? && s.tasks[e.task].Fetched? && s.tasks[e.task].found.Some? {
      var o := s.tasks[e.task].found.value;
      SightingAppliesItsFill(s, o, ResolveRole(s, o), e.newLot, e.targetRule, e.stopRule);
      ProcessLeavesTheBook(s, e.task, e.newLot, e.targetRule, e.stopRule, ResolveRole(s, o));
    } else if e.NotificationSent? && s.tasks[e.task].Notifying? {
      RecordLeavesTheRest(s, s.tasks[e.task].order, SightedRow(s.tasks[e.task]));
    }
  }

  lemma ProcessLeavesTheBook(s: State, t: nat, newLot: Id, targetRule: Id, stopRule: Id, r: Resolution)
    requires t in s.tasks && s.tasks[t].Fetched? && s.tasks[t].found.Some? && r == ResolveRole(s, s.tasks[t].found.value)
    requires ApplyAndRecord(s, s.tasks[t].found.value, r, newLot, targetRule, stopRule).book == s.book
    requires ApplyAndRecord(s, s.tasks[t].found.value, r, newLot, targetRule, stopRule).tasks == s.tasks
    ensures ProcessStep(s, t, newLot, targetRule, stopRule).book == s.book
  {
  }

  lemma {:induction false} CalmRunsSettle(s: State, steps: seq<Step>)
    requires AllNamed(s) && AllSettled(s) && LogIsTrue(s) && Calm(s, steps)
    ensures AllSettled(Run(s, steps)) && LogIsTrue(Run(s, steps))
    decreases |steps|
  {
    if steps != [] {
      StepKeepsOrders(s, steps[0]);
      StepLogsTruth(s, steps[0]);
      CalmRunsSettle(Next(s, steps[0]), steps[1..]);
    }
  }

  /** At most once: in every run without a hazard, whatever the interleaving of redelivered pushes,
      resolves and failures, each broker order changed the lots at most once; it did so as the broker's
      own complete order; and the lots are the serial application of exactly those fills. */
  lemma AtMostOnce(lots: map<Id, Lot>, steps: seq<Step>)
    requires Calm(Initial(lots), steps)
    ensures var s := Run(Initial(lots), steps);
            && (forall o :: Times(s.applied, o) <= 1)
            && LogIsTrue(s)
            && s.lots == Replay(lots, s.applied)
  {
    InitialIsSettled(lots);
    CalmRunsSettle(Initial(lots), steps);
    LotsAreSerial(lots, Initial(lots), steps);
    forall o ensures Times(Run(Initial(lots), steps).applied, o) <= 1 { assert Settled(ViewOf(Run(Initial(lots), steps), o)); }
  }

  // ---- what the hazards do -------------------------------------------------------------------------------

  lemma RunCons(s: State, e: Step, rest: seq<Step>)
    ensures Run(s, [e] + rest) == Run(Next(s, e), rest)
  {
  }

  /** One undisturbed delivery of a push. */
  function Delivery(t: nat, order: Id, newLot: Id): seq<Step> {
    [Push(t, order), Acquire(t), Fetch(t), Process(t, newLot, "", "")]
  }

  lemma RunFour(s: State, a: Step, b: Step, c: Step, d: Step)
    ensures Run(s, [a, b, c, d]) == Next(Next(Next(Next(s, a), b), c), d)
  {
    var s1, s2, s3 := Next(s, a), Next(Next(s, a), b), Next(Next(Next(s, a), b), c);
    assert [a, b, c, d][1..] == [b, c, d] && Run(s, [a, b, c, d]) == Run(s1, [b, c, d]);
    assert [b, c, d][1..] == [c, d] && Run(s1, [b, c, d]) == Run(s2, [c, d]);
    assert [c, d][1..] == [d] && Run(s2, [c, d]) == Run(s3, [d]);
    assert [d][1..] == [] && Run(s3, [d]) == Next(s3, d);
  }

  /** The state in which a delivery's order has been fetched under its lock. */
  function WithFetched(s: State, t: nat, o: BrokerOrder): State {
    s.(tasks := s.tasks[t := Fetched(o.id, Some(o))], holder := s.holder[o.id := t])
  }

  lemma DeliveryFetches(s: State, t: nat, order: Id)
    requires t !in s.tasks && order !in s.holder && order in s.book && s.book[order].id == order
    ensures Next(Next(Next(s, Push(t, order)), Acquire(t)), Fetch(t)) == WithFetched(s, t, s.book[order])
  {
    var s1 := Deliver(s, t, order);
    assert Next(s, Push(t, order)) == s1;
    var s2 := Locked(s1, t);
    assert Next(s1, Acquire(t)) == s2;
    assert Next(s2, Fetch(t)) == FetchStep(s2, t);
  }

  lemma DeliveryProcesses(s: State, t: nat, order: Id, newLot: Id)
    requires t !in s.tasks && order !in s.holder && order in s.book && s.book[order].id == order && newLot !in s.lots
    ensures Run(s, Delivery(t, order, newLot)) == ProcessStep(WithFetched(s, t, s.book[order]), t, newLot, "", "")
  {
    RunFour(s, Push(t, order), Acquire(t), Fetch(t), Process(t, newLot, "", ""));
    DeliveryFetches(s, t, order);
    ProcessIsNext(WithFetched(s, t, s.book[order]), t, newLot);
  }

  lemma ProcessIsNext(s: State, t: nat, newLot: Id)
    requires t in s.tasks && s.tasks[t].Fetched? && newLot !in s.lots
    ensures Next(s, Process(t, newLot, "", "")) == ProcessStep(s, t, newLot, "", "")
  {
  }

  /** What a delivery does when its order resolves to one fill. */
  lemma DeliveryApplies(s: State, t: nat, o: BrokerOrder, newLot: Id, r: Resolution, a: Applied)
    requires t !in s.tasks && o.id !in s.holder && At(s.book, o.id) == Some(o) && newLot !in s.lots
    requires ResolveRole(s, o) == r && r.candidates == {} && FillOf(s, o, r, newLot, "", "") == Some(a) && a.order == o
    ensures var s' := Run(s, Delivery(t, o.id, newLot));
            && s' == s.(lots := s.lots[a.lot := LotAfter(s.lots, a)], applied := s.applied + [a],
                        history := s.history[o.id := Upserted(s.history, o.id, RowOf(o, r, Some(a)))])
            && Times(s'.applied, o.id) == Times(s.applied, o.id) + 1
  {
    DeliveryProcesses(s, t, o.id, newLot);
    var s2 := WithFetched(s, t, o);
    SameFill(s, s2, o, newLot, r);
    FillsAreRetakable(s2, o, newLot, "", "");
    AppliedAndReleased(s, t, o, r, a);
    TimesAfter(s.applied, a, o.id);
  }

  lemma AppliedAndReleased(s: State, t: nat, o: BrokerOrder, r: Resolution, a: Applied)
    requires t !in s.tasks && o.id !in s.holder && CanApply(s.lots, a) && a.order == o
    ensures Release(Record(Apply(WithFetched(s, t, o), a), o.id, RowOf(o, r, Some(a))), t)
            == s.(lots := s.lots[a.lot := LotAfter(s.lots, a)], applied := s.applied + [a],
                  history := s.history[o.id := Upserted(s.history, o.id, RowOf(o, r, Some(a)))])
  {
    assert s.tasks[t := Fetched(o.id, Some(o))] - {t} == s.tasks;
    assert s.holder[o.id := t] - {o.id} == s.holder;
  }

  /** Tasks and locks play no part in what a sighting means. */
  lemma SameFill(s: State, s2: State, o: BrokerOrder, newLot: Id, r: Resolution)
    requires s2 == s.(tasks := s2.tasks, holder := s2.holder) && r == ResolveRole(s, o)
    ensures ResolveRole(s2, o) == r
    ensures FillOf(s2, o, r, newLot, "", "") == FillOf(s, o, r, newLot, "", "")
  {
  }

  /** An entry whose placement was recorded first opens a lot named by its key, with the bracket the
      placement asked for, at the first undisturbed delivery of its complete order. */
  lemma PlacedEntryOpensItsLot(s: State, t: nat, order: Id, key: Id, target: Option<real>, stop: Option<real>, gap: Option<real>, newLot: Id)
    requires AllNamed(s) && order !in s.history && key !in s.lots && t !in s.tasks && order !in s.holder && newLot !in s.lots
    requires order in s.book && s.book[order].status == COMPLETE && Fillable(s.book[order])
    requires s.book[order].tag.None? || s.book[order].tag.value !in s.placed
    ensures var o := s.book[order];
            var s' := Run(s, [RecordPlacement(order, key, ENTRY, target, stop, gap)] + Delivery(t, order, newLot));
            && s'.lots == s.lots[key := Armed(NewLot(o.instrument, o.side, o.averagePrice.value, o.filled), target, stop, gap, "", "")]
            && At(s'.history, order) == Some(HistoryRow(Some(key), COMPLETE, Some(ENTRY), Some(key), target, stop, gap))
            && Times(s'.applied, order) == Times(s.applied, order) + 1
  {
    var placement := RecordPlacement(order, key, ENTRY, target, stop, gap);
    RunCons(s, placement, Delivery(t, order, newLot));
    var s1, o := Record(s, order, PlacementRow(key, ENTRY, target, stop, gap)), s.book[order];
    assert Named(order, ViewOf(s, order)) && Next(s, placement) == s1;
    assert s1.history == s.history[order := PlacementRow(key, ENTRY, target, stop, gap)];
    RecordedEntryApplies(s1, t, o, key, target, stop, gap, newLot);
  }

  lemma RecordedEntryApplies(s: State, t: nat, o: BrokerOrder, key: Id, target: Option<real>, stop: Option<real>, gap: Option<real>, newLot: Id)
    requires At(s.history, o.id) == Some(PlacementRow(key, ENTRY, target, stop, gap)) && key !in s.lots
    requires t !in s.tasks && o.id !in s.holder && newLot !in s.lots
    requires At(s.book, o.id) == Some(o) && o.status == COMPLETE && Fillable(o) && (o.tag.None? || o.tag.value !in s.placed)
    ensures var s' := Run(s, Delivery(t, o.id, newLot));
            && s'.lots == s.lots[key := Armed(NewLot(o.instrument, o.side, o.averagePrice.value, o.filled), target, stop, gap, "", "")]
            && At(s'.history, o.id) == Some(HistoryRow(Some(key), COMPLETE, Some(ENTRY), Some(key), target, stop, gap))
            && Times(s'.applied, o.id) == Times(s.applied, o.id) + 1
  {
    var r := Resolution(Some(ENTRY), Some(key), Some(key), target, stop, gap, {});
    assert ResolveRole(s, o) == r;
    DeliveryApplies(s, t, o, newLot, r, Applied(o, ENTRY, key, ArmedBracket(r, "", "")));
  }

  /** A complete order nobody recorded and no rule's tag claims. */
  predicate IsExternal(s: State, o: BrokerOrder) {
    o.id !in s.history && o.status == COMPLETE && Fillable(o) && (o.tag.None? || o.tag.value !in s.placed)
  }

  /** A delivery of `o` can run undisturbed, and `newLot` is not in use. */
  predicate Deliverable(s: State, t: nat, o: BrokerOrder, newLot: Id) {
    t !in s.tasks && o.id !in s.holder && At(s.book, o.id) == Some(o) && newLot !in s.lots
  }

  /** With no open lot on its instrument an external fill opens a lot with a default bracket. */
  lemma ExternalEntryIsProtected(s: State, t: nat, o: BrokerOrder, newLot: Id)
    requires IsExternal(s, o) && Deliverable(s, t, o, newLot) && OpenLots(s.lots, o.instrument) == {}
    ensures var (target, stop) := DefaultBracket(o.averagePrice.value, o.side);
            Run(s, Delivery(t, o.id, newLot)).lots
            == s.lots[newLot := Armed(NewLot(o.instrument, o.side, o.averagePrice.value, o.filled), Some(target), Some(stop), None, "", "")]
  {
    var (target, stop) := DefaultBracket(o.averagePrice.value, o.side);
    var r := Resolution(Some(ENTRY), None, None, Some(target), Some(stop), None, {});
    assert ResolveRole(s, o) == r;
    DeliveryApplies(s, t, o, newLot, r, Applied(o, ENTRY, newLot, ArmedBracket(r, "", "")));
  }

  /** With exactly one open lot on the other side it is an exit of that lot. */
  lemma ExternalExitClosesTheOnlyLot(s: State, t: nat, o: BrokerOrder, newLot: Id, lot: Id)
    requires IsExternal(s, o) && Deliverable(s, t, o, newLot)
    requires ClosingLots(s.lots, o.instrument, o.side) == {lot} && lot in s.lots && s.lots[lot].entryPrice.Some?
    ensures Run(s, Delivery(t, o.id, newLot)).lots == s.lots[lot := ExitFrom(s.lots[lot], o.averagePrice.value, o.filled)]
  {
    var r := Resolution(Some(EXIT), Some(lot), None, None, None, None, {});
    OneCandidate(s, o, lot);
    DeliveryApplies(s, t, o, newLot, r, Applied(o, EXIT, lot, ArmedBracket(r, "", "")));
  }

  /** With several of them no lot is touched: the fill waits, with exactly those lots to choose from. */
  lemma ExternalExitIsNeverGuessed(s: State, t: nat, o: BrokerOrder, newLot: Id)
    requires IsExternal(s, o) && Deliverable(s, t, o, newLot) && o.id !in s.pending
    requires |ClosingLots(s.lots, o.instrument, o.side)| > 1
    ensures var s' := Run(s, Delivery(t, o.id, newLot));
            s'.lots == s.lots && s'.pending == s.pending[o.id := PendingFill(ClosingLots(s.lots, o.instrument, o.side), o)]
  {
    DeliveryProcesses(s, t, o.id, newLot);
    AmbiguousRole(s, o);
    SameFill(s, WithFetched(s, t, o), o, newLot, ResolveRole(s, o));
  }

  lemma AmbiguousRole(s: State, o: BrokerOrder)
    requires IsExternal(s, o) && |ClosingLots(s.lots, o.instrument, o.side)| > 1
    ensures ResolveRole(s, o) == Resolution(None, None, None, None, None, None, ClosingLots(s.lots, o.instrument, o.side))
  {
    assert ClosingLots(s.lots, o.instrument, o.side) <= OpenLots(s.lots, o.instrument);
  }

  /** Recording the placement of an entry whose fill a push has already applied makes the next
      delivery apply it again: the row says "submitted" once more, and its role is ENTRY. */
  lemma LatePlacementReapplies(s: State, t: nat, order: Id, key: Id, target: Option<real>, stop: Option<real>, gap: Option<real>, newLot: Id)
    requires AllNamed(s) && AllSettled(s) && Times(s.applied, order) == 1
    requires t !in s.tasks && order !in s.holder && newLot !in s.lots && order in s.book
    requires s.book[order].tag.None? || s.book[order].tag.value !in s.placed
    ensures Hazard(s, RecordPlacement(order, key, ENTRY, target, stop, gap))
    ensures Times(Run(s, [RecordPlacement(order, key, ENTRY, target, stop, gap)] + Delivery(t, order, newLot)).applied, order) == 2
  {
    var placement := RecordPlacement(order, key, ENTRY, target, stop, gap);
    RunCons(s, placement, Delivery(t, order, newLot));
    assert Named(order, ViewOf(s, order)) && Settled(ViewOf(s, order));
    var s1, o := Record(s, order, PlacementRow(key, ENTRY, target, stop, gap)), s.book[order];
    assert Next(s, placement) == s1;
    var r := ResolveRole(s1, o);
    assert r.role == Some(ENTRY) && r.lot.Some? && r.candidates == {};
    DeliveryApplies(s1, t, o, newLot, r, Applied(o, ENTRY, r.lot.value, ArmedBracket(r, "", "")));
  }

  /** A notification that raises before the row of a set-aside fill says COMPLETE: if by the next
      delivery one candidate is left open, that delivery applies the fill, and the human's answer then
      applies it again. */
  lemma RaisedNotificationReapplies(s: State, t: nat, u: nat, order: Id, lot: Id, answer: Id, newLot: Id)
    requires AllNamed(s) && AllSettled(s) && t in s.tasks && s.tasks[t].Notifying? && s.tasks[t].order == order
    requires order in s.pending && order !in s.history && order in s.book && u !in s.tasks && newLot !in s.lots
    requires s.book[order].tag.None? || s.book[order].tag.value !in s.placed
    requires Fillable(s.book[order])
    requires ClosingLots(s.lots, s.book[order].instrument, s.book[order].side) == {lot} && lot in s.lots && s.lots[lot].entryPrice.Some?
    requires answer in s.pending[order].candidates && answer in s.lots && s.lots[answer].entryPrice.Some?
    ensures Hazard(s, NotificationRaised(t))
    ensures Times(Run(s, [NotificationRaised(t)] + (Delivery(u, order, newLot) + [Resolve(order, answer)])).applied, order) == 2
  {
    assert Named(order, ViewOf(s, order)) && Settled(ViewOf(s, order));
    LocksAreNamed(s);
    var o := s.book[order];
    RunCons(s, NotificationRaised(t), Delivery(u, order, newLot) + [Resolve(order, answer)]);
    var s1 := Release(s, t);
    assert Next(s, NotificationRaised(t)) == s1;
    AppliedThenAnswered(s1, u, o, lot, answer, newLot);
  }

  lemma AppliedThenAnswered(s: State, u: nat, o: BrokerOrder, lot: Id, answer: Id, newLot: Id)
    requires At(s.book, o.id) == Some(o) && o.id !in s.history && o.status == COMPLETE && (o.tag.None? || o.tag.value !in s.placed)
    requires Fillable(o) && u !in s.tasks && o.id !in s.holder && newLot !in s.lots
    requires ClosingLots(s.lots, o.instrument, o.side) == {lot} && lot in s.lots && s.lots[lot].entryPrice.Some?
    requires o.id in s.pending && s.pending[o.id].order == o && answer in s.pending[o.id].candidates
    requires answer in s.lots && s.lots[answer].entryPrice.Some?
    ensures Times(Run(s, Delivery(u, o.id, newLot) + [Resolve(o.id, answer)]).applied, o.id) == Times(s.applied, o.id) + 2
  {
    RunConcat(s, Delivery(u, o.id, newLot), [Resolve(o.id, answer)]);
    var r := Resolution(Some(EXIT), Some(lot), None, None, None, None, {});
    OneCandidate(s, o, lot);
    var a := Applied(o, EXIT, lot, ArmedBracket(r, "", ""));
    assert FillOf(s, o, r, newLot, "", "") == Some(a);
    DeliveryApplies(s, u, o, newLot, r, a);
    assert LotAfter(s.lots, a).entryPrice.Some?;
    AnswerApplies(Run(s, Delivery(u, o.id, newLot)), o.id, answer);
  }

  lemma OneCandidate(s: State, o: BrokerOrder, lot: Id)
    requires o.id !in s.history && o.status == COMPLETE && (o.tag.None? || o.tag.value !in s.placed)
    requires ClosingLots(s.lots, o.instrument, o.side) == {lot} && lot in s.lots
    ensures ResolveRole(s, o) == Resolution(Some(EXIT), Some(lot), None, None, None, None, {})
  {
  }

  lemma RunOne(s: State, e: Step)
    ensures Run(s, [e]) == Next(s, e)
  {
  }

  lemma ResolveIsNext(s: State, order: Id, lot: Id)
    ensures Next(s, Resolve(order, lot)) == ResolveStep(s, order, lot)
  {
  }

  lemma AnswerLogs(s: State, order: Id, answer: Id)
    requires order in s.pending && answer in s.pending[order].candidates
    requires Fillable(s.pending[order].order) && answer in s.lots && s.lots[answer].entryPrice.Some?
    ensures ResolveStep(s, order, answer).applied == s.applied + [ResolvedFill(s, order, answer)]
  {
    ResolveAppliesItsFill(s, order, answer);
    assert CanApply(s.lots, ResolvedFill(s, order, answer));
  }

  lemma AnswerApplies(s: State, order: Id, answer: Id)
    requires order in s.pending && answer in s.pending[order].candidates && s.pending[order].order.id == order
    requires Fillable(s.pending[order].order) && answer in s.lots && s.lots[answer].entryPrice.Some?
    ensures Times(Run(s, [Resolve(order, answer)]).applied, order) == Times(s.applied, order) + 1
  {
    RunOne(s, Resolve(order, answer));
    ResolveIsNext(s, order, answer);
    AnswerLogs(s, order, answer);
    TimesAfter(s.applied, ResolvedFill(s, order, answer), order);
  }

  lemma {:induction false} RunConcat(s: State, a: seq<Step>, b: seq<Step>)
    ensures Run(s, a + b) == Run(Run(s, a), b)
    decreases |a|
  {
    if a == [] {
      assert a + b == b;
    } else {
      assert (a + b)[1..] == a[1..] + b;
      RunConcat(Next(s, a[0]), a[1..], b);
    }
  }
}
