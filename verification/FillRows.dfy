/** What the order rows and the open questions remember over whole runs. */
module FillRows {
  import opened Trading
  import opened Fills
  import opened FillMachine
  import opened FillTheorems

  // ---- rows ----------------------------------------------------------------------------------------

  /** Whatever was known of the order is still known, or known better. */
  predicate StillKnown(was: HistoryRow, now: HistoryRow) {
    && (was.key.Some? ==> now.key.Some?) && (was.role.Some? ==> now.role.Some?) && (was.lot.Some? ==> now.lot.Some?)
    && (was.target.Some? ==> now.target.Some?) && (was.stop.Some? ==> now.stop.Some?) && (was.gap.Some? ==> now.gap.Some?)
  }

  /** Rows and lots only grow, rows name lots that exist, and an open question is the one first asked. */
  ghost predicate Remembers(s: State, s': State) {
    && (forall o :: o in s.history ==> o in s'.history && StillKnown(s.history[o], s'.history[o]))
    && s.lots.Keys <= s'.lots.Keys
    && (forall o :: o in s.pending && o in s'.pending ==> s'.pending[o] == s.pending[o])
  }

  ghost predicate RowsNameLots(s: State) { forall o :: o in s.history && s.history[o].lot.Some? ==> s.history[o].lot.value in s.lots }

  lemma RecordRemembers(s: State, order: Id, row: HistoryRow)
    ensures Remembers(s, Record(s, order, row)) && (RowsNameLots(s) ==> RowsNameLots(Record(s, order, row)))
    ensures Record(s, order, row) == s.(history := Record(s, order, row).history)
  {
  }

  lemma ApplyRemembers(s: State, a: Applied)
    ensures Remembers(s, Apply(s, a)) && (RowsNameLots(s) ==> RowsNameLots(Apply(s, a)))
    ensures Apply(s, a).history == s.history && Apply(s, a).pending == s.pending
  {
  }

  lemma SightingRemembers(s: State, o: BrokerOrder, r: Resolution, newLot: Id, targetRule: Id, stopRule: Id)
    ensures var s' := ApplyAndRecord(s, o, r, newLot, targetRule, stopRule);
            Remembers(s, s') && (RowsNameLots(s) ==> RowsNameLots(s')) && s'.pending == s.pending
  {
    var fill := FillOf(s, o, r, newLot, targetRule, stopRule);
    if fill.Some? { ApplyRemembers(s, fill.value); }
    RecordRemembers(ApplyIf(s, fill), o.id, RowOf(o, r, fill));
  }

  lemma AnswerRemembers(s: State, order: Id, lot: Id)
    ensures var s' := ResolveStep(s, order, lot); Remembers(s, s') && (RowsNameLots(s) ==> RowsNameLots(s'))
  {
    if order in s.pending && lot in s.pending[order].candidates {
      var a := ResolvedFill(s, order, lot);
      ApplyRemembers(s, a);
      RecordRemembers(Apply(s, a), a.order.id, ResolvedRow(a));
    }
  }

  lemma RaisedAnswerRemembers(s: State, order: Id, lot: Id, failure: Failure)
    ensures var s' := ResolveRaisedStep(s, order, lot, failure); Remembers(s, s') && (RowsNameLots(s) ==> RowsNameLots(s'))
  {
    if order in s.pending && lot in s.pending[order].candidates {
      var a := ResolvedFill(s, order, lot);
      ApplyRemembers(s, a);
      RecordRemembers(Apply(s, a), a.order.id, ResolvedRow(a));
    }
  }

  lemma TaskRemembers(s: State, e: Step)
    requires IsTaskStep(e) && e.task in s.tasks
    ensures Remembers(s, TaskStep(s, e)) && (RowsNameLots(s) ==> RowsNameLots(TaskStep(s, e)))
  {
    var task := s.tasks[e.task];
    match e
    case Process(t, newLot, targetRule, stopRule) =>
      if task.Fetched? && task.found.Some? {
        SightingRemembers(s, task.found.value, ResolveRole(s, task.found.value), newLot, targetRule, stopRule);
        ProcessRemembers(s, t, newLot, targetRule, stopRule);
      }
    case ProcessRaised(t, newLot, targetRule, stopRule, failure) => RaisedRemembers(s, t, newLot, targetRule, stopRule, failure);
    case NotificationSent(t) => if task.Notifying? { NotifiedRemembers(s, t); }
    case _ => WaitingRemembers(s, e);
  }

  lemma RaisedRemembers(s: State, t: nat, newLot: Id, targetRule: Id, stopRule: Id, failure: Failure)
    requires t in s.tasks
    ensures var s' := TaskStep(s, ProcessRaised(t, newLot, targetRule, stopRule, failure)); Remembers(s, s') && (RowsNameLots(s) ==> RowsNameLots(s'))
  {
    var fill := WrittenFill(s, s.tasks[t], newLot, targetRule, stopRule, failure);
    if fill.Some? { ApplyRemembers(s, fill.value); }
  }

  lemma NotifiedRemembers(s: State, t: nat)
    requires t in s.tasks && s.tasks[t].Notifying?
    ensures var s' := TaskStep(s, NotificationSent(t)); Remembers(s, s') && (RowsNameLots(s) ==> RowsNameLots(s'))
  {
    RecordRemembers(s, s.tasks[t].order, SightedRow(s.tasks[t]));
  }

  lemma WaitingRemembers(s: State, e: Step)
    requires (e.Acquire? || e.Fetch? || e.FetchRaised? || e.NotificationRaised?) && e.task in s.tasks
    ensures TaskStep(s, e).lots == s.lots && TaskStep(s, e).history == s.history && TaskStep(s, e).pending == s.pending
  {
  }

  lemma ProcessRemembers(s: State, t: nat, newLot: Id, targetRule: Id, stopRule: Id)
    requires t in s.tasks && s.tasks[t].Fetched? && s.tasks[t].found.Some?
    requires var o := s.tasks[t].found.value;
             var s1 := ApplyAndRecord(s, o, ResolveRole(s, o), newLot, targetRule, stopRule);
             Remembers(s, s1) && (RowsNameLots(s) ==> RowsNameLots(s1))
    ensures var s' := ProcessStep(s, t, newLot, targetRule, stopRule); Remembers(s, s') && (RowsNameLots(s) ==> RowsNameLots(s'))
  {
    var o := s.tasks[t].found.value;
    var r, s' := ResolveRole(s, o), ProcessStep(s, t, newLot, targetRule, stopRule);
    if |r.candidates| > 1 {
      assert s' == SetAside(s, t, o, r);
    } else {
      var s1 := ApplyAndRecord(s, o, r, newLot, targetRule, stopRule);
      assert s'.history == s1.history && s'.lots == s1.lots && s'.pending == s1.pending;
    }
  }

  lemma StepRemembers(s: State, e: Step)
    ensures Remembers(s, Next(s, e)) && (RowsNameLots(s) ==> RowsNameLots(Next(s, e)))
  {
    match e
    case Resolve(order, lot) => AnswerRemembers(s, order, lot);
    case ResolveRaised(order, lot, failure) => RaisedAnswerRemembers(s, order, lot, failure);
    case RecordPlacement(order, key, role, target, stop, gap) => RecordRemembers(s, order, PlacementRow(key, role, target, stop, gap));
    case BrokerUpdate(_) =>
    case SetPlaced(_) =>
    case Push(_, _) =>
    case _ => if e.task in s.tasks { TaskRemembers(s, e); }
  }

  /** In no run, hazards and raising calls included, does a row forget its key, role, lot or bracket once it
      had one, or a lot go away. */
  lemma {:induction false} NothingIsForgotten(s: State, steps: seq<Step>, order: Id)
    requires order in s.history
    ensures order in Run(s, steps).history && StillKnown(s.history[order], Run(s, steps).history[order])
    ensures s.lots.Keys <= Run(s, steps).lots.Keys
    decreases |steps|
  {
    if steps != [] {
      StepRemembers(s, steps[0]);
      NothingIsForgotten(Next(s, steps[0]), steps[1..], order);
    }
  }

  /** In every run each row names a lot that exists, if any. */
  lemma {:induction false} RowsAlwaysNameLots(s: State, steps: seq<Step>)
    requires RowsNameLots(s)
    ensures RowsNameLots(Run(s, steps))
    decreases |steps|
  {
    if steps != [] {
      StepRemembers(s, steps[0]);
      RowsAlwaysNameLots(Next(s, steps[0]), steps[1..]);
    }
  }

  ghost predicate AskedThroughout(s: State, steps: seq<Step>, order: Id)
    decreases |steps|
  {
    order in s.pending && (steps == [] || AskedThroughout(Next(s, steps[0]), steps[1..], order))
  }

  /** As long as a question is open it is the one first asked, whatever later deliveries find. */
  lemma {:induction false} QuestionsStay(s: State, steps: seq<Step>, order: Id)
    requires AskedThroughout(s, steps, order)
    ensures order in Run(s, steps).pending && Run(s, steps).pending[order] == s.pending[order]
    decreases |steps|
  {
    if steps != [] {
      StepRemembers(s, steps[0]);
      QuestionsStay(Next(s, steps[0]), steps[1..], order);
    }
  }

  // ---- what one write says ---------------------------------------------------------------------------

  function Known<T>(now: Option<T>, before: Option<T>): Option<T> { if now.None? then before else now }

  /** A placement is recorded as submitted under its key and role, with the bracket prices it gives; what it
      does not give stays as it was. */
  lemma PlacementIsRecorded(s: State, order: Id, key: Id, role: OrderRole, target: Option<real>, stop: Option<real>, gap: Option<real>)
    ensures var s' := Next(s, RecordPlacement(order, key, role, target, stop, gap));
            && order in s'.history && s' == s.(history := s.history[order := s'.history[order]])
            && (var row := s'.history[order];
                && row.status == SUBMITTED && row.key == Some(key) && row.role == Some(role)
                && (order !in s.history ==> row.lot.None? && row.target == target && row.stop == stop && row.gap == gap)
                && (order in s.history ==>
                      var was := s.history[order];
                      row.lot == was.lot && row.target == Known(target, was.target) && row.stop == Known(stop, was.stop) && row.gap == Known(gap, was.gap)))
  {
  }

  /** A fill that was set aside is recorded, once its notification is out, under the key it was sighted with
      and with the status it had; role, lot and bracket stay as they were, and the handler lets go. */
  lemma SetAsideIsRecorded(s: State, t: nat)
    requires t in s.tasks && s.tasks[t].Notifying?
    ensures var task, s' := s.tasks[t], Next(s, NotificationSent(t));
            && t !in s'.tasks && s'.lots == s.lots && s'.pending == s.pending && task.order in s'.history
            && (var row := s'.history[task.order];
                row.status == task.fill.status
                && if task.order in s.history then
                     var was := s.history[task.order];
                     row == was.(status := task.fill.status, key := Known(task.key, was.key))
                   else row == HistoryRow(task.key, task.fill.status, None, None, None, None, None))
  {
  }

  // ---- which lot an order is about ---------------------------------------------------------------------

  /** An order with the tag of a placed rule is recorded as the exit of that rule's lot under the rule's id,
      at its first sighting and whatever its status; it takes lots down only once it is complete. */
  lemma TaggedOrderIsTheRulesExit(s: State, t: nat, o: BrokerOrder, newLot: Id, lot: Id)
    requires Deliverable(s, t, o, newLot) && o.id !in s.history
    requires o.tag.Some? && o.tag.value in s.placed && s.placed[o.tag.value] == Some(lot) && lot in s.lots
    ensures var s' := Run(s, Delivery(t, o.id, newLot));
            && At(s'.history, o.id) == Some(HistoryRow(o.tag, o.status, Some(EXIT), Some(lot), None, None, None))
            && (if o.status == COMPLETE && Fillable(o) && s.lots[lot].entryPrice.Some?
                then s'.applied == s.applied + [Applied(o, EXIT, lot, NO_BRACKET)] && s'.lots == s.lots[lot := ExitFrom(s.lots[lot], o.averagePrice.value, o.filled)]
                else s'.lots == s.lots && s'.applied == s.applied)
  {
    var r := Resolution(Some(EXIT), Some(lot), o.tag, None, None, None, {});
    assert ResolveRole(s, o) == r;
    DeliveryProcesses(s, t, o.id, newLot);
    SameFill(s, WithFetched(s, t, o), o, newLot, r);
    TaggedFill(s, o, newLot, lot, r);
    SightedExit(WithFetched(s, t, o), t, o, newLot, r, FillOf(s, o, r, newLot, "", ""), lot);
  }

  lemma TaggedFill(s: State, o: BrokerOrder, newLot: Id, lot: Id, r: Resolution)
    requires o.id !in s.history && lot in s.lots && r == Resolution(Some(EXIT), Some(lot), o.tag, None, None, None, {})
    ensures FillOf(s, o, r, newLot, "", "")
            == if o.status == COMPLETE && Fillable(o) && s.lots[lot].entryPrice.Some? then Some(Applied(o, EXIT, lot, NO_BRACKET)) else None
  {
  }

  lemma SightedExit(s: State, t: nat, o: BrokerOrder, newLot: Id, r: Resolution, fill: Option<Applied>, lot: Id)
    requires t in s.tasks && s.tasks[t] == Fetched(o.id, Some(o)) && o.id !in s.history && lot in s.lots
    requires r == ResolveRole(s, o) == Resolution(Some(EXIT), Some(lot), o.tag, None, None, None, {})
    requires fill == FillOf(s, o, r, newLot, "", "") && (fill.Some? ==> CanApply(s.lots, fill.value) && fill.value == Applied(o, EXIT, lot, NO_BRACKET))
    ensures var s' := ProcessStep(s, t, newLot, "", "");
            && At(s'.history, o.id) == Some(HistoryRow(o.tag, o.status, Some(EXIT), Some(lot), None, None, None))
            && s'.lots == ApplyIf(s, fill).lots && s'.applied == ApplyIf(s, fill).applied
  {
  }

  /** A further fill of a recorded entry goes to the lot its row names, or else to the lot named by its key,
      and is added to it. */
  lemma RecordedEntryAddsToItsLot(s: State, t: nat, o: BrokerOrder, newLot: Id, lot: Id)
    requires Deliverable(s, t, o, newLot) && o.status == COMPLETE && Fillable(o) && (o.tag.None? || o.tag.value !in s.placed)
    requires o.id in s.history && s.history[o.id].role == Some(ENTRY) && s.history[o.id].status != COMPLETE && lot in s.lots
    requires Known(s.history[o.id].lot, s.history[o.id].key) == Some(lot)
    ensures var s' := Run(s, Delivery(t, o.id, newLot));
            && lot in s'.lots && s'.lots == s.lots[lot := s'.lots[lot]]
            && s'.lots[lot].entryQuantity == s.lots[lot].entryQuantity + o.filled && s'.lots[lot].remaining == s.lots[lot].remaining + o.filled
            && s'.lots[lot].realized == s.lots[lot].realized && s'.lots[lot].side == s.lots[lot].side && s'.lots[lot].bracket == s.lots[lot].bracket
            && o.id in s'.history && s'.history[o.id].lot == Some(lot) && s'.history[o.id].status == COMPLETE
  {
    var row := s.history[o.id];
    var r := Resolution(Some(ENTRY), Some(lot), row.key, row.target, row.stop, row.gap, {});
    assert ResolveRole(s, o) == r;
    DeliveryApplies(s, t, o, newLot, r, Applied(o, ENTRY, lot, ArmedBracket(r, "", "")));
  }

  /** A lot that processing opens has a rule for each of its two prices: the target's rule for the target
      and the stop's for the stop. */
  lemma LegsGetTheirRules(s: State, t: nat, newLot: Id, targetRule: Id, stopRule: Id, lot: Id)
    requires lot !in s.lots && lot in Next(s, Process(t, newLot, targetRule, stopRule)).lots
    ensures var b := Next(s, Process(t, newLot, targetRule, stopRule)).lots[lot].bracket;
            && b.targetRule == (if b.target.Some? then Some(targetRule) else None)
            && b.stopRule == (if b.stop.Some? then Some(stopRule) else None)
  {
    assert t in s.tasks && s.tasks[t].Fetched? && s.tasks[t].found.Some?;
    var o := s.tasks[t].found.value;
    SightingAppliesItsFill(s, o, ResolveRole(s, o), newLot, targetRule, stopRule);
    ProcessAppliesOneFill(s, t, newLot, targetRule, stopRule);
    ArmedLegs(ResolveRole(s, o), targetRule, stopRule);
    NewLotsBracket(s, FillOf(s, o, ResolveRole(s, o), newLot, targetRule, stopRule), lot);
  }

  lemma ArmedLegs(r: Resolution, targetRule: Id, stopRule: Id)
    ensures var b := ArmedBracket(r, targetRule, stopRule);
            && b.targetRule == (if b.target.Some? then Some(targetRule) else None)
            && b.stopRule == (if b.stop.Some? then Some(stopRule) else None)
  {
  }

  lemma NewLotsBracket(s: State, fill: Option<Applied>, lot: Id)
    requires lot !in s.lots && lot in ApplyIf(s, fill).lots
    ensures fill.Some? && ApplyIf(s, fill).lots[lot].bracket == fill.value.bracket
  {
  }
}
