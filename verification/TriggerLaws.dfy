/** What the handlers of the firing protocol do to a lot's money, said without their own functions. */
module TriggerLaws {
  import opened Trading
  import opened TriggerRules
  import opened TriggerMachine
  import opened TriggerSafety
  import opened TriggerTheorems

  // ---- exits ---------------------------------------------------------------------------------------

  /** The order takes exactly what remained of the lot of a FIRING rule: the two cancel out. */
  predicate ClosesItsLot(s: State, id: Id, side: Side, quantity: int) {
    && id in s.rules && s.rules[id].state == FIRING
    && s.rules[id].lotId.Some? && s.rules[id].lotId.value in s.lots
    && quantity > 0
    && var lot := s.lots[s.rules[id].lotId.value];
       Signed(lot.side, lot.remaining) + Signed(side, quantity) == 0
  }

  /** Every exit order any handler sends in any run closes its rule's lot as it stands at that instant,
      long or short. */
  lemma ExitsCloseTheirLots(lots: map<Id, LotView>, before: seq<Step>, e: Step)
    ensures var s := Run(Initial(lots), before);
            Next(s, e).log == s.log
            || (Next(s, e).log[..|s.log|] == s.log && |Next(s, e).log| == |s.log| + 1
                && forall id, side, quantity :: Next(s, e).log[|s.log|] == OrderSent(id, side, quantity) ==> ClosesItsLot(s, id, side, quantity))
  {
    InitialInv(lots);
    RunKeepsInv(Initial(lots), before);
    var s := Run(Initial(lots), before);
    StepLogsWhatItDoes(s, e);
    if IsPassStep(e) && e.pass in s.passes { assert HoldsItsRule(s.rules, s.passes[e.pass]); }
    ExitOf(s, e);
  }

  lemma ExitOf(s: State, e: Step)
    requires IsPassStep(e) && e.pass in s.passes ==> HoldsItsRule(s.rules, s.passes[e.pass])
    ensures forall id, side, quantity :: |Next(s, e).log| == |s.log| + 1 && Next(s, e).log[|s.log|] == OrderSent(id, side, quantity)
              ==> ClosesItsLot(s, id, side, quantity)
  {
  }

  /** And a winner whose lot has something left does send it, while any other winner is marked FAILED. */
  lemma WinnersExitOrFail(lots: map<Id, LotView>, before: seq<Step>, p: nat)
    requires p in Run(Initial(lots), before).passes && Run(Initial(lots), before).passes[p].phase.Won?
    ensures var s := Run(Initial(lots), before);
            var id, s' := s.passes[p].phase.rule.id, Next(s, CheckLot(p));
            && id in s.rules && id in s'.rules
            && (var lot := s.rules[id].lotId;
                if lot.Some? && lot.value in s.lots && s.lots[lot.value].remaining > 0
                then s'.rules == s.rules && |s'.log| == |s.log| + 1 && s'.log[|s.log|].OrderSent? && s'.log[|s.log|].id == id
                else s'.log == s.log && s'.rules[id].state == FAILED)
  {
    InitialInv(lots);
    RunKeepsInv(Initial(lots), before);
    var s := Run(Initial(lots), before);
    assert HoldsItsRule(s.rules, s.passes[p]);
  }

  /** What the answer to a placement does to the ledger in any run: an accepted order marks its rule PLACED
      and cancels a sibling that is still ARMED, a failed one marks its rule FAILED and leaves the sibling
      alone; no other row changes. */
  lemma AnswersMarkTheirRule(lots: map<Id, LotView>, before: seq<Step>, p: nat, landed: bool)
    requires p in Run(Initial(lots), before).passes && Run(Initial(lots), before).passes[p].phase.Placing?
    ensures var s := Run(Initial(lots), before);
            var id, t := s.passes[p].phase.rule.id, s.rules;
            && id in t
            && Next(s, PlacementFailed(p, landed)).rules == MovedTo(t, id, FAILED)
            && (var sibling, placed := t[id].sibling, MovedTo(t, id, PLACED);
                Next(s, PlacementAccepted(p)).rules
                == if sibling.Some? && sibling.value in t && t[sibling.value].state == ARMED then MovedTo(placed, sibling.value, CANCELLED) else placed)
  {
    InitialInv(lots);
    RunKeepsInv(Initial(lots), before);
    var s := Run(Initial(lots), before);
    assert HoldsItsRule(s.rules, s.passes[p]);
    if s.passes[p].phase.rule.sibling.Some? && s.passes[p].phase.rule.sibling.value in s.rules { SiblingIsOther(s.rules, s.passes[p].phase.rule.id); }
    AnswerMarks(s, p, landed);
  }

  function MovedTo(t: Table, id: Id, state: RuleState): Table
    requires id in t
  {
    t[id := t[id].(state := state, version := t[id].version + 1)]
  }

  lemma AnswerMarks(s: State, p: nat, landed: bool)
    requires p in s.passes && s.passes[p].phase.Placing? && HoldsItsRule(s.rules, s.passes[p])
    requires s.passes[p].phase.rule.sibling != Some(s.passes[p].phase.rule.id)
    ensures var id, t := s.passes[p].phase.rule.id, s.rules;
            && Next(s, PlacementFailed(p, landed)).rules == MovedTo(t, id, FAILED)
            && (var sibling, placed := t[id].sibling, MovedTo(t, id, PLACED);
                Next(s, PlacementAccepted(p)).rules
                == if sibling.Some? && sibling.value in t && t[sibling.value].state == ARMED then MovedTo(placed, sibling.value, CANCELLED) else placed)
  {
  }

  /** A pass takes its rows one by one, and wins a row exactly when the row has not moved since the pass read
      it and the tick has reached its price; then the ledger's row is FIRING. */
  lemma TriesWinIff(lots: map<Id, LotView>, before: seq<Step>, p: nat)
    requires p in Run(Initial(lots), before).passes
    requires Run(Initial(lots), before).passes[p].phase.Scanning? && Run(Initial(lots), before).passes[p].pending != []
    ensures var s := Run(Initial(lots), before);
            var row, ltp, s' := s.passes[p].pending[0], s.passes[p].ltp, Next(s, TryRule(p));
            var limit := if row.value.Some? then row.value.value else 0.0;
            && row.id in s.rules && p in s'.passes && s'.passes[p].pending == s.passes[p].pending[1..]
            && if s.rules[row.id].version == row.version && ((row.op == ABOVE && ltp >= limit) || (row.op == BELOW && ltp <= limit))
               then s'.passes[p].phase.Won? && s'.passes[p].phase.rule.id == row.id && s'.rules == MovedTo(s.rules, row.id, FIRING)
               else s'.passes[p].phase.Scanning? && s'.rules == s.rules
  {
    InitialInv(lots);
    RunKeepsInv(Initial(lots), before);
    var s := Run(Initial(lots), before);
    assert PassReads(s.rules, s.passes[p]) && ReadEarlier(s.rules, s.passes[p].pending[0]);
    TryWins(s, p);
  }

  lemma TryWins(s: State, p: nat)
    requires p in s.passes && s.passes[p].phase.Scanning? && s.passes[p].pending != [] && ReadEarlier(s.rules, s.passes[p].pending[0])
    ensures var row, ltp, s' := s.passes[p].pending[0], s.passes[p].ltp, Next(s, TryRule(p));
            var limit := if row.value.Some? then row.value.value else 0.0;
            && p in s'.passes && s'.passes[p].pending == s.passes[p].pending[1..]
            && if s.rules[row.id].version == row.version && ((row.op == ABOVE && ltp >= limit) || (row.op == BELOW && ltp <= limit))
               then s'.passes[p].phase.Won? && s'.passes[p].phase.rule.id == row.id && s'.rules == MovedTo(s.rules, row.id, FIRING)
               else s'.passes[p].phase.Scanning? && s'.rules == s.rules
  {
  }

  // ---- evaluation order ------------------------------------------------------------------------------

  function OfRole(rules: seq<Rule>, role: Role): seq<Rule> {
    if rules == [] then [] else (if rules[0].role == role then [rules[0]] else []) + OfRole(rules[1..], role)
  }

  /** The rows of a pass are tried stop-losses first, then targets, then the others, those of one role in
      the order they were read. */
  lemma StopLossesComeFirst(rules: seq<Rule>)
    ensures SortByRole(rules) == OfRole(rules, STOP_LOSS) + OfRole(rules, TARGET) + OfRole(rules, UNLABELLED)
  {
    SortKeyIsRole(rules, 0, STOP_LOSS);
    SortKeyIsRole(rules, 1, TARGET);
    SortKeyIsRole(rules, 2, UNLABELLED);
  }

  lemma {:induction false} SortKeyIsRole(rules: seq<Rule>, key: nat, role: Role)
    requires forall r: Rule :: r in rules ==> (RoleSortKey(r) == key <==> r.role == role)
    ensures WithSortKey(rules, key) == OfRole(rules, role)
  {
    if rules != [] { SortKeyIsRole(rules[1..], key, role); }
  }

  // ---- brackets ------------------------------------------------------------------------------------

  /** What a tick at `ltp` is worth to a lot entered on `side`, measured from `price`. */
  function Gain(side: Side, price: real, ltp: real): real { Sign(side) * (ltp - price) }

  /** A leg of a lot entered on `side`, as armed: a target matches exactly the ticks at which the lot gains
      on it or stands there, a stop-loss exactly those at which it loses or stands there. */
  ghost predicate FiresOnItsSide(row: Rule, side: Side) {
    && row.value.Some? && row.role in {TARGET, STOP_LOSS}
    && forall ltp: real :: Matches(row.op, row.value, ltp)
         <==> if row.role == TARGET then Gain(side, row.value.value, ltp) >= 0.0 else Gain(side, row.value.value, ltp) <= 0.0
  }

  /** Arming a lot puts one ARMED row of it, on the right side, into the ledger per given price, as each
      other's sibling, and touches no other row. */
  lemma BracketsProtect(s: State, lot: Id, instrument: Key, side: Side, target: Option<real>, stop: Option<real>, targetId: Id, stopId: Id)
    requires FreshIds(s, targetId, stopId)
    ensures var t := Next(s, Arm(lot, instrument, side, target, stop, targetId, stopId)).rules;
            && (forall id :: id in s.rules ==> id in t && t[id] == s.rules[id])
            && (forall id :: id in t <==> id in s.rules || (id == targetId && target.Some?) || (id == stopId && stop.Some?))
            && (target.Some? ==> t[targetId].role == TARGET && t[targetId].value == target && t[targetId].sibling == (if stop.Some? then Some(stopId) else None))
            && (stop.Some? ==> t[stopId].role == STOP_LOSS && t[stopId].value == stop && t[stopId].sibling == (if target.Some? then Some(targetId) else None))
            && (forall id :: id in t && id !in s.rules ==>
                  t[id].id == id && t[id].state == ARMED && t[id].lotId == Some(lot) && t[id].instrument == instrument && FiresOnItsSide(t[id], side))
  {
    var rows := BracketRows(lot, instrument, side, target, stop, targetId, stopId);
    BracketsAre(lot, instrument, side, target, stop, targetId, stopId);
    assert Next(s, Arm(lot, instrument, side, target, stop, targetId, stopId)).rules == s.rules + rows;
  }

  lemma BracketsAre(lot: Id, instrument: Key, side: Side, target: Option<real>, stop: Option<real>, targetId: Id, stopId: Id)
    requires targetId != stopId
    ensures var t := BracketRows(lot, instrument, side, target, stop, targetId, stopId);
            && (forall id :: id in t <==> (id == targetId && target.Some?) || (id == stopId && stop.Some?))
            && (target.Some? ==> t[targetId].role == TARGET && t[targetId].value == target && t[targetId].sibling == (if stop.Some? then Some(stopId) else None))
            && (stop.Some? ==> t[stopId].role == STOP_LOSS && t[stopId].value == stop && t[stopId].sibling == (if target.Some? then Some(targetId) else None))
            && (forall id :: id in t ==> t[id].id == id && t[id].state == ARMED && t[id].lotId == Some(lot) && t[id].instrument == instrument && FiresOnItsSide(t[id], side))
  {
    var t := BracketRows(lot, instrument, side, target, stop, targetId, stopId);
    if target.Some? { SideOfRow(t[targetId], side); }
    if stop.Some? { SideOfRow(t[stopId], side); }
  }

  /** Arming that is cut short leaves at most the target's leg behind, without its sibling. */
  lemma CutShortArmsTheTarget(s: State, lot: Id, instrument: Key, side: Side, target: Option<real>, stop: Option<real>, targetId: Id, stopId: Id)
    requires FreshIds(s, targetId, stopId)
    ensures var whole := Next(s, Arm(lot, instrument, side, target, stop, targetId, stopId)).rules;
            Next(s, ArmRaised(lot, instrument, side, target, stop, targetId, stopId)).rules == whole - {stopId}
  {
  }

  lemma SideOfRow(row: Rule, side: Side)
    requires row.value.Some? && row.role in {TARGET, STOP_LOSS} && row.op == if (row.role == TARGET) == (side == BUY) then ABOVE else BELOW
    ensures FiresOnItsSide(row, side)
  {
  }

  /** An armed bracket keeps its sides in every run: a win is on a tick that is no loss from the price in
      the ledger for a target, and no gain for a stop-loss. */
  lemma WinsAreOnTheRightSide(s: State, steps: seq<Step>, e: Step, side: Side, id: Id)
    requires Inv(s) && id in s.rules && FiresOnItsSide(s.rules[id], side)
    ensures var s1 := Run(s, steps);
            forall op, value, ltp, held :: |Next(s1, e).log| > |s1.log| && Next(s1, e).log[|s1.log|] == Fired(id, op, value, ltp, held) ==>
              && id in s1.rules && value == s1.rules[id].value && value.Some?
              && (s1.rules[id].role == TARGET ==> Gain(side, value.value, ltp) >= 0.0)
              && (s1.rules[id].role == STOP_LOSS ==> Gain(side, value.value, ltp) <= 0.0)
  {
    RunKeepsInv(s, steps);
    RunKeepsSide(s, steps, side, id);
    var s1 := Run(s, steps);
    StepLogsWhatItDoes(s1, e);
    StepKeepsInv(s1, e);
    if |Next(s1, e).log| > |s1.log| && Next(s1, e).log[|s1.log|].Fired? && Next(s1, e).log[|s1.log|].id == id {
      assert Matches(Next(s1, e).log[|s1.log|].op, Next(s1, e).log[|s1.log|].value, Next(s1, e).log[|s1.log|].ltp);
    }
  }

  lemma {:induction false} RunKeepsSide(s: State, steps: seq<Step>, side: Side, id: Id)
    requires Inv(s) && id in s.rules && FiresOnItsSide(s.rules[id], side)
    ensures id in Run(s, steps).rules && FiresOnItsSide(Run(s, steps).rules[id], side)
    decreases |steps|
  {
    if steps != [] {
      StepKeepsInv(s, steps[0]);
      StepKeepsPriced(s, steps[0], id);
      SideIsOperator(s.rules[id], side);
      SideOfRow(Next(s, steps[0]).rules[id], side);
      RunKeepsSide(Next(s, steps[0]), steps[1..], side, id);
    }
  }

  lemma SideIsOperator(row: Rule, side: Side)
    requires FiresOnItsSide(row, side)
    ensures row.op == if (row.role == TARGET) == (side == BUY) then ABOVE else BELOW
  {
    var v := row.value.value;
    assert Matches(row.op, row.value, v + 1.0) <==> if row.role == TARGET then Gain(side, v, v + 1.0) >= 0.0 else Gain(side, v, v + 1.0) <= 0.0;
    assert Matches(row.op, row.value, v) <==> if row.role == TARGET then Gain(side, v, v) >= 0.0 else Gain(side, v, v) <= 0.0;
  }

  lemma StepKeepsPriced(s: State, e: Step, id: Id)
    requires Inv(s) && id in s.rules && s.rules[id].value.Some?
    ensures id in Next(s, e).rules && SameIdentity(s.rules[id], Next(s, e).rules[id]) && Next(s, e).rules[id].value.Some?
  {
    StepMovesRow(s, e, id);
    if e.Arm? || e.ArmRaised? { ArmingKeepsRows(s, e, id); } else { PricesStay(s, e, id); }
  }

  lemma StepMovesRow(s: State, e: Step, id: Id)
    requires Inv(s) && id in s.rules
    ensures id in Next(s, e).rules && SameIdentity(s.rules[id], Next(s, e).rules[id])
  {
    StepKeepsInv(s, e);
  }

  lemma ArmingKeepsRows(s: State, e: Step, id: Id)
    requires (e.Arm? || e.ArmRaised?) && id in s.rules
    ensures id in Next(s, e).rules && Next(s, e).rules[id] == s.rules[id]
  {
  }

  /** A price can change, but never goes away. */
  lemma PricesStay(s: State, e: Step, id: Id)
    requires !e.Arm? && !e.ArmRaised? && id in s.rules && s.rules[id].value.Some? && id in Next(s, e).rules
    ensures Next(s, e).rules[id].value.Some?
  {
  }

  // ---- cancels -------------------------------------------------------------------------------------

  function Repriced(t: Table, id: Id, value: real): Table
    requires id in t
  {
    t[id := t[id].(value := Some(value), version := t[id].version + 1)]
  }

  /** A row that is PLACED when the broker has confirmed its cancel ends CANCELLED; otherwise, and apart
      from that, no row changes. */
  lemma BrokerCancelsMarkTheirRow(s: State, r: nat, confirmed: bool)
    requires r in s.routes && s.routes[r].CancellingAtBroker?
    ensures var id, t, t' := s.routes[r].id, s.rules, Next(s, BrokerCancelReturned(r, confirmed)).rules;
            if confirmed && id in t && t[id].state == PLACED then t' == MovedTo(t, id, CANCELLED) else t' == t
  {
  }

  /** An ARMED row is cancelled, or repriced, exactly when it has not moved since it was read. */
  lemma RoutesMarkTheirRow(lots: map<Id, LotView>, before: seq<Step>, r: nat)
    requires r in Run(Initial(lots), before).routes && !Run(Initial(lots), before).routes[r].CancellingAtBroker?
    ensures var s := Run(Initial(lots), before);
            var route, row, t := s.routes[r], s.routes[r].row, s.rules;
            && row.id in t
            && (t[row.id].version == row.version ==> t[row.id].state == ARMED)
            && (route.Cancelling? ==> Next(s, CancelArmed(r)).rules == if t[row.id].version == row.version then MovedTo(t, row.id, CANCELLED) else t)
            && (route.Repricing? ==> Next(s, Reprice(r)).rules == if t[row.id].version == row.version then Repriced(t, row.id, route.value) else t)
  {
    InitialInv(lots);
    RunKeepsInv(Initial(lots), before);
    var s := Run(Initial(lots), before);
    assert RouteReads(s.rules, s.routes[r]);
    RouteMarks(s, r);
  }

  lemma RouteMarks(s: State, r: nat)
    requires r in s.routes && !s.routes[r].CancellingAtBroker? && ReadEarlier(s.rules, s.routes[r].row)
    ensures var route, row, t := s.routes[r], s.routes[r].row, s.rules;
            && (route.Cancelling? ==> Next(s, CancelArmed(r)).rules == if t[row.id].version == row.version then MovedTo(t, row.id, CANCELLED) else t)
            && (route.Repricing? ==> Next(s, Reprice(r)).rules == if t[row.id].version == row.version then Repriced(t, row.id, route.value) else t)
  {
  }
}
