/** The guarantees of the firing protocol over every interleaving of evaluator passes, bracket
    modify, tighten and cancel routes and the armer, on rules armed with fresh ids. */
module TriggerTheorems {
  import opened Trading
  import opened TriggerRules
  import opened TriggerMachine
  import opened TriggerSafety

  lemma InitialInv(lots: map<Id, LotView>)
    ensures Inv(Initial(lots))
  {
  }

  lemma {:induction false} RunConcat(s: State, a: seq<Step>, b: seq<Step>)
    ensures Run(s, a + b) == Run(Run(s, a), b)
    decreases |a|
  {
    if a == [] {
      assert a + b == b;
    } else {
      assert (a + b)[0] == a[0] && (a + b)[1..] == a[1..] + b;
      RunConcat(Next(s, a[0]), a[1..], b);
    }
  }

  // ---- versions ----------------------------------------------------------------------------------

  ghost predicate NoOlder(t: Table, t': Table) {
    forall id :: id in t ==> id in t' && t[id].version <= t'[id].version && (t[id].version == t'[id].version ==> t'[id] == t[id])
  }

  lemma {:induction false} RunNeverRewinds(s: State, steps: seq<Step>)
    requires Inv(s)
    ensures NoOlder(s.rules, Run(s, steps).rules)
    decreases |steps|
  {
    if steps != [] {
      StepKeepsInv(s, steps[0]);
      RunNeverRewinds(Next(s, steps[0]), steps[1..]);
    }
  }

  /** A rule's version determines its whole row: at two moments of one run at which a rule has the
      same version, its state, its trigger price and everything else are the same. */
  lemma VersionDeterminesRow(lots: map<Id, LotView>, before: seq<Step>, between: seq<Step>, id: Id)
    requires id in Run(Initial(lots), before).rules
    ensures var early, late := Run(Initial(lots), before).rules, Run(Initial(lots), before + between).rules;
            id in late && early[id].version <= late[id].version && (early[id].version == late[id].version ==> early[id] == late[id])
  {
    InitialInv(lots);
    RunKeepsInv(Initial(lots), before);
    RunConcat(Initial(lots), before, between);
    RunNeverRewinds(Run(Initial(lots), before), between);
  }

  /** The only state changes any handler ever makes: ARMED to FIRING or CANCELLED, FIRING to PLACED
      or FAILED, PLACED to CANCELLED, each with a new version; a price moves only while ARMED. */
  lemma OnlyLegalMoves(lots: map<Id, LotView>, before: seq<Step>, e: Step, id: Id)
    requires id in Run(Initial(lots), before).rules
    ensures var s := Run(Initial(lots), before);
            && id in Next(s, e).rules
            && (var r, r' := s.rules[id], Next(s, e).rules[id];
                && SameIdentity(r, r')
                && (r'.state != r.state ==> LegalMove(r.state, r'.state) && r'.value == r.value && r'.version == r.version + 1)
                && (r'.value != r.value ==> r.state == ARMED && r'.state == ARMED && r'.version == r.version + 1))
  {
    InitialInv(lots);
    RunKeepsInv(Initial(lots), before);
    StepKeepsInv(Run(Initial(lots), before), e);
  }

  // ---- firing ------------------------------------------------------------------------------------

  /** Each rule wins FIRING at most once in its life, and every win is on a price that stood in the
      ledger at that instant and that the firing tick satisfies, whatever modify or tighten calls
      came between the pass's read and its win. */
  lemma FiresAtMostOnceAndNeverStale(lots: map<Id, LotView>, steps: seq<Step>)
    ensures var log := Run(Initial(lots), steps).log;
            && (forall j, k :: 0 <= j < k < |log| && log[j].Fired? && log[k].Fired? ==> log[j].id != log[k].id)
            && (forall k :: 0 <= k < |log| && log[k].Fired? ==> Matches(log[k].op, log[k].value, log[k].ltp))
  {
    InitialInv(lots);
    RunKeepsInv(Initial(lots), steps);
  }

  /** The branch "order placed but the PLACED update lost its race" is never taken: a pass's update
      of the row it fired always finds the version it expects. */
  lemma PlacedUpdateIsNeverLost(lots: map<Id, LotView>, steps: seq<Step>, p: nat, state: RuleState)
    ensures var s := Run(Initial(lots), steps);
            && (forall id :: PlacedUpdateLost(id) !in s.log)
            && (p in s.passes && !s.passes[p].phase.Scanning? ==>
                  CasState(s.rules, s.passes[p].phase.rule.id, s.passes[p].phase.rule.version, state).1.Some?)
  {
    InitialInv(lots);
    RunKeepsInv(Initial(lots), steps);
    var s := Run(Initial(lots), steps);
    if p in s.passes && !s.passes[p].phase.Scanning? {
      HolderNeverLoses(s, p, state);
    }
  }

  /** A rule that is FIRING in nobody's hands. */
  ghost predicate Stuck(s: State, id: Id) { id in s.rules && s.rules[id].state == FIRING && id !in HeldIds(s.passes) }

  lemma StuckStep(s: State, e: Step, id: Id)
    requires Inv(s) && Stuck(s, id)
    ensures Stuck(Next(s, e), id) && Next(s, e).rules[id] == s.rules[id]
  {
    if IsPassStep(e) && e.pass in s.passes {
      PassLeavesStuck(s, e, id);
    } else {
      OthersLeaveFiring(s, e, id);
    }
  }

  lemma OthersLeaveFiring(s: State, e: Step, id: Id)
    requires ReadsOk(s.rules, s.passes, s.routes) && !(IsPassStep(e) && e.pass in s.passes) && id in s.rules && s.rules[id].state == FIRING
    ensures id in Next(s, e).rules && Next(s, e).rules[id] == s.rules[id] && HeldIds(Next(s, e).passes) == HeldIds(s.passes)
  {
    if e.SetLot? || e.Arm? || e.ArmRaised? || e.BeginPass? || IsPassStep(e) {
      PlainStepsLeaveFiring(s, e, id);
    } else {
      if (e.Reprice? || e.CancelArmed?) && e.route in s.routes { assert RouteReads(s.rules, s.routes[e.route]); }
      RoutesLeaveFiring(s, e, id);
      assert Next(s, e) == RouteStep(s, e);
    }
  }

  lemma PlainStepsLeaveFiring(s: State, e: Step, id: Id)
    requires e.SetLot? || e.Arm? || e.ArmRaised? || e.BeginPass? || (IsPassStep(e) && e.pass !in s.passes)
    requires id in s.rules && s.rules[id].state == FIRING
    ensures id in Next(s, e).rules && Next(s, e).rules[id] == s.rules[id] && HeldIds(Next(s, e).passes) == HeldIds(s.passes)
  {
    if e.BeginPass? && e.pass !in s.passes { HeldAfterBegin(s.passes, e.pass, Pass(e.ltp, e.rows, Scanning)); }
  }

  lemma RoutesLeaveFiring(s: State, e: Step, id: Id)
    requires e.ReadToReprice? || e.Reprice? || e.ReadToCancel? || e.CancelArmed? || e.BrokerCancelReturned?
    requires (e.Reprice? || e.CancelArmed?) && e.route in s.routes ==> RouteReads(s.rules, s.routes[e.route])
    requires id in s.rules && s.rules[id].state == FIRING
    ensures id in RouteStep(s, e).rules && RouteStep(s, e).rules[id] == s.rules[id] && RouteStep(s, e).passes == s.passes
  {
  }

  lemma PassLeavesStuck(s: State, e: Step, id: Id)
    requires Inv(s) && IsPassStep(e) && e.pass in s.passes && Stuck(s, id)
    ensures Stuck(PassStep(s, e), id) && PassStep(s, e).rules[id] == s.rules[id]
  {
    var p, s' := e.pass, PassStep(s, e);
    assert HoldsItsRule(s.rules, s.passes[p]);
    PassStepMovesIt(s, e);
    HeldAfter(s.passes, p, s'.passes[p], id);
    HeldBySome(s.passes, p, id);
    if s.passes[p].phase.Scanning? {
      if s.passes[p].pending != [] {
        assert PassReads(s.rules, s.passes[p]) && ReadEarlier(s.rules, s.passes[p].pending[0]);
        TriesLeaveStuck(s, p, id, e.TryRuleRaised? && e.written);
      }
    } else {
      WorkLeavesStuck(s, e, id);
    }
  }

  lemma TriesLeaveStuck(s: State, p: nat, id: Id, written: bool)
    requires p in s.passes && s.passes[p].phase.Scanning? && s.passes[p].pending != [] && ReadEarlier(s.rules, s.passes[p].pending[0])
    requires id in s.rules && s.rules[id].state == FIRING && RowsOk(s.rules)
    ensures id in TryNext(s, p).rules && TryNext(s, p).rules[id] == s.rules[id] && !Holds(TryNext(s, p).passes[p], id)
    ensures id in TryCut(s, p, written).rules && TryCut(s, p, written).rules[id] == s.rules[id] && !Holds(TryCut(s, p, written).passes[p], id)
  {
  }

  lemma WorkLeavesStuck(s: State, e: Step, id: Id)
    requires RowsOk(s.rules) && IsPassStep(e) && e.pass in s.passes && !s.passes[e.pass].phase.Scanning? && HoldsItsRule(s.rules, s.passes[e.pass])
    requires id in s.rules && s.rules[id].state == FIRING && s.passes[e.pass].phase.rule.id != id
    ensures var s' := PassStep(s, e); id in s'.rules && s'.rules[id] == s.rules[id] && e.pass in s'.passes && !Holds(s'.passes[e.pass], id)
  {
    if IsAnswer(e) && s.passes[e.pass].phase.Placing? { AnswerEndsWell(s, e); }
  }

  /** Nothing ever picks such a rule up again: no evaluation, route or later tick changes its row. */
  lemma {:induction false} StuckForGood(s: State, steps: seq<Step>, id: Id)
    requires Inv(s) && Stuck(s, id)
    ensures Stuck(Run(s, steps), id) && Run(s, steps).rules[id] == s.rules[id]
    decreases |steps|
  {
    if steps != [] {
      StuckStep(s, steps[0], id);
      StepKeepsInv(s, steps[0]);
      StuckForGood(Next(s, steps[0]), steps[1..], id);
    }
  }

  // ---- exit orders -------------------------------------------------------------------------------

  ghost predicate HasSent(log: seq<Event>, id: Id) { exists k :: 0 <= k < |log| && log[k].OrderSent? && log[k].id == id }

  ghost predicate OrdersDistinct(log: seq<Event>) {
    && (forall j, k :: 0 <= j < k < |log| && log[j].OrderSent? && log[k].OrderSent? ==> log[j].id != log[k].id)
    && (forall k :: 0 <= k < |log| && log[k].OrderSent? ==> log[k].quantity > 0)
  }

  /** Nothing was sent for a rule that has not fired or whose winner has not yet read its lot. */
  ghost predicate OrdersOk(s: State) {
    && OrdersDistinct(s.log)
    && (forall id :: HasSent(s.log, id) ==> HasFired(s.log, id))
    && (forall p :: p in s.passes && s.passes[p].phase.Won? ==> !HasSent(s.log, s.passes[p].phase.rule.id) && HasFired(s.log, s.passes[p].phase.rule.id))
  }

  lemma SentAdded(log: seq<Event>, e: Event)
    ensures forall id :: HasSent(log + [e], id) <==> HasSent(log, id) || (e.OrderSent? && e.id == id)
  {
    var log' := log + [e];
    assert log'[|log|] == e;
    forall id | HasSent(log, id) ensures HasSent(log', id) {
      var k :| 0 <= k < |log| && log[k].OrderSent? && log[k].id == id;
      assert log'[k].OrderSent? && log'[k].id == id;
    }
  }

  predicate StepOfPass(s: State, e: Step, p: nat) { IsPassStep(e) && e.pass == p && p in s.passes }

  ghost predicate PassesOnlyMoveThemselves(s: State, e: Step, s': State) {
    && (forall p :: p in s.passes ==> p in s'.passes && (s'.passes[p] == s.passes[p] || StepOfPass(s, e, p)))
    && (forall p :: p in s'.passes && p !in s.passes ==> e.BeginPass? && p == e.pass && s'.passes[p].phase.Scanning?)
    && (forall p :: p in s.passes && Running(s'.passes[p]) ==> Running(s.passes[p]))
  }

  /** The log grows by at most one event, of the kind the step makes, about the rule it works on. */
  ghost predicate LogsWhatItDoes(s: State, e: Step, s': State) {
    if s'.log == s.log then
      forall p :: p in s'.passes && !s'.passes[p].phase.Scanning? ==> p in s.passes && s.passes[p].phase == s'.passes[p].phase
    else
      && |s'.log| == |s.log| + 1
      && s'.log == s.log + [s'.log[|s.log|]]
      && IsPassStep(e) && e.pass in s.passes && e.pass in s'.passes
      && (var event := s'.log[|s.log|];
          match event
          case Fired(id, op, value, _, siblingHeld) =>
            && id in s.rules && s.rules[id].state == ARMED && op == s.rules[id].op && value == s.rules[id].value
            && id in s'.rules && s'.rules[id].state == FIRING
            && siblingHeld == SiblingHeld(s.passes, s.rules[id])
            && s.passes[e.pass].phase.Scanning? && Running(s.passes[e.pass])
            && (s'.passes[e.pass].phase.Scanning? || (s'.passes[e.pass].phase.Won? && s'.passes[e.pass].phase.rule.id == id))
          case OrderSent(id, _, quantity) =>
            && quantity > 0
            && s.passes[e.pass].phase.Won? && s.passes[e.pass].phase.rule.id == id
            && s'.passes[e.pass].phase == Placing(s.passes[e.pass].phase.rule)
          case _ =>
            s'.passes[e.pass].phase.Scanning? && s.passes[e.pass].phase.Placing? && s.passes[e.pass].phase.rule.id == event.id)
  }

  lemma StepLogsWhatItDoes(s: State, e: Step)
    requires Inv(s)
    ensures LogsWhatItDoes(s, e, Next(s, e))
  {
    if IsPassStep(e) && e.pass in s.passes {
      if s.passes[e.pass].phase.Scanning? {
        TryLogs(s, e);
      } else if s.passes[e.pass].phase.Won? {
        WonLogs(s, e);
      } else {
        PlacingLogs(s, e);
      }
    } else {
      OthersLogNothing(s, e);
    }
  }

  lemma OthersLogNothing(s: State, e: Step)
    requires !(IsPassStep(e) && e.pass in s.passes)
    ensures Next(s, e).log == s.log
    ensures forall p :: p in Next(s, e).passes && !Next(s, e).passes[p].phase.Scanning? ==>
              p in s.passes && s.passes[p].phase == Next(s, e).passes[p].phase
  {
  }

  lemma TryLogs(s: State, e: Step)
    requires Inv(s) && IsPassStep(e) && e.pass in s.passes && s.passes[e.pass].phase.Scanning?
    ensures LogsWhatItDoes(s, e, PassStep(s, e))
  {
    var pass := s.passes[e.pass];
    if (e.TryRule? || e.TryRuleRaised?) && pass.pending != [] {
      assert PassReads(s.rules, pass);
      assert ReadEarlier(s.rules, pass.pending[0]);
      var s' := if e.TryRule? then TryNext(s, e.pass) else TryCut(s, e.pass, e.written);
      if CanWin(s, e.pass) {
        WinsAre(s, e.pass);
        WinLogs(s, e, s');
      } else {
        LosingTryLogs(s, e, s');
      }
    }
  }

  lemma LosingTryLogs(s: State, e: Step, s': State)
    requires IsPassStep(e) && e.pass in s.passes && s.passes[e.pass].phase.Scanning? && s.passes[e.pass].pending != []
    requires ReadEarlier(s.rules, s.passes[e.pass].pending[0]) && !CanWin(s, e.pass)
    requires s' == TryNext(s, e.pass) || s' == TryCut(s, e.pass, true) || s' == TryCut(s, e.pass, false)
    ensures s'.log == s.log && LogsWhatItDoes(s, e, s')
  {
  }

  lemma WinLogs(s: State, e: Step, s': State)
    requires IsPassStep(e) && CanWin(s, e.pass)
    requires s' == s.(passes := s.passes[e.pass := s.passes[e.pass].(pending := [])])
             || (IsWin(s, s', s.passes[e.pass].pending[0].id, e.pass) && !s'.passes[e.pass].phase.Placing?)
    ensures LogsWhatItDoes(s, e, s')
  {
  }

  lemma WonLogs(s: State, e: Step)
    requires IsPassStep(e) && e.pass in s.passes && s.passes[e.pass].phase.Won?
    ensures LogsWhatItDoes(s, e, PassStep(s, e))
  {
  }

  lemma PlacingLogs(s: State, e: Step)
    requires IsPassStep(e) && e.pass in s.passes && s.passes[e.pass].phase.Placing?
    ensures LogsWhatItDoes(s, e, PassStep(s, e))
  {
  }

  lemma StepMovesItsPass(s: State, e: Step)
    ensures PassesOnlyMoveThemselves(s, e, Next(s, e))
  {
    if IsPassStep(e) && e.pass in s.passes { PassStepMovesIt(s, e); }
  }

  lemma PassStepMovesIt(s: State, e: Step)
    requires IsPassStep(e) && e.pass in s.passes
    ensures e.pass in PassStep(s, e).passes && PassStep(s, e).passes == s.passes[e.pass := PassStep(s, e).passes[e.pass]]
    ensures Running(PassStep(s, e).passes[e.pass]) ==> Running(s.passes[e.pass])
  {
    if s.passes[e.pass].phase.Scanning? && s.passes[e.pass].pending != [] {
      TriesMoveIt(s, e.pass, e.TryRuleRaised? && e.written);
    }
  }

  lemma TriesMoveIt(s: State, p: nat, written: bool)
    requires p in s.passes && s.passes[p].phase.Scanning? && s.passes[p].pending != []
    ensures p in TryNext(s, p).passes && TryNext(s, p).passes == s.passes[p := TryNext(s, p).passes[p]]
    ensures p in TryCut(s, p, written).passes && TryCut(s, p, written).passes == s.passes[p := TryCut(s, p, written).passes[p]]
  {
  }

  /** The event is about the ledger's row at that very step. */
  ghost predicate RecordsRow(s: State, s': State, w: Event) {
    && w.Fired? && w.id in s.rules && s.rules[w.id].state == ARMED && w.op == s.rules[w.id].op && w.value == s.rules[w.id].value
    && w.id in s'.rules && s'.rules[w.id].state == FIRING
  }

  lemma FiredRecordsRow(s: State, e: Step, s': State)
    requires LogsWhatItDoes(s, e, s') && |s'.log| > |s.log| && s'.log[|s.log|].Fired?
    ensures RecordsRow(s, s', s'.log[|s.log|])
  {
  }

  /** What a winning step records is the ledger's row at that very step. */
  lemma WinRecordsLedgerRow(s: State, e: Step)
    requires Inv(s) && |Next(s, e).log| > |s.log| && Next(s, e).log[|s.log|].Fired?
    ensures RecordsRow(s, Next(s, e), Next(s, e).log[|s.log|])
  {
    StepLogsWhatItDoes(s, e);
    FiredRecordsRow(s, e, Next(s, e));
  }

  lemma OrderEvents(log: seq<Event>, e: Event)
    requires OrdersDistinct(log)
    requires e.OrderSent? ==> !HasSent(log, e.id) && e.quantity > 0
    ensures OrdersDistinct(log + [e])
  {
  }

  ghost predicate WonUnsent(passes: map<nat, Pass>, log: seq<Event>, p: nat)
    requires p in passes && passes[p].phase.Won?
  {
    !HasSent(log, passes[p].phase.rule.id) && HasFired(log, passes[p].phase.rule.id)
  }

  /** Nobody else works on the rule of the pass that moves. */
  ghost predicate WorksAlone(s: State, p: nat) {
    p in s.passes && !s.passes[p].phase.Scanning? ==>
      forall q :: q in s.passes && q != p && !s.passes[q].phase.Scanning? ==> s.passes[q].phase.rule.id != s.passes[p].phase.rule.id
  }

  lemma WonAfter(s: State, e: Step, s': State, p: nat)
    requires HistoryOk(s.rules, s.log) && OrdersOk(s) && PassesOnlyMoveThemselves(s, e, s') && LogsWhatItDoes(s, e, s')
    requires IsPassStep(e) ==> WorksAlone(s, e.pass)
    requires p in s'.passes && s'.passes[p].phase.Won?
    ensures WonUnsent(s'.passes, s'.log, p)
  {
    if s'.log == s.log {
      assert WonUnsent(s.passes, s.log, p);
    } else {
      var event := s'.log[|s.log|];
      SentAdded(s.log, event);
      FiredAdded(s.log, event);
      if p != e.pass {
        assert WonUnsent(s.passes, s.log, p);
      }
    }
  }

  lemma FiredAdded(log: seq<Event>, e: Event)
    ensures forall id :: HasFired(log + [e], id) <==> HasFired(log, id) || (e.Fired? && e.id == id)
  {
    EventAdded(log, e);
  }

  lemma OrdersAfter(s: State, e: Step, s': State)
    requires Inv(s) && OrdersOk(s) && PassesOnlyMoveThemselves(s, e, s') && LogsWhatItDoes(s, e, s')
    ensures OrdersOk(s')
  {
    if IsPassStep(e) && e.pass in s.passes && !s.passes[e.pass].phase.Scanning? { OthersHoldOtherRules(s, e.pass); }
    assert IsPassStep(e) ==> WorksAlone(s, e.pass);
    forall p | p in s'.passes && s'.passes[p].phase.Won? ensures WonUnsent(s'.passes, s'.log, p) { WonAfter(s, e, s', p); }
    if s'.log != s.log {
      LogOrdersAfter(s, s'.log[|s.log|]);
    }
  }

  lemma LogOrdersAfter(s: State, e: Event)
    requires OrdersOk(s)
    requires e.OrderSent? ==> !HasSent(s.log, e.id) && e.quantity > 0 && HasFired(s.log, e.id)
    ensures OrdersDistinct(s.log + [e]) && forall id :: HasSent(s.log + [e], id) ==> HasFired(s.log + [e], id)
  {
    EventAdded(s.log, e);
    SentAdded(s.log, e);
    OrderEvents(s.log, e);
  }

  lemma StepKeepsOrders(s: State, e: Step)
    requires Inv(s) && OrdersOk(s)
    ensures OrdersOk(Next(s, e))
  {
    StepLogsWhatItDoes(s, e);
    StepMovesItsPass(s, e);
    OrdersAfter(s, e, Next(s, e));
  }

  lemma OthersHoldOtherRules(s: State, p: nat)
    requires Inv(s) && p in s.passes && !s.passes[p].phase.Scanning?
    ensures forall q :: q in s.passes && q != p && !s.passes[q].phase.Scanning? ==> s.passes[q].phase.rule.id != s.passes[p].phase.rule.id
  {
  }

  lemma {:induction false} RunKeepsOrders(s: State, steps: seq<Step>)
    requires Inv(s) && OrdersOk(s)
    ensures OrdersOk(Run(s, steps))
    decreases |steps|
  {
    if steps != [] {
      StepKeepsInv(s, steps[0]);
      StepKeepsOrders(s, steps[0]);
      RunKeepsOrders(Next(s, steps[0]), steps[1..]);
    }
  }

  /** No interleaving sends two exit orders for one rule, or an order for a rule that did not fire,
      or one for nothing. */
  lemma OneExitOrderPerRule(lots: map<Id, LotView>, steps: seq<Step>)
    ensures var log := Run(Initial(lots), steps).log;
            OrdersDistinct(log) && forall id :: HasSent(log, id) ==> HasFired(log, id)
  {
    InitialInv(lots);
    RunKeepsOrders(Initial(lots), steps);
  }

  // ---- legs that are out -----------------------------------------------------------------------------

  /** A rule that is no longer ARMED and that no pass works on. */
  ghost predicate Out(s: State, id: Id) { id in s.rules && s.rules[id].state != ARMED && id !in HeldIds(s.passes) }

  lemma OutAfter(s: State, e: Step, s': State, id: Id)
    requires Out(s, id) && TableStep(s.rules, s'.rules) && PassesOnlyMoveThemselves(s, e, s') && LogsWhatItDoes(s, e, s')
    ensures Out(s', id) && (HasLanded(s'.log, id) ==> HasLanded(s.log, id))
  {
    NobodyHoldsIt(s.passes, id);
    forall p | p in s'.passes && !s'.passes[p].phase.Scanning? ensures s'.passes[p].phase.rule.id != id {
      if s'.log != s.log { assert p == e.pass || s'.passes[p] == s.passes[p]; }
    }
    if s'.log != s.log { EventAdded(s.log, s'.log[|s.log|]); }
  }

  lemma NobodyHoldsIt(passes: map<nat, Pass>, id: Id)
    requires id !in HeldIds(passes)
    ensures forall p :: p in passes ==> !Holds(passes[p], id)
  {
    forall p | p in passes ensures !Holds(passes[p], id) { HeldBySome(passes, p, id); }
  }

  /** Once out, a rule stays out, and no exit of it lands any more. */
  lemma {:induction false} OutStaysOut(s: State, steps: seq<Step>, id: Id)
    requires Inv(s) && Out(s, id)
    ensures Out(Run(s, steps), id) && (HasLanded(Run(s, steps).log, id) ==> HasLanded(s.log, id))
    decreases |steps|
  {
    if steps != [] {
      StepKeepsInv(s, steps[0]);
      StepLogsWhatItDoes(s, steps[0]);
      StepMovesItsPass(s, steps[0]);
      OutAfter(s, steps[0], Next(s, steps[0]), id);
      OutStaysOut(Next(s, steps[0]), steps[1..], id);
    }
  }

  // ---- one cancels the other -----------------------------------------------------------------------

  /** Two legs of one bracket are both placed, or both their exits land, only if one of them won FIRING
      while the other was in some pass's hands, or a handler was done with one and left the other ARMED. */
  lemma BothMeansRaceOrLeft(lots: map<Id, LotView>, steps: seq<Step>, a: Id, b: Id, scope: Scope)
    requires Siblings(Run(Initial(lots), steps).rules, a, b)
    requires HasDone(Run(Initial(lots), steps).log, a, scope) && HasDone(Run(Initial(lots), steps).log, b, scope)
    ensures var log := Run(Initial(lots), steps).log; Raced(log, a, b) || HasLeft(log, a, scope) || HasLeft(log, b, scope)
  {
    InitialInv(lots);
    RunKeepsInv(Initial(lots), steps);
    var s := Run(Initial(lots), steps);
    assert PairOk(s.rules, HeldIds(s.passes), s.log, a, b);
  }

  /** The sibling of the winner had won FIRING before and its exit had not landed yet. */
  ghost predicate OverlapAt(t: Table, log: seq<Event>, k: nat)
    requires k < |log| && log[k].Fired?
  {
    && log[k].id in t && t[log[k].id].sibling.Some?
    && HasFired(log[..k], t[log[k].id].sibling.value)
    && !HasLanded(log[..k], t[log[k].id].sibling.value)
  }

  ghost predicate Overlapped(t: Table, log: seq<Event>, a: Id, b: Id) {
    exists k :: 0 <= k < |log| && log[k].Fired? && (log[k].id == a || log[k].id == b) && OverlapAt(t, log, k)
  }

  ghost predicate RacesOverlap(t: Table, log: seq<Event>) {
    forall k :: 0 <= k < |log| && log[k].Fired? && log[k].siblingHeld ==> OverlapAt(t, log, k)
  }

  lemma RacesOverlapAfter(s: State, e: Step, s': State)
    requires HistoryOk(s.rules, s.log) && HeldOk(s.rules, HeldIds(s.passes), s.log)
    requires RacesOverlap(s.rules, s.log) && TableStep(s.rules, s'.rules) && LogsWhatItDoes(s, e, s')
    ensures RacesOverlap(s'.rules, s'.log)
  {
    forall k | 0 <= k < |s'.log| && s'.log[k].Fired? && s'.log[k].siblingHeld ensures OverlapAt(s'.rules, s'.log, k) {
      assert s'.log[..k] == s.log[..k];
      if k < |s.log| {
        assert OverlapAt(s.rules, s.log, k);
      } else {
        assert s.log[..k] == s.log;
        assert s.rules[s'.log[k].id].sibling.value in HeldIds(s.passes);
      }
    }
  }

  lemma {:induction false} RunKeepsOverlap(s: State, steps: seq<Step>)
    requires Inv(s) && RacesOverlap(s.rules, s.log)
    ensures RacesOverlap(Run(s, steps).rules, Run(s, steps).log)
    decreases |steps|
  {
    if steps != [] {
      StepKeepsInv(s, steps[0]);
      StepLogsWhatItDoes(s, steps[0]);
      RacesOverlapAfter(s, steps[0], Next(s, steps[0]));
      RunKeepsOverlap(Next(s, steps[0]), steps[1..]);
    }
  }

  /** If two legs of one bracket are both done and none was left, the second won FIRING after the first
      had won it and before the exit of the first landed. */
  lemma BothMeansOverlapOrLeft(lots: map<Id, LotView>, steps: seq<Step>, a: Id, b: Id, scope: Scope)
    requires Siblings(Run(Initial(lots), steps).rules, a, b)
    requires HasDone(Run(Initial(lots), steps).log, a, scope) && HasDone(Run(Initial(lots), steps).log, b, scope)
    ensures var s := Run(Initial(lots), steps);
            Overlapped(s.rules, s.log, a, b) || HasLeft(s.log, a, scope) || HasLeft(s.log, b, scope)
  {
    BothMeansRaceOrLeft(lots, steps, a, b, scope);
    InitialInv(lots);
    RunKeepsOverlap(Initial(lots), steps);
    var s := Run(Initial(lots), steps);
    if Raced(s.log, a, b) {
      var k :| 0 <= k < |s.log| && s.log[k].Fired? && s.log[k].siblingHeld && (s.log[k].id == a || s.log[k].id == b);
      assert OverlapAt(s.rules, s.log, k);
    }
  }

  /** And such a race is all it takes: once both legs await the broker, two acceptances place both. */
  lemma RacedLegsAreBothPlaced(s: State, p: nat, q: nat)
    requires Inv(s) && p in s.passes && q in s.passes && p != q
    requires s.passes[p].phase.Placing? && s.passes[q].phase.Placing?
    requires Siblings(s.rules, s.passes[p].phase.rule.id, s.passes[q].phase.rule.id)
    ensures var s' := Next(Next(s, PlacementAccepted(p)), PlacementAccepted(q));
            && HasBeenPlaced(s'.log, s.passes[p].phase.rule.id) && HasBeenPlaced(s'.log, s.passes[q].phase.rule.id)
            && Raced(s.log, s.passes[p].phase.rule.id, s.passes[q].phase.rule.id)
  {
    var a, b := s.passes[p].phase.rule.id, s.passes[q].phase.rule.id;
    HeldMeansNotDone(s, p);
    HeldMeansNotDone(s, q);
    assert PairOk(s.rules, HeldIds(s.passes), s.log, a, b);
    AcceptedPlaces(s, p);
    var s1 := Next(s, PlacementAccepted(p));
    StepKeepsInv(s, PlacementAccepted(p));
    AcceptedPlaces(s1, q);
    EventAdded(s.log, s1.log[|s.log|]);
    EventAdded(s1.log, Next(s1, PlacementAccepted(q)).log[|s1.log|]);
  }

  lemma HeldMeansNotDone(s: State, p: nat)
    requires Inv(s) && p in s.passes && !s.passes[p].phase.Scanning?
    ensures s.passes[p].phase.rule.id in HeldIds(s.passes)
    ensures forall scope :: !HasDone(s.log, s.passes[p].phase.rule.id, scope) && !HasLeft(s.log, s.passes[p].phase.rule.id, scope)
  {
    var id := s.passes[p].phase.rule.id;
    HeldBySome(s.passes, p, id);
    forall scope ensures !HasDone(s.log, id, scope) && !HasLeft(s.log, id, scope) {
      if HasDone(s.log, id, scope) { DoneMeansLanded(s.log, id, scope); }
      LeftMeansDone(s.log, id, scope);
    }
  }

  lemma LeftMeansDone(log: seq<Event>, id: Id, scope: Scope)
    ensures HasLeft(log, id, scope) ==> HasDone(log, id, scope)
  {
  }

  lemma AcceptedPlaces(s: State, p: nat)
    requires Inv(s) && p in s.passes && s.passes[p].phase.Placing?
    ensures var s' := Next(s, PlacementAccepted(p));
            && s'.log == s.log + [LegPlaced(s.passes[p].phase.rule.id, false)]
            && forall q :: q in s.passes && q != p ==> q in s'.passes && s'.passes[q] == s.passes[q]
  {
    HolderNeverLoses(s, p, PLACED);
    SiblingIsOther(s.rules, s.passes[p].phase.rule.id);
  }

  // ---- one pass at a time --------------------------------------------------------------------------

  /** Passes run one at a time: each begins when no other is under way. */
  ghost predicate OneAtATime(s: State, steps: seq<Step>)
    decreases |steps|
  {
    steps == [] || (WaitsItsTurn(s, steps[0]) && OneAtATime(Next(s, steps[0]), steps[1..]))
  }

  ghost predicate WaitsItsTurn(s: State, e: Step) { e.BeginPass? ==> forall q :: q in s.passes ==> !Running(s.passes[q]) }

  /** The rule of the answered placement, whose sibling is ARMED. */
  predicate AnswersBesideArmed(s: State, e: Step) {
    IsAnswer(e) && e.pass in s.passes && s.passes[e.pass].phase.Placing? && SiblingArmed(s.rules, s.passes[e.pass].phase.rule)
  }

  /** The handler is cut off between the PLACED update and the cancel of a sibling that is ARMED. */
  predicate CutsOff(s: State, e: Step) { e.AcceptedRaised? && e.marked && AnswersBesideArmed(s, e) }

  /** The exit landed, but its rule is not marked PLACED and its sibling is still ARMED. */
  predicate LandsUnmarked(s: State, e: Step) {
    && ((e.AcceptedRaised? && !e.marked) || ((e.PlacementFailed? || e.FailedRaised?) && e.landed))
    && AnswersBesideArmed(s, e)
  }

  /** A handler is done with one leg and leaves the other ARMED. */
  predicate Leaves(s: State, e: Step, scope: Scope) { CutsOff(s, e) || (scope.LANDED_EXITS? && LandsUnmarked(s, e)) }

  ghost predicate NothingLeft(s: State, steps: seq<Step>, scope: Scope)
    decreases |steps|
  {
    steps == [] || (!Leaves(s, steps[0], scope) && NothingLeft(Next(s, steps[0]), steps[1..], scope))
  }

  ghost predicate NoRace(log: seq<Event>) { forall k :: 0 <= k < |log| && log[k].Fired? ==> !log[k].siblingHeld }

  ghost predicate NoneLeft(log: seq<Event>, scope: Scope) { forall id :: !HasLeft(log, id, scope) }

  ghost predicate OneRunning(s: State) {
    forall p, q :: p in s.passes && q in s.passes && Running(s.passes[p]) && Running(s.passes[q]) ==> p == q
  }

  /** At most one pass is under way, and there was no race. */
  ghost predicate SerialInv(s: State) { OneRunning(s) && NoRace(s.log) }

  lemma OneRunningAfter(s: State, e: Step, s': State)
    requires OneRunning(s) && PassesOnlyMoveThemselves(s, e, s') && WaitsItsTurn(s, e)
    ensures OneRunning(s')
  {
  }

  lemma QuietLogAfter(s: State, e: Step, s': State)
    requires SerialInv(s) && LogsWhatItDoes(s, e, s')
    ensures NoRace(s'.log)
  {
  }

  lemma SerialStep(s: State, e: Step)
    requires Inv(s) && SerialInv(s) && WaitsItsTurn(s, e)
    ensures SerialInv(Next(s, e))
  {
    StepLogsWhatItDoes(s, e);
    StepMovesItsPass(s, e);
    OneRunningAfter(s, e, Next(s, e));
    QuietLogAfter(s, e, Next(s, e));
  }

  /** What an answer logs of the sibling is what `Leaves` asks about. */
  predicate LogsEnd(s: State, e: Step, event: Event)
    requires IsAnswer(e) && e.pass in s.passes && s.passes[e.pass].phase.Placing?
  {
    && (event.LegPlaced? || event.LandedUnplaced?) && event.id == s.passes[e.pass].phase.rule.id
    && (event.siblingArmed <==> CutsOff(s, e) || LandsUnmarked(s, e))
    && (event.LegPlaced? <==> e.PlacementAccepted? || (e.AcceptedRaised? && e.marked))
  }

  predicate AwaitsAnswer(s: State, p: nat) {
    p in s.passes && s.passes[p].phase.Placing? && HoldsItsRule(s.rules, s.passes[p]) && s.passes[p].phase.rule.sibling != Some(s.passes[p].phase.rule.id)
  }

  lemma AnswerLogsSibling(s: State, e: Step)
    requires IsAnswer(e) && AwaitsAnswer(s, e.pass) && |PassStep(s, e).log| == |s.log| + 1
    ensures LogsEnd(s, e, PassStep(s, e).log[|s.log|])
  {
    match e
    case PlacementAccepted(p) => AcceptedLogs(s, p);
    case AcceptedRaised(p, marked) => AcceptedCutLogs(s, p, marked);
    case PlacementFailed(p, landed) => FailedLogs(s, p, landed, true);
    case FailedRaised(p, landed) => FailedLogs(s, p, landed, false);
  }

  lemma AcceptedLogs(s: State, p: nat)
    requires AwaitsAnswer(s, p)
    ensures |Accepted(s, p).log| == |s.log| + 1 && LogsEnd(s, PlacementAccepted(p), Accepted(s, p).log[|s.log|])
  {
  }

  lemma AcceptedCutLogs(s: State, p: nat, marked: bool)
    requires AwaitsAnswer(s, p)
    ensures |AcceptedCut(s, p, marked).log| == |s.log| + 1 && LogsEnd(s, AcceptedRaised(p, marked), AcceptedCut(s, p, marked).log[|s.log|])
  {
  }

  lemma FailedLogs(s: State, p: nat, landed: bool, marked: bool)
    requires AwaitsAnswer(s, p) && landed
    ensures |Failed(s, p, landed, marked).log| == |s.log| + 1
    ensures LogsEnd(s, if marked then PlacementFailed(p, landed) else FailedRaised(p, landed), Failed(s, p, landed, marked).log[|s.log|])
  {
  }

  lemma LeftAfter(s: State, e: Step, scope: Scope)
    requires Inv(s) && NoneLeft(s.log, scope)
    ensures NoneLeft(Next(s, e).log, scope) <==> !Leaves(s, e, scope)
  {
    StepLogsWhatItDoes(s, e);
    if Next(s, e).log == s.log {
      if Leaves(s, e, scope) { LandingIsLogged(s, e); }
    } else {
      var event := Next(s, e).log[|s.log|];
      NoneLeftAfter(s.log, event, scope);
      EventLeaves(s, e, event, scope);
    }
  }

  lemma NoneLeftAfter(log: seq<Event>, e: Event, scope: Scope)
    requires NoneLeft(log, scope)
    ensures NoneLeft(log + [e], scope) <==> forall id :: !(IsDone(e, id, scope) && e.siblingArmed)
  {
    forall id ensures HasLeft(log + [e], id, scope) <==> IsDone(e, id, scope) && e.siblingArmed { LeftAdded(log, e, id, scope); }
  }

  lemma EventLeaves(s: State, e: Step, event: Event, scope: Scope)
    requires Inv(s) && |Next(s, e).log| == |s.log| + 1 && event == Next(s, e).log[|s.log|]
    ensures Leaves(s, e, scope) <==> exists id :: IsDone(event, id, scope) && event.siblingArmed
  {
    if IsAnswer(e) && e.pass in s.passes && s.passes[e.pass].phase.Placing? {
      assert HoldsItsRule(s.rules, s.passes[e.pass]);
      AnswerEventLeaves(s, e, event, scope);
    } else {
      OthersLogNoEnd(s, e);
    }
  }

  lemma AnswerEventLeaves(s: State, e: Step, event: Event, scope: Scope)
    requires RowsOk(s.rules) && IsAnswer(e) && e.pass in s.passes && s.passes[e.pass].phase.Placing? && HoldsItsRule(s.rules, s.passes[e.pass])
    requires |PassStep(s, e).log| == |s.log| + 1 && event == PassStep(s, e).log[|s.log|]
    ensures Leaves(s, e, scope) <==> exists id :: IsDone(event, id, scope) && event.siblingArmed
  {
    SiblingIsOther(s.rules, s.passes[e.pass].phase.rule.id);
    AnswerLogsSibling(s, e);
    AnswerLeaves(s, e, event, scope);
  }

  lemma AnswerLeaves(s: State, e: Step, event: Event, scope: Scope)
    requires IsAnswer(e) && AwaitsAnswer(s, e.pass) && LogsEnd(s, e, event)
    ensures Leaves(s, e, scope) <==> exists id :: IsDone(event, id, scope) && event.siblingArmed
  {
    EndsFor(event, scope);
  }

  lemma EndsFor(e: Event, scope: Scope)
    requires e.LegPlaced? || e.LandedUnplaced?
    ensures (exists id :: IsDone(e, id, scope)) <==> e.LegPlaced? || scope.LANDED_EXITS?
  {
    if e.LegPlaced? || scope.LANDED_EXITS? { assert IsDone(e, e.id, scope); }
  }

  lemma OthersLogNoEnd(s: State, e: Step)
    requires |Next(s, e).log| == |s.log| + 1
    requires !(IsAnswer(e) && e.pass in s.passes && s.passes[e.pass].phase.Placing?)
    ensures var event := Next(s, e).log[|s.log|]; event.Fired? || event.OrderSent?
  {
  }

  lemma LandingIsLogged(s: State, e: Step)
    requires IsAnswer(e) && e.pass in s.passes && s.passes[e.pass].phase.Placing?
    requires e.PlacementAccepted? || e.AcceptedRaised? || e.landed
    ensures Next(s, e).log != s.log
  {
  }

  lemma {:induction false} SerialRun(s: State, steps: seq<Step>, scope: Scope)
    requires Inv(s) && SerialInv(s) && NoneLeft(s.log, scope) && OneAtATime(s, steps) && NothingLeft(s, steps, scope)
    ensures Inv(Run(s, steps)) && SerialInv(Run(s, steps)) && NoneLeft(Run(s, steps).log, scope)
    decreases |steps|
  {
    if steps != [] {
      StepKeepsInv(s, steps[0]);
      SerialStep(s, steps[0]);
      LeftAfter(s, steps[0], scope);
      SerialRun(Next(s, steps[0]), steps[1..], scope);
    }
  }

  /** Both legs of some bracket are done. */
  ghost predicate BothDone(s: State, scope: Scope) {
    exists a, b :: Siblings(s.rules, a, b) && HasDone(s.log, a, scope) && HasDone(s.log, b, scope)
  }

  lemma ApartMeansNotBoth(s: State, scope: Scope)
    requires Inv(s) && SerialInv(s) && NoneLeft(s.log, scope)
    ensures !BothDone(s, scope)
  {
    forall a, b | Siblings(s.rules, a, b) ensures !(HasDone(s.log, a, scope) && HasDone(s.log, b, scope)) {
      assert PairOk(s.rules, HeldIds(s.passes), s.log, a, b);
    }
  }

  /** When passes run one at a time, no two legs of a bracket are both marked PLACED as long as no handler
      is cut off between a PLACED update and the cancel of an ARMED sibling; and no two of their exits
      land as long as, besides, every exit that lands beside an ARMED sibling gets marked. That holds also
      when both legs match one tick, when a placement fails or any other call raises, and whatever the
      routes do meanwhile. */
  lemma OneCancelsTheOther(lots: map<Id, LotView>, steps: seq<Step>, scope: Scope)
    requires OneAtATime(Initial(lots), steps) && NothingLeft(Initial(lots), steps, scope)
    ensures !BothDone(Run(Initial(lots), steps), scope)
  {
    InitialInv(lots);
    SerialRun(Initial(lots), steps, scope);
    ApartMeansNotBoth(Run(Initial(lots), steps), scope);
  }

  // ---- a run in which both legs are placed ---------------------------------------------------------

  const TARGET_LEG := Rule("t", Some("lot"), "key", TARGET, ARMED, ABOVE, Some(110.0), Some("s"), 0)
  const STOP_LEG := Rule("s", Some("lot"), "key", STOP_LOSS, ARMED, BELOW, Some(90.0), Some("t"), 0)

  function TwoPassesRead(): State {
    State(map["t" := TARGET_LEG, "s" := STOP_LEG], map["lot" := LotView(BUY, 50)],
          map[0 := Pass(120.0, [TARGET_LEG], Scanning), 1 := Pass(80.0, [STOP_LEG], Scanning)], map[], [])
  }

  const FIRST_READS := [Arm("lot", "key", BUY, Some(110.0), Some(90.0), "t", "s"),
                       BeginPass(0, "key", 120.0, [STOP_LEG, TARGET_LEG]), TryRule(0)]
  const SECOND_READS := [BeginPass(1, "key", 80.0, [TARGET_LEG, STOP_LEG]), TryRule(1)]
  const BOTH_READ := FIRST_READS + SECOND_READS

  function FirstRead(): State {
    State(map["t" := TARGET_LEG, "s" := STOP_LEG], map["lot" := LotView(BUY, 50)],
          map[0 := Pass(120.0, [TARGET_LEG], Scanning)], map[], [])
  }

  lemma FirstPassReads()
    ensures Run(Initial(map["lot" := LotView(BUY, 50)]), FIRST_READS) == FirstRead()
  {
    var s0 := Initial(map["lot" := LotView(BUY, 50)]);
    var s1 := FirstRead().(passes := map[]);
    assert Next(s0, FIRST_READS[0]) == s1;
    var s2 := FirstRead().(passes := map[0 := Pass(120.0, [STOP_LEG, TARGET_LEG], Scanning)]);
    assert Next(s1, FIRST_READS[1]) == s2;
    assert [STOP_LEG, TARGET_LEG][1..] == [TARGET_LEG];
    assert Next(s2, TryRule(0)) == FirstRead();
    RunCons(s2, TryRule(0), []);
    RunCons(s1, FIRST_READS[1], [TryRule(0)]);
    RunCons(s0, FIRST_READS[0], [FIRST_READS[1], TryRule(0)]);
  }

  lemma SecondPassReads()
    ensures Run(FirstRead(), SECOND_READS) == TwoPassesRead()
  {
    var s1 := FirstRead();
    var s2 := s1.(passes := map[0 := Pass(120.0, [TARGET_LEG], Scanning), 1 := Pass(80.0, [TARGET_LEG, STOP_LEG], Scanning)]);
    assert Next(s1, SECOND_READS[0]) == s2;
    assert [TARGET_LEG, STOP_LEG][1..] == [STOP_LEG];
    assert Next(s2, TryRule(1)) == TwoPassesRead();
    RunCons(s2, TryRule(1), []);
    RunCons(s1, SECOND_READS[0], [TryRule(1)]);
  }

  /** Both legs are armed and each of two concurrent passes has read them; the pass at 120 has
      already dropped the stop-loss, the one at 80 the target. */
  lemma TwoPassesBegin()
    ensures Run(Initial(map["lot" := LotView(BUY, 50)]), BOTH_READ) == TwoPassesRead()
  {
    FirstPassReads();
    SecondPassReads();
    RunConcat(Initial(map["lot" := LotView(BUY, 50)]), FIRST_READS, SECOND_READS);
  }

  lemma RunCons(s: State, e: Step, rest: seq<Step>)
    ensures Run(s, [e] + rest) == Run(Next(s, e), rest)
  {
  }

  const FIRED_TARGET := Moved(TARGET_LEG, FIRING)
  const FIRED_STOP := Moved(STOP_LEG, FIRING)
  const FIRST_FIRES := [Fired("t", ABOVE, Some(110.0), 120.0, false), OrderSent("t", SELL, 50)]
  const BOTH_FIRE := FIRST_FIRES + [Fired("s", BELOW, Some(90.0), 80.0, true), OrderSent("s", SELL, 50)]

  function FirstFired(): State {
    State(map["t" := FIRED_TARGET, "s" := STOP_LEG], map["lot" := LotView(BUY, 50)],
          map[0 := Pass(120.0, [], Placing(FIRED_TARGET)), 1 := Pass(80.0, [STOP_LEG], Scanning)], map[], FIRST_FIRES)
  }

  function BothFired(): State {
    State(map["t" := FIRED_TARGET, "s" := FIRED_STOP], map["lot" := LotView(BUY, 50)],
          map[0 := Pass(120.0, [], Placing(FIRED_TARGET)), 1 := Pass(80.0, [], Placing(FIRED_STOP))], map[], BOTH_FIRE)
  }

  function FirstWon(): State {
    State(map["t" := FIRED_TARGET, "s" := STOP_LEG], map["lot" := LotView(BUY, 50)],
          map[0 := Pass(120.0, [], Won(FIRED_TARGET)), 1 := Pass(80.0, [STOP_LEG], Scanning)], map[],
          [Fired("t", ABOVE, Some(110.0), 120.0, false)])
  }

  lemma FirstPassWins()
    ensures Next(TwoPassesRead(), TryRule(0)) == FirstWon()
  {
    assert [TARGET_LEG][1..] == [];
    assert HeldIds(TwoPassesRead().passes) == {};
  }

  lemma FirstPassFires()
    ensures Run(TwoPassesRead(), [TryRule(0), CheckLot(0)]) == FirstFired()
  {
    FirstPassWins();
    assert Next(FirstWon(), CheckLot(0)) == FirstFired();
    RunCons(FirstWon(), CheckLot(0), []);
    RunCons(TwoPassesRead(), TryRule(0), [CheckLot(0)]);
  }

  function SecondWon(): State {
    State(map["t" := FIRED_TARGET, "s" := FIRED_STOP], map["lot" := LotView(BUY, 50)],
          map[0 := Pass(120.0, [], Placing(FIRED_TARGET)), 1 := Pass(80.0, [], Won(FIRED_STOP))], map[],
          FIRST_FIRES + [Fired("s", BELOW, Some(90.0), 80.0, true)])
  }

  lemma SecondPassWins()
    ensures Next(FirstFired(), TryRule(1)) == SecondWon()
  {
    var s := FirstFired();
    assert [STOP_LEG][1..] == [];
    assert s.passes[0].phase.rule.id == "t" && "t" in HeldIds(s.passes);
  }

  lemma SecondPassFires()
    ensures Run(FirstFired(), [TryRule(1), CheckLot(1)]) == BothFired()
  {
    SecondPassWins();
    assert Next(SecondWon(), CheckLot(1)).log == BOTH_FIRE;
    assert Next(SecondWon(), CheckLot(1)) == BothFired();
    RunCons(SecondWon(), CheckLot(1), []);
    RunCons(FirstFired(), TryRule(1), [CheckLot(1)]);
  }

  ghost predicate BothPlacedIn(s: State) {
    Siblings(s.rules, "t", "s") && HasBeenPlaced(s.log, "t") && HasBeenPlaced(s.log, "s")
  }

  lemma BothFiredInv()
    ensures Inv(BothFired())
  {
    InitialInv(map["lot" := LotView(BUY, 50)]);
    TwoPassesBegin();
    FirstPassFires();
    SecondPassFires();
    RunKeepsInv(Initial(map["lot" := LotView(BUY, 50)]), BOTH_READ);
    RunKeepsInv(TwoPassesRead(), [TryRule(0), CheckLot(0)]);
    RunKeepsInv(FirstFired(), [TryRule(1), CheckLot(1)]);
  }

  lemma BothAccepted()
    ensures BothPlacedIn(Run(BothFired(), [PlacementAccepted(0), PlacementAccepted(1)]))
  {
    BothFiredInv();
    var s := BothFired();
    assert Siblings(s.rules, "t", "s");
    RacedLegsAreBothPlaced(s, 0, 1);
    RunCons(s, PlacementAccepted(0), [PlacementAccepted(1)]);
    RunCons(Next(s, PlacementAccepted(0)), PlacementAccepted(1), []);
    SiblingsStay(s, [PlacementAccepted(0), PlacementAccepted(1)], "t", "s");
  }

  /** With a tick above the target and a tick below the stop-loss evaluated concurrently, both legs
      of one bracket are placed: one pass at a time is not a condition that can be dropped. */
  lemma OverlappingPassesPlaceBothLegs()
    ensures exists lots, steps :: BothPlacedIn(Run(Initial(lots), steps))
  {
    TwoPassesBegin();
    FirstPassFires();
    SecondPassFires();
    InitialInv(map["lot" := LotView(BUY, 50)]);
    BothAccepted();
    BothLegsEndPlaced(map["lot" := LotView(BUY, 50)], BOTH_READ, [TryRule(0), CheckLot(0)], [TryRule(1), CheckLot(1)],
                      [PlacementAccepted(0), PlacementAccepted(1)]);
  }

  lemma BothLegsEndPlaced(lots: map<Id, LotView>, begin: seq<Step>, first: seq<Step>, second: seq<Step>, answers: seq<Step>)
    requires Run(Initial(lots), begin) == TwoPassesRead()
    requires Run(TwoPassesRead(), first) == FirstFired() && Run(FirstFired(), second) == BothFired()
    requires BothPlacedIn(Run(BothFired(), answers))
    ensures exists steps :: BothPlacedIn(Run(Initial(lots), steps))
  {
    RunConcat(Initial(lots), begin, first);
    RunConcat(Initial(lots), begin + first, second);
    RunConcat(Initial(lots), begin + first + second, answers);
    assert BothPlacedIn(Run(Initial(lots), begin + first + second + answers));
  }

  lemma {:induction false} SiblingsStay(s: State, steps: seq<Step>, a: Id, b: Id)
    requires Inv(s) && Siblings(s.rules, a, b)
    ensures Siblings(Run(s, steps).rules, a, b)
    decreases |steps|
  {
    if steps != [] {
      StepKeepsInv(s, steps[0]);
      SiblingsStay(Next(s, steps[0]), steps[1..], a, b);
    }
  }
}
