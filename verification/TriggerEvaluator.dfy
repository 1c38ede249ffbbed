/** The evaluator and the routes as the program runs them: methods that update the ledger in place.
    Each piece of code between two `await`s is shown to be a sequence of `TriggerMachine` steps, and
    a whole `check_now` call, with any steps of other handlers at every `await`, to be a run. */
module TriggerEvaluator {
  import opened Trading
  import opened TriggerRules
  import opened TriggerMachine
  import opened TriggerSafety
  import opened TriggerTheorems
  import Broker

  datatype LegOutcome = Modified | NoSuchLeg | NotArmed

  datatype CancelOutcome = NotFound | CancelledInternally | Conflict | AwaitingBroker | Rejected

  /** A store call raised before its write, or after it. */
  datatype Cut = BEFORE | AFTER

  /** What happens while one rule is tried: whether its FIRING update raises, whether reading its lot (or
      marking it FAILED then) does, what comes of its placement, whether the update after that raises
      (or, once accepted, whatever follows before the sibling is cancelled). A notification that raises
      does so after everything was written. */
  datatype Luck = Luck(firing: Option<Cut>, lot: bool, outcome: Broker.Outcome, update: Option<Cut>)

  /** The step that an answered placement makes. */
  function AnswerStep(p: nat, outcome: Broker.Outcome, cut: Option<Cut>): Step {
    if outcome.Accepted? then if cut.None? then PlacementAccepted(p) else AcceptedRaised(p, cut == Some(AFTER))
    else if cut == Some(BEFORE) then FailedRaised(p, outcome.LandedAnyway?) else PlacementFailed(p, outcome.LandedAnyway?)
  }

  class Engine {
    var rules: Table
    var lots: map<Id, LotView>
    var passes: map<nat, Pass>
    var routes: map<nat, Route>
    var log: seq<Event>

    ghost function Now(): State
      reads this
    {
      State(rules, lots, passes, routes, log)
    }

    constructor (lots: map<Id, LotView>)
      ensures Now() == Initial(lots)
    {
      this.rules, this.lots, this.passes, this.routes, this.log := map[], lots, map[], map[], [];
    }

    // ---- the ledger's calls ------------------------------------------------------------------------

    method CasUpdateState(id: Id, expected: nat, state: RuleState) returns (row: Option<Rule>)
      modifies `rules
      ensures (rules, row) == CasState(old(rules), id, expected, state)
    {
      if id !in rules || rules[id].version != expected {
        return None;
      }
      rules := rules[id := rules[id].(state := state, version := rules[id].version + 1)];
      return Some(rules[id]);
    }

    method CasUpdateConditionValue(id: Id, expected: nat, value: real) returns (row: Option<Rule>)
      modifies `rules
      ensures (rules, row) == CasCondition(old(rules), id, expected, value)
    {
      if id !in rules || rules[id].version != expected || rules[id].state != ARMED {
        return None;
      }
      rules := rules[id := rules[id].(value := Some(value), version := rules[id].version + 1)];
      return Some(rules[id]);
    }

    /** The armed rules of one instrument, each once; rows created in one second come in any order. */
    method ArmedRulesFor(instrument: Key) returns (rows: seq<Rule>)
      requires RowsOk(rules)
      ensures IsSnapshot(rules, instrument, rows)
    {
      rows := [];
      var left := rules.Keys;
      while left != {}
        invariant left <= rules.Keys
        invariant forall k :: 0 <= k < |rows| ==>
                    rows[k].id in rules.Keys - left && rules[rows[k].id] == rows[k] && rows[k].state == ARMED && rows[k].instrument == instrument
        invariant forall j, k :: 0 <= j < k < |rows| ==> rows[j].id != rows[k].id
        invariant forall id :: id in rules.Keys - left && rules[id].state == ARMED && rules[id].instrument == instrument ==> rules[id] in rows
        decreases left
      {
        var id :| id in left;
        left := left - {id};
        if rules[id].instrument == instrument && rules[id].state == ARMED {
          ghost var before := rows;
          rows := rows + [rules[id]];
          assert rows[|before|] == rules[id];
          assert forall r :: r in before ==> r in rows;
        }
      }
    }

    // ---- one evaluator pass ------------------------------------------------------------------------

    /** Takes the pass's next row: `won` if it matched and won the FIRING update. If that update raised
        the whole pass is over. */
    method TryNextRule(p: nat, cut: Option<Cut>) returns (won: bool, raised: bool)
      requires p in passes && passes[p].phase.Scanning? && passes[p].pending != []
      modifies `rules, `passes, `log
      ensures Now() == Next(old(Now()), if raised then TryRuleRaised(p, cut == Some(AFTER)) else TryRule(p))
      ensures raised ==> cut.Some? && p in passes && passes[p].phase.Scanning? && passes[p].pending == []
      ensures p in passes && won == passes[p].phase.Won? && (!won ==> passes[p].phase.Scanning?)
      ensures !raised ==> passes[p].pending == old(passes[p].pending)[1..]
    {
      TriesAre(Now(), p);
      won, raised := false, false;
      var pass := passes[p];
      var row := pass.pending[0];
      if !Matches(row.op, row.value, pass.ltp) {
        passes := passes[p := pass.(pending := pass.pending[1..])];
      } else if cut == Some(BEFORE) {
        passes := passes[p := pass.(pending := [])];
        raised := true;
      } else {
        won := FireRow(p);
        if won && cut == Some(AFTER) {
          passes := passes[p := Pass(pass.ltp, [], Scanning)];
          won, raised := false, true;
        }
      }
    }

    /** The FIRING update of a row that matches. */
    method FireRow(p: nat) returns (won: bool)
      requires p in passes && passes[p].phase.Scanning? && passes[p].pending != []
      requires Matches(passes[p].pending[0].op, passes[p].pending[0].value, passes[p].ltp)
      modifies `rules, `passes, `log
      ensures Now() == TryNext(old(Now()), p)
      ensures p in passes && won == passes[p].phase.Won? && (!won ==> passes[p].phase.Scanning?)
      ensures passes[p].pending == old(passes[p].pending)[1..] && passes.Keys == old(passes).Keys
      ensures forall q :: q in passes && q != p ==> passes[q] == old(passes)[q]
    {
      var pass, before, held := passes[p], rules, HeldIds(passes);
      var row := pass.pending[0];
      var fired := CasUpdateState(row.id, row.version, FIRING);
      if fired.None? {
        passes := passes[p := pass.(pending := pass.pending[1..])];
        return false;
      }
      var inLedger := before[row.id];
      passes := passes[p := pass.(pending := pass.pending[1..], phase := Won(fired.value))];
      log := log + [Fired(row.id, inLedger.op, inLedger.value, pass.ltp, inLedger.sibling.Some? && inLedger.sibling.value in held)];
      return true;
    }

    /** The part of `_fire_rule` before its `await`: true if an exit order went out. */
    method SendExit(p: nat, raises: bool) returns (sent: bool)
      requires p in passes && passes[p].phase.Won?
      modifies `rules, `passes, `log
      ensures Now() == Next(old(Now()), if raises then CheckLotRaised(p) else CheckLot(p))
      ensures sent <==> !raises && var lot := old(passes[p].phase.rule.lotId); lot.Some? && lot.value in lots && lots[lot.value].remaining > 0
      ensures sent ==> |log| == |old(log)| + 1 && log[|old(log)|].OrderSent? && log[|old(log)|].id == old(passes[p].phase.rule.id)
      ensures sent ==> var lot := lots[old(passes[p].phase.rule.lotId).value];
                       Signed(lot.side, lot.remaining) + Signed(log[|old(log)|].side, log[|old(log)|].quantity) == 0
      ensures p in passes && sent == passes[p].phase.Placing? && (!sent ==> passes[p].phase.Scanning?)
      ensures passes[p].pending == old(passes[p].pending)
    {
      var rule := passes[p].phase.rule;
      if raises {
        passes := passes[p := passes[p].(phase := Scanning)];
        return false;
      }
      if rule.lotId.None? || rule.lotId.value !in lots || lots[rule.lotId.value].remaining <= 0 {
        var _ := CasUpdateState(rule.id, rule.version, FAILED);
        passes := passes[p := passes[p].(phase := Scanning)];
        return false;
      }
      var lot := lots[rule.lotId.value];
      var exitSide := if lot.side == BUY then SELL else BUY;
      passes := passes[p := passes[p].(phase := Placing(rule))];
      log := log + [OrderSent(rule.id, exitSide, lot.remaining)];
      return true;
    }

    /** The part of `_fire_rule` after its `await`; true if a failure is to be notified. */
    method PlacementReturned(p: nat, outcome: Broker.Outcome, cut: Option<Cut>) returns (notify: bool)
      requires p in passes && passes[p].phase.Placing?
      modifies `rules, `passes, `log
      ensures Now() == Next(old(Now()), AnswerStep(p, outcome, cut))
      ensures p in passes && passes[p].phase.Scanning? && passes[p].pending == old(passes[p].pending)
      ensures notify <==> !outcome.Accepted? && cut.None?
    {
      AnswersAre(Now(), p, outcome, cut);
      var rule := passes[p].phase.rule;
      passes := passes[p := passes[p].(phase := Scanning)];
      notify := false;
      if !outcome.Accepted? {
        if cut != Some(BEFORE) {
          var _ := CasUpdateState(rule.id, rule.version, FAILED);
        }
        if outcome.LandedAnyway? {
          log := log + [LandedUnplaced(rule.id, SiblingArmed(rules, rule))];
        }
        return cut.None?;
      }
      if cut == Some(BEFORE) {
        log := log + [LandedUnplaced(rule.id, SiblingArmed(rules, rule))];
        return false;
      }
      var placed := CasUpdateState(rule.id, rule.version, PLACED);
      if cut.None? && rule.sibling.Some? && rule.sibling.value in rules && rules[rule.sibling.value].state == ARMED {
        var _ := CasUpdateState(rule.sibling.value, rules[rule.sibling.value].version, CANCELLED);
      }
      log := log + [if placed.Some? then LegPlaced(rule.id, SiblingArmed(rules, rule)) else PlacedUpdateLost(rule.id)];
      assert cut.Some? ==> cut.value.AFTER?;
    }

    /** An `await` of pass `p`: the other handlers run as far as they like. */
    method Await(p: nat, others: seq<Step>)
      requires p in passes
      requires forall k :: 0 <= k < |others| ==> !IsStepOf(others[k], p)
      modifies this
      ensures Now() == Run(old(Now()), others)
      ensures p in passes && passes[p] == old(passes[p])
    {
      OthersRun(Now(), others, p);
      var s := Run(State(rules, lots, passes, routes, log), others);
      rules, lots, passes, routes, log := s.rules, s.lots, s.passes, s.routes, s.log;
    }

    /** `check_now`: `luck(n)` is what happens at the n-th rule tried, `others` the steps that other
        handlers make at its `await`s, in order. Whatever they are, the call is a run of the machine, so
        everything proved of runs holds of it. What raises under one rule does not keep the next from
        being tried; only a FIRING update that raises ends the pass. */
    method CheckNow(p: nat, instrument: Key, ltp: Option<real>, marketOpen: bool, hasToken: bool,
                    luck: nat -> Luck, others: nat -> seq<Step>)
      returns (raised: bool, ghost trace: seq<Step>)
      requires Inv(Now()) && p !in passes
      requires forall n, k :: 0 <= k < |others(n)| ==> !IsStepOf(others(n)[k], p)
      modifies this
      ensures Now() == Run(old(Now()), trace) && Inv(Now())
      ensures p in passes ==> passes[p].phase.Scanning? && passes[p].pending == []
      ensures raised ==> exists n :: luck(n).firing.Some?
      ensures !raised ==> NoRaisedTry(trace, p)
      ensures ltp.None? || !marketOpen || !hasToken ==> trace == []
      ensures ltp.Some? && marketOpen && hasToken ==>
                (trace != [] <==> exists id :: id in old(rules) && old(rules)[id].state == ARMED && old(rules)[id].instrument == instrument)
    {
      raised, trace := false, [];
      if ltp.None? || !marketOpen {
        return;
      }
      var armed := ArmedRulesFor(instrument);
      if armed == [] {
        return;
      }
      assert armed[0].id in rules;
      if !hasToken {
        return;
      }
      var rows := SortByRole(armed);
      SortedSnapshot(rules, instrument, armed);
      RunsKeepInv(Now());
      ghost var s0 := Now();
      passes := passes[p := Pass(ltp.value, rows, Scanning)];
      trace := [BeginPass(p, instrument, ltp.value, rows)];
      RunCons(s0, trace[0], []);
      ghost var rest;
      raised, rest := TryAll(p, luck, others);
      RunConcat(s0, trace, rest);
      trace := trace + rest;
    }

    /** The loop over the pass's rows. */
    method TryAll(p: nat, luck: nat -> Luck, others: nat -> seq<Step>) returns (raised: bool, ghost trace: seq<Step>)
      requires p in passes && passes[p].phase.Scanning?
      requires forall n, k :: 0 <= k < |others(n)| ==> !IsStepOf(others(n)[k], p)
      modifies this
      ensures Now() == Run(old(Now()), trace) && p in passes && passes[p].phase.Scanning? && passes[p].pending == []
      ensures raised ==> exists n :: luck(n).firing.Some?
      ensures !raised ==> NoRaisedTry(trace, p)
    {
      raised, trace := false, [];
      ghost var s0 := Now();
      var n: nat := 0;
      while passes[p].pending != []
        invariant !raised && Now() == Run(s0, trace)
        invariant p in passes && passes[p].phase.Scanning? && NoRaisedTry(trace, p)
        decreases |passes[p].pending|
      {
        ghost var turn;
        raised, turn := OneTurn(p, luck(n), others(2 * n), others(2 * n + 1));
        RunConcat(s0, trace, turn);
        trace := trace + turn;
        if raised {
          return;
        }
        n := n + 1;
      }
    }

    /** One turn of the loop; `awaiting` and `notifying` are what others do at its two `await`s. */
    method OneTurn(p: nat, luck: Luck, awaiting: seq<Step>, notifying: seq<Step>) returns (raised: bool, ghost trace: seq<Step>)
      requires p in passes && passes[p].phase.Scanning? && passes[p].pending != []
      requires forall k :: 0 <= k < |awaiting| ==> !IsStepOf(awaiting[k], p)
      requires forall k :: 0 <= k < |notifying| ==> !IsStepOf(notifying[k], p)
      modifies this
      ensures Now() == Run(old(Now()), trace) && p in passes && passes[p].phase.Scanning?
      ensures if raised then luck.firing.Some? && passes[p].pending == [] else passes[p].pending == old(passes[p].pending)[1..] && NoRaisedTry(trace, p)
    {
      ghost var s0 := Now();
      var won;
      won, raised := TryNextRule(p, luck.firing);
      ghost var e := if raised then TryRuleRaised(p, luck.firing == Some(AFTER)) else TryRule(p);
      RunCons(s0, e, []);
      trace := [e] + [];
      if won {
        ghost var rest := WorkOn(p, luck, awaiting, notifying);
        RunConcat(s0, trace, rest);
        trace := trace + rest;
      }
    }

    /** `_fire_rule` for a rule that was just won. */
    method WorkOn(p: nat, luck: Luck, awaiting: seq<Step>, notifying: seq<Step>) returns (ghost trace: seq<Step>)
      requires p in passes && passes[p].phase.Won?
      requires forall k :: 0 <= k < |awaiting| ==> !IsStepOf(awaiting[k], p)
      requires forall k :: 0 <= k < |notifying| ==> !IsStepOf(notifying[k], p)
      modifies this
      ensures Now() == Run(old(Now()), trace)
      ensures p in passes && passes[p].phase.Scanning? && passes[p].pending == old(passes[p].pending)
      ensures NoRaisedTry(trace, p)
    {
      ghost var s0 := Now();
      var sent;
      sent, trace := BeforeAwait(p, luck.lot);
      if sent {
        Await(p, awaiting);
        RunConcat(s0, trace, awaiting);
        trace := trace + awaiting;
        ghost var rest := Answered(p, luck, notifying);
        RunConcat(s0, trace, rest);
        trace := trace + rest;
      }
    }

    /** `SendExit` as a run. */
    method BeforeAwait(p: nat, raises: bool) returns (sent: bool, ghost trace: seq<Step>)
      requires p in passes && passes[p].phase.Won?
      modifies this
      ensures Now() == Run(old(Now()), trace) && NoRaisedTry(trace, p)
      ensures p in passes && passes[p].pending == old(passes[p].pending) && (if sent then passes[p].phase.Placing? else passes[p].phase.Scanning?)
    {
      ghost var s0, check := Now(), if raises then CheckLotRaised(p) else CheckLot(p);
      sent := SendExit(p, raises);
      trace := [check] + [];
      RunCons(s0, check, []);
    }

    /** From the broker's answer to the end of the notification, if there is one. */
    method Answered(p: nat, luck: Luck, notifying: seq<Step>) returns (ghost trace: seq<Step>)
      requires p in passes && passes[p].phase.Placing?
      requires forall k :: 0 <= k < |notifying| ==> !IsStepOf(notifying[k], p)
      modifies this
      ensures Now() == Run(old(Now()), trace)
      ensures p in passes && passes[p].phase.Scanning? && passes[p].pending == old(passes[p].pending)
      ensures NoRaisedTry(trace, p)
    {
      ghost var s0, answer := Now(), AnswerStep(p, luck.outcome, luck.update);
      var notify := PlacementReturned(p, luck.outcome, luck.update);
      RunCons(s0, answer, []);
      trace := [answer] + [];
      if notify {
        Await(p, notifying);
        RunConcat(s0, trace, notifying);
        trace := trace + notifying;
      }
    }

    // ---- the routes --------------------------------------------------------------------------------

    /** `_modify_bracket_leg`, and the body of the tighten route: only a leg that is still ARMED at
        the version just read can move. */
    method ModifyBracketLeg(r: nat, ruleId: Option<Id>, value: real) returns (outcome: LegOutcome)
      requires RowsOk(rules) && r !in routes
      modifies `rules
      ensures ruleId.None? || ruleId.value !in old(rules) <==> outcome == NoSuchLeg
      ensures ruleId.Some? ==> Now() == Run(old(Now()), [ReadToReprice(r, ruleId.value, value), Reprice(r)])
      ensures outcome == Modified <==> ruleId.Some? && ruleId.value in old(rules) && old(rules)[ruleId.value].state == ARMED
      ensures rules.Keys == old(rules).Keys
      ensures outcome == Modified ==> rules[ruleId.value] == old(rules)[ruleId.value].(value := Some(value), version := old(rules)[ruleId.value].version + 1)
      ensures outcome != Modified ==> rules == old(rules)
    {
      if ruleId.None? {
        return NoSuchLeg;
      }
      ghost var read, write := ReadToReprice(r, ruleId.value, value), Reprice(r);
      ghost var s := Now();
      RunCons(s, read, [write]);
      RunCons(Next(s, read), write, []);
      if ruleId.value !in rules {
        return NoSuchLeg;
      }
      assert s.routes[r := Repricing(rules[ruleId.value], value)] - {r} == s.routes;
      var rule := rules[ruleId.value];
      if rule.state != ARMED {
        return NotArmed;
      }
      var updated := CasUpdateConditionValue(rule.id, rule.version, value);
      if updated.None? {
        return NotArmed;
      }
      return Modified;
    }

    /** The cancel route up to its broker call: an ARMED rule is cancelled here, a PLACED one is left
        for `BrokerCancelled`, anything else is rejected. */
    method CancelTriggerRule(r: nat, id: Id) returns (outcome: CancelOutcome)
      requires RowsOk(rules) && r !in routes
      modifies `rules, `routes
      ensures outcome == NotFound <==> id !in old(rules)
      ensures outcome == CancelledInternally <==> id in old(rules) && old(rules)[id].state == ARMED
      ensures outcome == AwaitingBroker <==> id in old(rules) && old(rules)[id].state == PLACED
      ensures outcome != Conflict
      ensures Now() == Run(old(Now()), [ReadToCancel(r, id), CancelArmed(r)])
    {
      CancelRouteRuns(Now(), r, id);
      if id !in rules {
        return NotFound;
      }
      var rule := rules[id];
      if rule.state == ARMED {
        var cancelled := CasUpdateState(id, rule.version, CANCELLED);
        return if cancelled.None? then Conflict else CancelledInternally;
      }
      if rule.state == PLACED {
        routes := routes[r := CancellingAtBroker(id)];
        return AwaitingBroker;
      }
      return Rejected;
    }

    /** The cancel route after its broker call, on the row as it stands by now. */
    method BrokerCancelled(r: nat, confirmed: bool)
      requires r in routes && routes[r].CancellingAtBroker?
      modifies `rules, `routes
      ensures Now() == Next(old(Now()), BrokerCancelReturned(r, confirmed))
    {
      var id := routes[r].id;
      routes := routes - {r};
      if confirmed && id in rules && rules[id].state == PLACED {
        var _ := CasUpdateState(id, rules[id].version, CANCELLED);
      }
    }
  }

  lemma CancelRouteRuns(s: State, r: nat, id: Id)
    requires RowsOk(s.rules) && r !in s.routes
    ensures Run(s, [ReadToCancel(r, id), CancelArmed(r)]) ==
            if id !in s.rules then s
            else if s.rules[id].state == ARMED then s.(rules := CasState(s.rules, id, s.rules[id].version, CANCELLED).0)
            else if s.rules[id].state == PLACED then s.(routes := s.routes[r := CancellingAtBroker(id)])
            else s
  {
    var s1 := Next(s, ReadToCancel(r, id));
    assert [ReadToCancel(r, id)] + [CancelArmed(r)] == [ReadToCancel(r, id), CancelArmed(r)];
    RunCons(s, ReadToCancel(r, id), [CancelArmed(r)]);
    assert [CancelArmed(r)] + [] == [CancelArmed(r)];
    RunCons(s1, CancelArmed(r), []);
    ReadToCancelIs(s, r, id);
    CancelArmedIs(s1, r);
    if id in s.rules && s.rules[id].state == ARMED {
      assert s.routes[r := Cancelling(s.rules[id])] - {r} == s.routes;
    }
  }

  lemma ReadToCancelIs(s: State, r: nat, id: Id)
    requires r !in s.routes
    ensures Next(s, ReadToCancel(r, id)) ==
            if id !in s.rules then s
            else if s.rules[id].state == ARMED then s.(routes := s.routes[r := Cancelling(s.rules[id])])
            else if s.rules[id].state == PLACED then s.(routes := s.routes[r := CancellingAtBroker(id)])
            else s
  {
  }

  lemma CancelArmedIs(s: State, r: nat)
    ensures Next(s, CancelArmed(r)) ==
            if r in s.routes && s.routes[r].Cancelling? then
              s.(rules := CasState(s.rules, s.routes[r].row.id, s.routes[r].row.version, CANCELLED).0, routes := s.routes - {r})
            else s
  {
  }

  predicate IsStepOf(e: Step, p: nat) { IsPassStep(e) && e.pass == p }

  /** No row of the pass was given up: each was dropped, lost or worked on in its turn. */
  predicate NoRaisedTry(trace: seq<Step>, p: nat) { forall k :: 0 <= k < |trace| ==> !(trace[k].TryRuleRaised? && trace[k].pass == p) }

  lemma RunsKeepInv(s: State)
    requires Inv(s)
    ensures forall steps :: Inv(Run(s, steps))
  {
    forall steps ensures Inv(Run(s, steps)) { RunKeepsInv(s, steps); }
  }

  lemma TriesAre(s: State, p: nat)
    requires p in s.passes && s.passes[p].phase.Scanning? && s.passes[p].pending != []
    ensures Next(s, TryRule(p)) == TryNext(s, p)
    ensures forall written :: Next(s, TryRuleRaised(p, written)) == TryCut(s, p, written)
  {
  }

  lemma AnswersAre(s: State, p: nat, outcome: Broker.Outcome, cut: Option<Cut>)
    requires p in s.passes && s.passes[p].phase.Placing?
    ensures Next(s, AnswerStep(p, outcome, cut))
         == if outcome.Accepted? then (if cut.None? then Accepted(s, p) else AcceptedCut(s, p, cut == Some(AFTER)))
            else Failed(s, p, outcome.LandedAnyway?, cut != Some(BEFORE))
  {
  }

  lemma OthersLeavePassAlone(s: State, e: Step, p: nat)
    requires p in s.passes && !IsStepOf(e, p)
    ensures p in Next(s, e).passes && Next(s, e).passes[p] == s.passes[p]
  {
    StepMovesItsPass(s, e);
  }

  lemma {:induction false} OthersRun(s: State, others: seq<Step>, p: nat)
    requires p in s.passes && forall k :: 0 <= k < |others| ==> !IsStepOf(others[k], p)
    ensures p in Run(s, others).passes && Run(s, others).passes[p] == s.passes[p]
    decreases |others|
  {
    if others != [] {
      OthersLeavePassAlone(s, others[0], p);
      OthersRun(Next(s, others[0]), others[1..], p);
    }
  }

  /** Sorting a snapshot by role leaves a snapshot. */
  lemma SortedSnapshot(t: Table, instrument: Key, rows: seq<Rule>)
    requires RowsOk(t) && IsSnapshot(t, instrument, rows)
    ensures IsSnapshot(t, instrument, SortByRole(rows))
  {
    SortByRoleSorts(rows);
    var sorted := SortByRole(rows);
    forall r ensures r in sorted <==> r in rows {
      assert r in sorted <==> r in multiset(sorted);
      assert r in rows <==> r in multiset(rows);
    }
    forall k | 0 <= k < |sorted| ensures sorted[k] in rows {
    }
    assert forall r :: multiset(rows)[r] <= 1 by {
      forall r ensures multiset(rows)[r] <= 1 { DistinctRowsOccurOnce(rows, r); }
    }
    forall j, k | 0 <= j < k < |sorted| ensures sorted[j].id != sorted[k].id {
      if sorted[j].id == sorted[k].id {
        assert sorted[j] == t[sorted[j].id] == sorted[k];
        TwiceInMultiset(sorted, j, k);
      }
    }
  }

  lemma {:induction false} DistinctRowsOccurOnce(rows: seq<Rule>, r: Rule)
    requires forall j, k :: 0 <= j < k < |rows| ==> rows[j].id != rows[k].id
    ensures multiset(rows)[r] <= 1
  {
    if rows != [] {
      assert rows == [rows[0]] + rows[1..];
      DistinctRowsOccurOnce(rows[1..], r);
      if rows[0] == r {
        assert r !in rows[1..];
      }
    }
  }

  lemma TwiceInMultiset(rows: seq<Rule>, j: nat, k: nat)
    requires j < k < |rows| && rows[j] == rows[k]
    ensures multiset(rows)[rows[j]] >= 2
  {
    assert rows == rows[..j] + [rows[j]] + rows[j + 1..k] + [rows[k]] + rows[k + 1..];
  }
}
