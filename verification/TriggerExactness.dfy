/** What it takes to place, or land, both legs of a bracket with passes that run one at a time: exactly a
    handler that is done with one leg and leaves the other ARMED. */
module TriggerExactness {
  import opened Trading
  import opened TriggerRules
  import opened TriggerMachine
  import opened TriggerSafety
  import opened TriggerTheorems

  /** One pass at a time, and nothing left. */
  ghost predicate Calm(s: State, steps: seq<Step>, scope: Scope) { OneAtATime(s, steps) && NothingLeft(s, steps, scope) }

  /** From here some calm continuation ends with both legs of a bracket done. */
  ghost predicate CanBoth(s: State, scope: Scope) { exists steps :: Calm(s, steps, scope) && BothDone(Run(s, steps), scope) }

  lemma {:induction false} CalmConcat(s: State, a: seq<Step>, b: seq<Step>, scope: Scope)
    requires Calm(s, a, scope) && Calm(Run(s, a), b, scope)
    ensures Calm(s, a + b, scope) && Run(s, a + b) == Run(Run(s, a), b)
    decreases |a|
  {
    if a == [] {
      assert a + b == b;
    } else {
      assert (a + b)[0] == a[0] && (a + b)[1..] == a[1..] + b;
      CalmConcat(Next(s, a[0]), a[1..], b, scope);
    }
  }

  lemma CalmOne(s: State, e: Step, scope: Scope)
    requires WaitsItsTurn(s, e) && !Leaves(s, e, scope)
    ensures Calm(s, [e], scope) && Run(s, [e]) == Next(s, e)
  {
    assert [e][1..] == [];
  }

  lemma CalmTwo(s: State, e: Step, f: Step, scope: Scope)
    requires WaitsItsTurn(s, e) && !Leaves(s, e, scope) && WaitsItsTurn(Next(s, e), f) && !Leaves(Next(s, e), f, scope)
    ensures Calm(s, [e] + [f], scope) && Run(s, [e] + [f]) == Next(Next(s, e), f)
  {
    CalmOne(s, e, scope);
    CalmOne(Next(s, e), f, scope);
    CalmConcat(s, [e], [f], scope);
  }

  // ---- ending a pass -----------------------------------------------------------------------------

  function Ended(s: State, p: nat): State
    requires p in s.passes
  {
    s.(passes := s.passes[p := s.passes[p].(pending := [])])
  }

  /** A pass whose FIRING updates all raise changes nothing and is over. */
  lemma {:induction false} EndPass(s: State, p: nat, scope: Scope) returns (steps: seq<Step>)
    requires p in s.passes && s.passes[p].phase.Scanning?
    ensures Calm(s, steps, scope) && Run(s, steps) == Ended(s, p)
    decreases |s.passes[p].pending|
  {
    if s.passes[p].pending == [] {
      steps := [];
      assert s.passes[p := s.passes[p].(pending := [])] == s.passes;
    } else {
      var e := TryRuleRaised(p, false);
      var s' := Next(s, e);
      RaisedTryIs(s, p);
      var rest := EndPass(s', p, scope);
      assert Ended(s', p) == Ended(s, p);
      CalmOne(s, e, scope);
      CalmConcat(s, [e], rest, scope);
      steps := [e] + rest;
    }
  }

  lemma RaisedTryIs(s: State, p: nat)
    requires p in s.passes && s.passes[p].phase.Scanning? && s.passes[p].pending != []
    ensures var s' := Next(s, TryRuleRaised(p, false));
            || s' == s.(passes := s.passes[p := s.passes[p].(pending := s.passes[p].pending[1..])])
            || s' == Ended(s, p)
  {
  }

  // ---- a snapshot --------------------------------------------------------------------------------

  lemma {:induction false} Enumerated(t: Table, ids: set<Id>) returns (rows: seq<Rule>)
    requires RowsOk(t) && ids <= t.Keys
    ensures forall k :: 0 <= k < |rows| ==> rows[k].id in ids && t[rows[k].id] == rows[k]
    ensures forall j, k :: 0 <= j < k < |rows| ==> rows[j].id != rows[k].id
    ensures forall id :: id in ids ==> t[id] in rows
    decreases |ids|
  {
    if ids == {} {
      rows := [];
    } else {
      var id :| id in ids;
      var rest := Enumerated(t, ids - {id});
      rows := [t[id]] + rest;
      forall x | x in ids ensures t[x] in rows { if x != id { assert t[x] in rest; } }
    }
  }

  /** A pass can read the armed rules with any one of them first. */
  lemma SnapshotFrom(t: Table, first: Id) returns (rows: seq<Rule>)
    requires RowsOk(t) && first in t && t[first].state == ARMED
    ensures IsSnapshot(t, t[first].instrument, rows) && rows != [] && rows[0] == t[first]
  {
    var others := set id | id in t && id != first && t[id].state == ARMED && t[id].instrument == t[first].instrument;
    var rest := Enumerated(t, others);
    rows := [t[first]] + rest;
    forall id | id in t && t[id].state == ARMED && t[id].instrument == t[first].instrument ensures t[id] in rows {
      if id != first { assert id in others && t[id] in rest; }
    }
  }

  // ---- firing an armed leg -------------------------------------------------------------------------

  function LimitOf(rule: Rule): real { if rule.value.Some? then rule.value.value else 0.0 }

  lemma LimitMatches(rule: Rule)
    requires rule.op != CROSSES
    ensures Matches(rule.op, rule.value, LimitOf(rule))
  {
  }

  ghost predicate NothingRuns(s: State) { forall q :: q in s.passes ==> !Running(s.passes[q]) }

  /** The armed leg wins FIRING in a pass of its own. */
  lemma WinArmed(s: State, b: Id, q: nat, rows: seq<Rule>, scope: Scope) returns (steps: seq<Step>)
    requires RowsOk(s.rules) && b in s.rules && s.rules[b].state == ARMED && q !in s.passes
    requires IsSnapshot(s.rules, s.rules[b].instrument, rows) && rows != [] && rows[0] == s.rules[b]
    ensures NothingRuns(s) ==> Calm(s, steps, scope)
    ensures var s', row := Run(s, steps), Moved(s.rules[b], FIRING);
            && q in s'.passes && s'.passes[q].phase == Won(row) && s'.rules == s.rules[b := row] && s'.lots == s.lots
            && |s'.log| == |s.log| + 1 && s'.log == s.log + [s'.log[|s.log|]] && s'.log[|s.log|].Fired?
  {
    var begin, win := BeginPass(q, s.rules[b].instrument, LimitOf(s.rules[b]), rows), TryRule(q);
    var s1 := Next(s, begin);
    assert s1 == s.(passes := s.passes[q := Pass(LimitOf(s.rules[b]), rows, Scanning)]);
    LimitMatches(s.rules[b]);
    if NothingRuns(s) { CalmTwo(s, begin, win, scope); }
    RunCons(s, begin, [win] + []);
    RunCons(s1, win, []);
    steps := [begin] + [win];
    assert steps == [begin] + ([win] + []);
    assert CanWin(s1, q);
    WinsAre(s1, q);
    WonBy(s1, q);
  }

  lemma WonBy(s: State, q: nat)
    requires CanWin(s, q)
    ensures Next(s, TryRule(q)) == TryNext(s, q) && q in TryNext(s, q).passes
    ensures TryNext(s, q).passes[q].phase == Won(Moved(s.rules[s.passes[q].pending[0].id], FIRING)) && TryNext(s, q).lots == s.lots
  {
  }

  /** And its exit order goes out and lands. */
  lemma PlaceWon(s: State, q: nat, scope: Scope) returns (steps: seq<Step>)
    requires q in s.passes && s.passes[q].phase.Won? && HoldsItsRule(s.rules, s.passes[q])
    requires s.passes[q].phase.rule.lotId.Some? && s.passes[q].phase.rule.lotId.value in s.lots && s.lots[s.passes[q].phase.rule.lotId.value].remaining > 0
    ensures Calm(s, steps, scope)
    ensures var log := Run(s, steps).log;
            |log| == |s.log| + 2 && log[..|s.log|] == s.log && IsDone(log[|s.log| + 1], s.passes[q].phase.rule.id, scope)
  {
    CalmTwo(s, CheckLot(q), PlacementAccepted(q), scope);
    steps := [CheckLot(q)] + [PlacementAccepted(q)];
    var s1 := Next(s, CheckLot(q));
    assert s1 == CheckLotOf(s, q) && s1.passes[q].phase.Placing? && |s1.log| == |s.log| + 1;
    assert Next(s1, PlacementAccepted(q)) == Accepted(s1, q);
  }

  lemma DoneStays(log: seq<Event>, more: seq<Event>, id: Id, scope: Scope)
    requires |log| <= |more| && more[..|log|] == log && HasDone(log, id, scope)
    ensures HasDone(more, id, scope)
  {
    var k :| 0 <= k < |log| && IsDone(log[k], id, scope);
    assert more[..|log|][k] == more[k];
  }

  /** A leg that is still ARMED, with nothing under way, can be done next; what is done stays done. */
  lemma FireArmed(s: State, a: Id, b: Id, scope: Scope) returns (steps: seq<Step>)
    requires Inv(s) && Siblings(s.rules, a, b) && s.rules[b].state == ARMED && HasDone(s.log, a, scope) && NothingRuns(s)
    ensures Calm(s, steps, scope) && BothDone(Run(s, steps), scope)
  {
    var lot := s.rules[b].lotId.value;
    var q := FreshPass(s.passes.Keys);
    var view := SetLot(lot, LotView(BUY, 1));
    var s1 := Next(s, view);
    CalmOne(s, view, scope);
    StepKeepsInv(s, view);
    var rows := SnapshotFrom(s1.rules, b);
    var win := WinArmed(s1, b, q, rows, scope);
    RunKeepsInv(s1, win);
    var s2 := Run(s1, win);
    assert HoldsItsRule(s2.rules, s2.passes[q]);
    var place := PlaceWon(s2, q, scope);
    CalmConcat(s1, win, place, scope);
    CalmConcat(s, [view], win + place, scope);
    steps := [view] + (win + place);
    var s3 := Run(s2, place);
    DoneStays(s.log, s2.log, a, scope);
    DoneStays(s2.log, s3.log, a, scope);
    assert HasDone(s3.log, b, scope);
    SiblingsStay(s1, win, a, b);
    SiblingsStay(s2, place, a, b);
  }

  /** Whatever else is under way, the exit of an ARMED leg can land. */
  lemma ArmedCanLand(s: State, b: Id) returns (steps: seq<Step>)
    requires Inv(s) && b in s.rules && s.rules[b].state == ARMED
    ensures HasLanded(Run(s, steps).log, b)
  {
    var lot := s.rules[b].lotId.value;
    var q := FreshPass(s.passes.Keys);
    var view := SetLot(lot, LotView(BUY, 1));
    var s1 := Next(s, view);
    StepKeepsInv(s, view);
    var rows := SnapshotFrom(s1.rules, b);
    var win := WinArmed(s1, b, q, rows, LANDED_EXITS);
    RunKeepsInv(s1, win);
    var s2 := Run(s1, win);
    assert HoldsItsRule(s2.rules, s2.passes[q]);
    var place := PlaceWon(s2, q, LANDED_EXITS);
    RunConcat(s1, win, place);
    RunCons(s, view, win + place);
    steps := [view] + (win + place);
  }

  lemma FreshPass(used: set<nat>) returns (q: nat)
    ensures q !in used
  {
    if used == {} {
      q := 0;
    } else {
      var m := Greatest(used);
      q := m + 1;
    }
  }

  lemma {:induction false} Greatest(used: set<nat>) returns (m: nat)
    requires used != {}
    ensures forall x :: x in used ==> x <= m
    decreases |used|
  {
    var y :| y in used;
    if used == {y} {
      m := y;
    } else {
      var rest := Greatest(used - {y});
      m := Max(rest, y);
      forall x | x in used ensures x <= m { if x != y { assert x in used - {y}; } }
    }
  }

  // ---- exactly then ------------------------------------------------------------------------------

  lemma LeavingLogs(s: State, e: Step, scope: Scope)
    requires Leaves(s, e, scope) && AwaitsAnswer(s, e.pass)
    ensures HasDone(PassStep(s, e).log, s.passes[e.pass].phase.rule.id, scope)
  {
    var s' := PassStep(s, e);
    match e
    case AcceptedRaised(p, marked) => AcceptedCutLogs(s, p, marked); assert IsDone(s'.log[|s.log|], s.passes[p].phase.rule.id, scope);
    case PlacementFailed(p, landed) => FailedLogs(s, p, landed, true); assert IsDone(s'.log[|s.log|], s.passes[p].phase.rule.id, scope);
    case FailedRaised(p, landed) => FailedLogs(s, p, landed, false); assert IsDone(s'.log[|s.log|], s.passes[p].phase.rule.id, scope);
  }

  /** A pass that was done with one leg, the other still ARMED, no other pass under way. */
  lemma DoneCanBoth(s: State, s': State, p: nat, a: Id, b: Id, scope: Scope)
    requires OneRunning(s) && p in s.passes && !s.passes[p].phase.Scanning? && EndsWell(s, s', p) && Inv(s')
    requires Siblings(s'.rules, a, b) && s'.rules[b].state == ARMED && HasDone(s'.log, a, scope)
    ensures CanBoth(s', scope)
  {
    assert Running(s.passes[p]);
    LeftCanBoth(s', p, a, b, scope);
  }

  lemma LeavingAnswers(s: State, e: Step)
    requires RowsOk(s.rules) && AnswersBesideArmed(s, e) && HoldsItsRule(s.rules, s.passes[e.pass])
    ensures AwaitsAnswer(s, e.pass) && Siblings(s.rules, s.passes[e.pass].phase.rule.id, s.passes[e.pass].phase.rule.sibling.value)
  {
    SiblingIsOther(s.rules, s.passes[e.pass].phase.rule.id);
  }

  /** A leaving step leaves one leg done and the other ARMED, and its pass with rows to go. */
  lemma LeavingCanBoth(s: State, e: Step, scope: Scope)
    requires Inv(s) && OneRunning(s) && Leaves(s, e, scope)
    ensures CanBoth(PassStep(s, e), scope)
  {
    var rule := s.passes[e.pass].phase.rule;
    assert HoldsItsRule(s.rules, s.passes[e.pass]);
    LeavingAnswers(s, e);
    AnswerEndsWell(s, e);
    EndingKeepsInv(s, PassStep(s, e), e.pass);
    LeavingLogs(s, e, scope);
    LeavesSiblingArmed(s, e);
    DoneCanBoth(s, PassStep(s, e), e.pass, rule.id, rule.sibling.value, scope);
  }

  lemma LeavesSiblingArmed(s: State, e: Step)
    requires IsAnswer(e) && !e.PlacementAccepted? && AwaitsAnswer(s, e.pass) && s.passes[e.pass].phase.rule.sibling.Some?
    requires Siblings(s.rules, s.passes[e.pass].phase.rule.id, s.passes[e.pass].phase.rule.sibling.value) && SiblingArmed(s.rules, s.passes[e.pass].phase.rule)
    ensures var rule, rules := s.passes[e.pass].phase.rule, PassStep(s, e).rules;
            Siblings(rules, rule.id, rule.sibling.value) && rules[rule.sibling.value].state == ARMED
  {
  }

  lemma LeftCanBoth(s: State, p: nat, a: Id, b: Id, scope: Scope)
    requires Inv(s) && Siblings(s.rules, a, b) && s.rules[b].state == ARMED && HasDone(s.log, a, scope)
    requires p in s.passes && s.passes[p].phase.Scanning? && forall q :: q in s.passes && q != p ==> !Running(s.passes[q])
    ensures CanBoth(s, scope)
  {
    var drain := EndPass(s, p, scope);
    RunKeepsInv(s, drain);
    var fire := FireArmed(Ended(s, p), a, b, scope);
    CalmConcat(s, drain, fire, scope);
    assert Calm(s, drain + fire, scope) && BothDone(Run(s, drain + fire), scope);
  }

  lemma QuietCannotBoth(s: State, scope: Scope)
    requires Inv(s) && SerialInv(s) && NoneLeft(s.log, scope)
    ensures !CanBoth(s, scope)
  {
    forall steps | Calm(s, steps, scope) ensures !BothDone(Run(s, steps), scope) {
      SerialRun(s, steps, scope);
      ApartMeansNotBoth(Run(s, steps), scope);
    }
  }

  lemma CalmStep(s: State, e: Step, scope: Scope)
    requires Inv(s) && SerialInv(s) && NoneLeft(s.log, scope) && WaitsItsTurn(s, e) && !Leaves(s, e, scope)
    ensures Inv(Next(s, e)) && SerialInv(Next(s, e)) && NoneLeft(Next(s, e).log, scope)
  {
    StepKeepsInv(s, e);
    SerialStep(s, e);
    LeftAfter(s, e, scope);
  }

  lemma CalmStepCannotBoth(s: State, e: Step, scope: Scope)
    requires Inv(s) && SerialInv(s) && NoneLeft(s.log, scope) && WaitsItsTurn(s, e) && !Leaves(s, e, scope)
    ensures !CanBoth(Next(s, e), scope)
  {
    CalmStep(s, e, scope);
    QuietCannotBoth(Next(s, e), scope);
  }

  lemma LeavingStepCanBoth(s: State, e: Step, scope: Scope)
    requires Inv(s) && OneRunning(s) && Leaves(s, e, scope)
    ensures CanBoth(Next(s, e), scope)
  {
    LeavingCanBoth(s, e, scope);
    assert Next(s, e) == PassStep(s, e);
  }

  /** The condition is exact: in a serial run so far without race, a step leaves one leg done and the
      other ARMED if and only if some calm continuation ends with both legs of a bracket done. */
  lemma LeavesIffBoth(s: State, e: Step, scope: Scope)
    requires Inv(s) && SerialInv(s) && NoneLeft(s.log, scope) && WaitsItsTurn(s, e)
    ensures Leaves(s, e, scope) <==> CanBoth(Next(s, e), scope)
  {
    if Leaves(s, e, scope) {
      LeavingStepCanBoth(s, e, scope);
    } else {
      CalmStepCannotBoth(s, e, scope);
    }
  }

  // ---- a serial run that does both -------------------------------------------------------------------

  /** The target of a bracket fired and sent its exit, in the only pass there is. */
  function TargetSent(): State {
    State(map["t" := FIRED_TARGET, "s" := STOP_LEG], map["lot" := LotView(BUY, 50)],
          map[0 := Pass(120.0, [], Placing(FIRED_TARGET))], map[], FIRST_FIRES)
  }

  function TargetWon(): State {
    TargetSent().(passes := map[0 := Pass(120.0, [], Won(FIRED_TARGET))], log := [Fired("t", ABOVE, Some(110.0), 120.0, false)])
  }

  lemma TargetWins()
    ensures Next(FirstRead(), TryRule(0)) == TargetWon()
  {
    assert [TARGET_LEG][1..] == [];
    assert HeldIds(FirstRead().passes) == {};
  }

  lemma TargetSends(scope: Scope)
    ensures Calm(FirstRead(), [TryRule(0)] + [CheckLot(0)], scope) && Run(FirstRead(), [TryRule(0)] + [CheckLot(0)]) == TargetSent()
  {
    TargetWins();
    assert Next(TargetWon(), CheckLot(0)) == TargetSent();
    CalmTwo(FirstRead(), TryRule(0), CheckLot(0), scope);
  }

  /** How it comes to that, one step at a time. */
  lemma TargetIsSent(scope: Scope)
    ensures var lots, steps := map["lot" := LotView(BUY, 50)], FIRST_READS + ([TryRule(0)] + [CheckLot(0)]);
            Calm(Initial(lots), steps, scope) && Run(Initial(lots), steps) == TargetSent()
  {
    FirstPassReads();
    TargetSends(scope);
    FirstReadsAreCalm(scope);
    CalmConcat(Initial(map["lot" := LotView(BUY, 50)]), FIRST_READS, [TryRule(0)] + [CheckLot(0)], scope);
  }

  lemma FirstReadsAreCalm(scope: Scope)
    ensures Calm(Initial(map["lot" := LotView(BUY, 50)]), FIRST_READS, scope)
  {
    var s := Initial(map["lot" := LotView(BUY, 50)]);
    var s1 := Next(s, FIRST_READS[0]);
    assert s1.passes == map[];
    CalmOne(s, FIRST_READS[0], scope);
    CalmTwo(s1, FIRST_READS[1], TryRule(0), scope);
    CalmConcat(s, [FIRST_READS[0]], [FIRST_READS[1]] + [TryRule(0)], scope);
    assert FIRST_READS == [FIRST_READS[0]] + ([FIRST_READS[1]] + [TryRule(0)]);
  }

  lemma ReachesBoth(s: State, before: seq<Step>, mid: State, e: Step, scope: Scope)
    requires OneAtATime(s, before) && Run(s, before) == mid && WaitsItsTurn(mid, e) && CanBoth(Next(mid, e), scope)
    ensures exists steps :: OneAtATime(s, steps) && BothDone(Run(s, steps), scope)
  {
    var after :| Calm(Next(mid, e), after, scope) && BothDone(Run(Next(mid, e), after), scope);
    SerialStepOn(mid, e, after);
    SerialConcat(s, before, [e] + after);
    RunConcat(s, before, [e] + after);
    assert BothDone(Run(s, before + ([e] + after)), scope);
  }

  lemma SerialStepOn(s: State, e: Step, rest: seq<Step>)
    requires WaitsItsTurn(s, e) && OneAtATime(Next(s, e), rest)
    ensures OneAtATime(s, [e] + rest) && Run(s, [e] + rest) == Run(Next(s, e), rest)
  {
    assert ([e] + rest)[1..] == rest;
  }

  lemma TargetLeaves(scope: Scope)
    ensures Leaves(TargetSent(), if scope.PLACED_LEGS? then AcceptedRaised(0, true) else PlacementFailed(0, true), scope)
  {
  }

  /** Strictly one pass at a time and with no race, both legs of one bracket end marked PLACED: the event
      write after the first PLACED update raised. And without any store call raising, both their exits
      land: the first placement raised after its order had landed. */
  lemma SerialRunDoesBoth(scope: Scope)
    ensures exists lots, steps :: OneAtATime(Initial(lots), steps) && BothDone(Run(Initial(lots), steps), scope)
  {
    var lots, before := map["lot" := LotView(BUY, 50)], FIRST_READS + ([TryRule(0)] + [CheckLot(0)]);
    var e := if scope.PLACED_LEGS? then AcceptedRaised(0, true) else PlacementFailed(0, true);
    InitialInv(lots);
    TargetIsSent(scope);
    SerialRun(Initial(lots), before, scope);
    TargetLeaves(scope);
    LeavingStepCanBoth(TargetSent(), e, scope);
    ReachesBoth(Initial(lots), before, TargetSent(), e, scope);
  }

  lemma {:induction false} SerialConcat(s: State, a: seq<Step>, b: seq<Step>)
    requires OneAtATime(s, a) && OneAtATime(Run(s, a), b)
    ensures OneAtATime(s, a + b)
    decreases |a|
  {
    if a == [] {
      assert a + b == b;
    } else {
      assert (a + b)[0] == a[0] && (a + b)[1..] == a[1..] + b;
      SerialConcat(Next(s, a[0]), a[1..], b);
    }
  }
}
