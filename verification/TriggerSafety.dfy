/** What the firing protocol keeps in every state of every interleaving. */
module TriggerSafety {
  import opened Trading
  import opened TriggerRules
  import opened TriggerMachine

  // ---- one step on one row ---------------------------------------------------------------------

  predicate LegalMove(a: RuleState, b: RuleState) {
    match a
    case ARMED => b == FIRING || b == CANCELLED
    case FIRING => b == PLACED || b == FAILED
    case PLACED => b == CANCELLED
    case _ => false
  }

  predicate SameIdentity(r: Rule, r': Rule) {
    r'.id == r.id && r'.lotId == r.lotId && r'.instrument == r.instrument && r'.role == r.role &&
    r'.op == r.op && r'.sibling == r.sibling
  }

  /** The version grows by one, and the row makes one legal move at an unchanged price or changes
      only its price while ARMED. */
  predicate RowMoves(r: Rule, r': Rule) {
    && r'.version == r.version + 1
    && SameIdentity(r, r')
    && ((LegalMove(r.state, r'.state) && r'.value == r.value) || (r.state == ARMED && r'.state == ARMED))
  }

  ghost predicate TableStep(t: Table, t': Table) {
    forall id :: id in t ==> id in t' && (t'[id] == t[id] || RowMoves(t[id], t'[id]))
  }

  // ---- the invariant -----------------------------------------------------------------------------

  /** What the armer writes, whatever its state by now. A bracket that was cut short has a leg whose
      sibling never came. */
  ghost predicate RowsOk(t: Table) {
    && (forall id :: id in t ==> t[id].id == id && t[id].state != EVALUATING && t[id].op != CROSSES && t[id].lotId.Some?)
    && (forall id :: id in t && t[id].sibling.Some? && t[id].sibling.value in t ==> Siblings(t, id, t[id].sibling.value))
  }

  predicate Siblings(t: Table, a: Id, b: Id) {
    a in t && b in t && a != b && t[a].sibling == Some(b) && t[b].sibling == Some(a)
  }

  /** A row some handler read earlier: it was ARMED then, and unless it has moved on since, the
      ledger still holds exactly that row. */
  predicate ReadEarlier(t: Table, row: Rule) {
    && row.state == ARMED
    && row.id in t
    && row.version <= t[row.id].version
    && (row.version == t[row.id].version ==> t[row.id] == row)
  }

  ghost predicate PassReads(t: Table, pass: Pass) {
    forall k :: 0 <= k < |pass.pending| ==> ReadEarlier(t, pass.pending[k])
  }

  predicate RouteReads(t: Table, route: Route) {
    route.CancellingAtBroker? || ReadEarlier(t, route.row)
  }

  ghost predicate ReadsOk(t: Table, passes: map<nat, Pass>, routes: map<nat, Route>) {
    && (forall p :: p in passes ==> PassReads(t, passes[p]))
    && (forall r :: r in routes ==> RouteReads(t, routes[r]))
  }

  /** A pass that works on a rule holds the ledger's row of it, FIRING. */
  predicate HoldsItsRule(t: Table, pass: Pass) {
    pass.phase.Scanning? || (pass.phase.rule.id in t && t[pass.phase.rule.id] == pass.phase.rule && pass.phase.rule.state == FIRING)
  }

  ghost predicate HoldersOk(t: Table, passes: map<nat, Pass>) {
    && (forall p :: p in passes ==> HoldsItsRule(t, passes[p]))
    && (forall p, q :: p in passes && q in passes && !passes[p].phase.Scanning? && !passes[q].phase.Scanning? && p != q
          ==> passes[p].phase.rule.id != passes[q].phase.rule.id)
  }

  ghost predicate HasFired(log: seq<Event>, id: Id) { exists k :: 0 <= k < |log| && log[k].Fired? && log[k].id == id }

  /** What counts as done with a leg: marked PLACED, or its exit landed. */
  datatype Scope = PLACED_LEGS | LANDED_EXITS

  predicate IsDone(e: Event, id: Id, scope: Scope) {
    (e.LegPlaced? && e.id == id) || (scope.LANDED_EXITS? && e.LandedUnplaced? && e.id == id)
  }

  ghost predicate HasDone(log: seq<Event>, id: Id, scope: Scope) { exists k :: 0 <= k < |log| && IsDone(log[k], id, scope) }

  ghost predicate HasBeenPlaced(log: seq<Event>, id: Id) { HasDone(log, id, PLACED_LEGS) }

  ghost predicate HasLanded(log: seq<Event>, id: Id) { HasDone(log, id, LANDED_EXITS) }

  /** A handler was done with the leg and left its sibling ARMED. */
  ghost predicate HasLeft(log: seq<Event>, id: Id, scope: Scope) {
    exists k :: 0 <= k < |log| && IsDone(log[k], id, scope) && log[k].siblingArmed
  }

  /** One of the two won FIRING while the other was in some pass's hands. */
  ghost predicate Raced(log: seq<Event>, a: Id, b: Id) {
    exists k :: 0 <= k < |log| && log[k].Fired? && log[k].siblingHeld && (log[k].id == a || log[k].id == b)
  }

  ghost predicate HistoryOk(t: Table, log: seq<Event>) {
    && (forall id :: HasFired(log, id) ==> id in t && t[id].state != ARMED)
    && (forall id :: HasBeenPlaced(log, id) ==> id in t && t[id].state in {PLACED, CANCELLED})
    && (forall id :: HasLanded(log, id) ==> id in t && t[id].state != ARMED)
    && (forall id :: id in t && t[id].state == PLACED ==> HasBeenPlaced(log, id))
    && (forall id :: id in t && t[id].state == FIRING ==> HasFired(log, id))
    && (forall id :: PlacedUpdateLost(id) !in log)
  }

  /** What passes work on is FIRING, and its exit has not landed yet. */
  ghost predicate HeldOk(t: Table, held: set<Id>, log: seq<Event>) {
    forall id :: id in held ==> id in t && t[id].state == FIRING && !HasLanded(log, id)
  }

  ghost predicate FiringsOk(log: seq<Event>) {
    && (forall k :: 0 <= k < |log| && log[k].Fired? ==> Matches(log[k].op, log[k].value, log[k].ltp))
    && (forall j, k :: 0 <= j < k < |log| && log[j].Fired? && log[k].Fired? ==> log[j].id != log[k].id)
  }

  /** Unless the two raced or one was left, they are never worked on together, and once `a` was done
      `b` is out. */
  ghost predicate Apart(t: Table, held: set<Id>, log: seq<Event>, a: Id, b: Id, scope: Scope)
    requires a in t && b in t
  {
    || Raced(log, a, b) || HasLeft(log, a, scope) || HasLeft(log, b, scope)
    || (&& !(a in held && b in held)
        && (HasDone(log, a, scope) ==> t[b].state != ARMED && b !in held && !HasDone(log, b, scope)))
  }

  ghost predicate PairOk(t: Table, held: set<Id>, log: seq<Event>, a: Id, b: Id)
    requires a in t && b in t
  {
    Apart(t, held, log, a, b, PLACED_LEGS) && Apart(t, held, log, a, b, LANDED_EXITS)
  }

  ghost predicate PairsOk(t: Table, held: set<Id>, log: seq<Event>) {
    forall a, b :: Siblings(t, a, b) ==> PairOk(t, held, log, a, b)
  }

  ghost predicate LedgerOk(t: Table, held: set<Id>, log: seq<Event>) {
    RowsOk(t) && HistoryOk(t, log) && FiringsOk(log) && HeldOk(t, held, log) && PairsOk(t, held, log)
  }

  ghost predicate Inv(s: State) {
    LedgerOk(s.rules, HeldIds(s.passes), s.log) && ReadsOk(s.rules, s.passes, s.routes) && HoldersOk(s.rules, s.passes)
  }

  // ---- reads survive ---------------------------------------------------------------------------

  lemma ReadsSurvive(t: Table, t': Table, passes: map<nat, Pass>, routes: map<nat, Route>)
    requires ReadsOk(t, passes, routes) && TableStep(t, t')
    ensures ReadsOk(t', passes, routes)
  {
  }

  // ---- what one update does to rows, history and pairs ---------------------------------------------

  lemma EventAdded(log: seq<Event>, e: Event)
    ensures forall id :: HasFired(log + [e], id) <==> HasFired(log, id) || (e.Fired? && e.id == id)
    ensures forall id, scope :: HasDone(log + [e], id, scope) <==> HasDone(log, id, scope) || IsDone(e, id, scope)
    ensures forall a, b :: Raced(log + [e], a, b) <==> Raced(log, a, b) || (e.Fired? && e.siblingHeld && (e.id == a || e.id == b))
  {
    var log' := log + [e];
    assert log'[|log|] == e;
    assert forall k :: 0 <= k < |log| ==> log'[k] == log[k];
    forall id | HasFired(log, id) ensures HasFired(log', id) {
      var k :| 0 <= k < |log| && log[k].Fired? && log[k].id == id;
      assert log'[k].Fired? && log'[k].id == id;
    }
    forall id, scope | HasDone(log, id, scope) ensures HasDone(log', id, scope) {
      var k :| 0 <= k < |log| && IsDone(log[k], id, scope);
      assert IsDone(log'[k], id, scope);
    }
    forall a, b | Raced(log, a, b) ensures Raced(log', a, b) {
      var k :| 0 <= k < |log| && log[k].Fired? && log[k].siblingHeld && (log[k].id == a || log[k].id == b);
      assert log'[k].Fired? && log'[k].siblingHeld;
    }
  }

  lemma LeftAdded(log: seq<Event>, e: Event, id: Id, scope: Scope)
    ensures HasLeft(log + [e], id, scope) <==> HasLeft(log, id, scope) || (IsDone(e, id, scope) && e.siblingArmed)
  {
    var log' := log + [e];
    assert log'[|log|] == e;
    if HasLeft(log, id, scope) {
      var k :| 0 <= k < |log| && IsDone(log[k], id, scope) && log[k].siblingArmed;
      assert IsDone(log'[k], id, scope) && log'[k].siblingArmed;
    }
  }

  lemma PairEventAdded(log: seq<Event>, e: Event, a: Id, b: Id)
    ensures forall scope :: HasLeft(log + [e], a, scope) <==> HasLeft(log, a, scope) || (IsDone(e, a, scope) && e.siblingArmed)
    ensures forall scope :: HasLeft(log + [e], b, scope) <==> HasLeft(log, b, scope) || (IsDone(e, b, scope) && e.siblingArmed)
  {
    forall scope
      ensures HasLeft(log + [e], a, scope) <==> HasLeft(log, a, scope) || (IsDone(e, a, scope) && e.siblingArmed)
      ensures HasLeft(log + [e], b, scope) <==> HasLeft(log, b, scope) || (IsDone(e, b, scope) && e.siblingArmed)
    {
      LeftAdded(log, e, a, scope);
      LeftAdded(log, e, b, scope);
    }
  }

  /** A rule let go of. */
  lemma HeldShrinks(t: Table, held: set<Id>, log: seq<Event>, id: Id)
    requires LedgerOk(t, held, log)
    ensures LedgerOk(t, held - {id}, log)
  {
    forall a, b | Siblings(t, a, b) ensures PairOk(t, held - {id}, log, a, b) { assert PairOk(t, held, log, a, b); }
  }

  /** A price change, a cancel or a failure of one row. */
  lemma RowRetires(t: Table, held: set<Id>, log: seq<Event>, id: Id, row: Rule)
    requires LedgerOk(t, held, log) && id in t && RowMoves(t[id], row) && row.state in {ARMED, FAILED, CANCELLED}
    ensures LedgerOk(t[id := row], held - {id}, log) && TableStep(t, t[id := row])
  {
    var t' := t[id := row];
    forall a, b | Siblings(t', a, b) ensures PairOk(t', held - {id}, log, a, b) {
      assert Siblings(t, a, b) && PairOk(t, held, log, a, b);
    }
  }

  lemma FiredRows(t: Table, id: Id)
    requires RowsOk(t) && id in t && t[id].state == ARMED
    ensures RowsOk(t[id := Moved(t[id], FIRING)]) && TableStep(t, t[id := Moved(t[id], FIRING)])
  {
    var t' := t[id := Moved(t[id], FIRING)];
    forall x | x in t' && t'[x].sibling.Some? && t'[x].sibling.value in t' ensures Siblings(t', x, t'[x].sibling.value) {
      assert Siblings(t, x, t[x].sibling.value);
    }
  }

  lemma FiredHistory(t: Table, held: set<Id>, log: seq<Event>, id: Id, e: Event)
    requires HistoryOk(t, log) && HeldOk(t, held, log) && FiringsOk(log) && id in t && t[id].state == ARMED
    requires e.Fired? && e.id == id && Matches(e.op, e.value, e.ltp)
    ensures var t' := t[id := Moved(t[id], FIRING)];
            HistoryOk(t', log + [e]) && HeldOk(t', held + {id}, log + [e]) && FiringsOk(log + [e])
  {
    EventAdded(log, e);
    assert !HasFired(log, id) && !HasLanded(log, id);
  }

  lemma RowFires(t: Table, held: set<Id>, log: seq<Event>, id: Id, ltp: real, siblingHeld: bool)
    requires LedgerOk(t, held, log) && id in t && t[id].state == ARMED && Matches(t[id].op, t[id].value, ltp)
    requires siblingHeld <==> t[id].sibling.Some? && t[id].sibling.value in held
    ensures var t' := t[id := Moved(t[id], FIRING)];
            var e := Fired(id, t[id].op, t[id].value, ltp, siblingHeld);
            LedgerOk(t', held + {id}, log + [e]) && TableStep(t, t')
  {
    var t' := t[id := Moved(t[id], FIRING)];
    var e := Fired(id, t[id].op, t[id].value, ltp, siblingHeld);
    FiredRows(t, id);
    FiredHistory(t, held, log, id, e);
    forall a, b | Siblings(t', a, b) ensures PairOk(t', held + {id}, log + [e], a, b) {
      assert Siblings(t, a, b) && Siblings(t, b, a);
      FiredPair(t, held, log, id, e, a, b);
    }
  }

  lemma FiredPair(t: Table, held: set<Id>, log: seq<Event>, id: Id, e: Event, a: Id, b: Id)
    requires HistoryOk(t, log) && id in t && t[id].state == ARMED && e.Fired? && e.id == id
    requires e.siblingHeld <==> t[id].sibling.Some? && t[id].sibling.value in held
    requires Siblings(t, a, b) && PairOk(t, held, log, a, b) && PairOk(t, held, log, b, a)
    ensures PairOk(t[id := Moved(t[id], FIRING)], held + {id}, log + [e], a, b)
  {
    EventAdded(log, e);
    PairEventAdded(log, e, a, b);
  }

  /** An order that goes out changes nothing that is tracked. */
  lemma EventIgnored(t: Table, held: set<Id>, log: seq<Event>, e: Event)
    requires LedgerOk(t, held, log) && e.OrderSent?
    ensures LedgerOk(t, held, log + [e])
  {
    EventAdded(log, e);
    FiringsKept(log, e);
    forall a, b | Siblings(t, a, b) ensures PairOk(t, held, log + [e], a, b) {
      assert PairOk(t, held, log, a, b);
      PairEventAdded(log, e, a, b);
    }
  }

  lemma FiringsKept(log: seq<Event>, e: Event)
    requires FiringsOk(log) && !e.Fired?
    ensures FiringsOk(log + [e])
  {
  }

  // ---- an exit lands ---------------------------------------------------------------------------------

  /** The ledger after a held rule's exit landed: its own row PLACED, FAILED or still FIRING, its sibling
      as it was or cancelled. */
  ghost predicate Settles(t: Table, t': Table, id: Id) {
    && t'.Keys == t.Keys && id in t
    && (t'[id] == t[id] || t'[id] == Moved(t[id], PLACED) || t'[id] == Moved(t[id], FAILED))
    && (forall x :: x in t && x != id ==>
          t'[x] == t[x] || (t[id].sibling == Some(x) && t[x].state == ARMED && t'[x] == Moved(t[x], CANCELLED)))
  }

  ghost predicate RightEvent(t': Table, id: Id, e: Event) {
    && id in t' && (e.LegPlaced? || e.LandedUnplaced?) && e.id == id
    && (e.LegPlaced? <==> t'[id].state == PLACED)
    && e.siblingArmed == SiblingArmed(t', t'[id])
  }

  lemma SettledRows(t: Table, t': Table, id: Id)
    requires RowsOk(t) && Settles(t, t', id) && t[id].state == FIRING
    ensures RowsOk(t') && TableStep(t, t')
  {
    forall x | x in t ensures SameIdentity(t[x], t'[x]) && (t'[x] == t[x] || RowMoves(t[x], t'[x])) && t'[x].state != EVALUATING {
      SettledRow(t, t', id, x);
    }
    forall x | x in t' && t'[x].sibling.Some? && t'[x].sibling.value in t' ensures Siblings(t', x, t'[x].sibling.value) {
      assert Siblings(t, x, t[x].sibling.value);
    }
  }

  lemma SettledRow(t: Table, t': Table, id: Id, x: Id)
    requires Settles(t, t', id) && t[id].state == FIRING && x in t && t[x].state != EVALUATING
    ensures SameIdentity(t[x], t'[x]) && (t'[x] == t[x] || RowMoves(t[x], t'[x])) && t'[x].state != EVALUATING
  {
  }

  lemma SettledHistory(t: Table, t': Table, log: seq<Event>, id: Id, e: Event)
    requires HistoryOk(t, log) && Settles(t, t', id) && t[id].state == FIRING && RightEvent(t', id, e)
    ensures HistoryOk(t', log + [e])
  {
    EventAdded(log, e);
  }

  lemma SettledPair(t: Table, t': Table, held: set<Id>, log: seq<Event>, id: Id, e: Event, a: Id, b: Id, scope: Scope)
    requires RowsOk(t) && HistoryOk(t, log) && HeldOk(t, held, log) && Settles(t, t', id) && id in held && RightEvent(t', id, e)
    requires Siblings(t, a, b) && Apart(t, held, log, a, b, scope) && Apart(t, held, log, b, a, scope)
    ensures Apart(t', held - {id}, log + [e], a, b, scope)
  {
    EventAdded(log, e);
    LeftAdded(log, e, a, scope);
    LeftAdded(log, e, b, scope);
    if HasDone(log, id, scope) { DoneMeansLanded(log, id, scope); }
  }

  lemma DoneMeansLanded(log: seq<Event>, id: Id, scope: Scope)
    requires HasDone(log, id, scope)
    ensures HasLanded(log, id)
  {
    var k :| 0 <= k < |log| && IsDone(log[k], id, scope);
    assert IsDone(log[k], id, LANDED_EXITS);
  }

  lemma ExitSettles(t: Table, t': Table, held: set<Id>, log: seq<Event>, id: Id, e: Event)
    requires LedgerOk(t, held, log) && id in held && Settles(t, t', id) && RightEvent(t', id, e)
    ensures LedgerOk(t', held - {id}, log + [e]) && TableStep(t, t')
  {
    SettledRows(t, t', id);
    SettledHistory(t, t', log, id, e);
    FiringsKept(log, e);
    EventAdded(log, e);
    forall a, b | Siblings(t', a, b) ensures PairOk(t', held - {id}, log + [e], a, b) {
      assert Siblings(t, a, b) && Siblings(t, b, a);
      assert PairOk(t, held, log, a, b) && PairOk(t, held, log, b, a);
      SettledPair(t, t', held, log, id, e, a, b, PLACED_LEGS);
      SettledPair(t, t', held, log, id, e, a, b, LANDED_EXITS);
    }
  }

  lemma BracketAdded(t: Table, held: set<Id>, log: seq<Event>, rows: Table)
    requires LedgerOk(t, held, log) && RowsOk(rows) && t.Keys !! rows.Keys
    requires forall id :: id in rows ==> rows[id].state == ARMED && (rows[id].sibling.Some? ==> rows[id].sibling.value !in t)
    requires forall id :: id in t && t[id].sibling.Some? ==> t[id].sibling.value !in rows
    ensures LedgerOk(t + rows, held, log) && TableStep(t, t + rows)
  {
    var t' := t + rows;
    forall x | x in t' && t'[x].sibling.Some? && t'[x].sibling.value in t' ensures Siblings(t', x, t'[x].sibling.value) {
      assert Siblings(if x in t then t else rows, x, t'[x].sibling.value);
    }
    forall a, b | Siblings(t', a, b) ensures PairOk(t', held, log, a, b) {
      if a in t {
        assert Siblings(t, a, b) && PairOk(t, held, log, a, b);
      } else {
        assert Siblings(rows, a, b);
        forall scope | HasDone(log, a, scope) ensures false { DoneMeansLanded(log, a, scope); }
      }
    }
  }

  // ---- every step keeps the invariant ----------------------------------------------------------

  function ArmedRows(e: Step): Table
    requires e.Arm? || e.ArmRaised?
  {
    var all := BracketRows(e.lot, e.instrument, e.side, e.target, e.stop, e.targetId, e.stopId);
    if e.ArmRaised? then all - {e.stopId} else all
  }

  lemma ArmedRowsOk(e: Step)
    requires (e.Arm? || e.ArmRaised?) && e.targetId != e.stopId
    ensures RowsOk(ArmedRows(e)) && ArmedRows(e).Keys <= {e.targetId, e.stopId}
    ensures forall id :: id in ArmedRows(e) ==> ArmedRows(e)[id].state == ARMED && ArmedRows(e)[id].sibling in {None, Some(e.targetId), Some(e.stopId)}
  {
  }

  lemma ArmKeepsInv(s: State, e: Step)
    requires Inv(s) && (e.Arm? || e.ArmRaised?)
    ensures Inv(ArmStep(s, e)) && TableStep(s.rules, ArmStep(s, e).rules)
  {
    if FreshIds(s, e.targetId, e.stopId) {
      var rows := ArmedRows(e);
      ArmedRowsOk(e);
      BracketAdded(s.rules, HeldIds(s.passes), s.log, rows);
      LedgerMoves(s, s.rules + rows);
    }
  }

  /** A ledger change that leaves FIRING rows alone suits every handler under way. */
  lemma LedgerMoves(s: State, t: Table)
    requires Inv(s) && LedgerOk(t, HeldIds(s.passes), s.log) && TableStep(s.rules, t)
    requires forall id :: id in s.rules && s.rules[id].state == FIRING ==> t[id] == s.rules[id]
    ensures Inv(s.(rules := t))
  {
    ReadsSurvive(s.rules, t, s.passes, s.routes);
    assert forall q :: q in s.passes ==> HoldsItsRule(s.rules, s.passes[q]);
  }

  // ---- what a pass does ------------------------------------------------------------------------------

  /** Every change of a pass that holds nothing before or after. */
  lemma IdlePassKeepsInv(s: State, p: nat, pending: seq<Rule>)
    requires Inv(s) && p in s.passes && s.passes[p].phase.Scanning? && s.passes[p].pending != []
    requires pending == [] || pending == s.passes[p].pending[1..]
    ensures Inv(s.(passes := s.passes[p := s.passes[p].(pending := pending)]))
  {
    var s' := s.(passes := s.passes[p := s.passes[p].(pending := pending)]);
    assert HeldIds(s'.passes) == HeldIds(s.passes) by { HeldAfterTry(s.passes, p, s'.passes[p]); }
    assert PassReads(s.rules, s.passes[p]);
  }

  ghost predicate HeldByOther(passes: map<nat, Pass>, p: nat, id: Id) { exists q :: q in passes && q != p && Holds(passes[q], id) }

  lemma HeldBySome(passes: map<nat, Pass>, p: nat, id: Id)
    requires p in passes
    ensures id in HeldIds(passes) <==> HeldByOther(passes, p, id) || Holds(passes[p], id)
  {
    if id in HeldIds(passes) {
      var q :| q in passes && !passes[q].phase.Scanning? && passes[q].phase.rule.id == id;
      assert q == p || Holds(passes[q], id);
    }
  }

  /** What is held after one pass changed: what the others hold, and what it holds. */
  lemma HeldAfter(passes: map<nat, Pass>, p: nat, pass: Pass, id: Id)
    requires p in passes
    ensures id in HeldIds(passes[p := pass]) <==> HeldByOther(passes, p, id) || Holds(pass, id)
    ensures id in HeldIds(passes) <==> HeldByOther(passes, p, id) || Holds(passes[p], id)
  {
    var passes' := passes[p := pass];
    HeldBySome(passes, p, id);
    HeldBySome(passes', p, id);
    if HeldByOther(passes, p, id) {
      var q :| q in passes && q != p && Holds(passes[q], id);
      assert q in passes' && Holds(passes'[q], id);
    }
    if HeldByOther(passes', p, id) {
      var q :| q in passes' && q != p && Holds(passes'[q], id);
      assert Holds(passes[q], id);
    }
  }

  /** A pass that held nothing. */
  lemma HeldAfterTry(passes: map<nat, Pass>, p: nat, pass: Pass)
    requires p in passes && passes[p].phase.Scanning?
    ensures HeldIds(passes[p := pass]) == HeldIds(passes) + if pass.phase.Scanning? then {} else {pass.phase.rule.id}
  {
    var after, sum := HeldIds(passes[p := pass]), HeldIds(passes) + if pass.phase.Scanning? then {} else {pass.phase.rule.id};
    forall id ensures id in after <==> id in sum {
      HeldAfter(passes, p, pass, id);
    }
  }

  /** A pass that held a rule: nobody else had it. */
  lemma HeldAfterLetGo(t: Table, passes: map<nat, Pass>, p: nat, pass: Pass)
    requires HoldersOk(t, passes) && p in passes && !passes[p].phase.Scanning?
    requires pass.phase.Scanning? || pass.phase.rule.id == passes[p].phase.rule.id
    ensures HeldIds(passes[p := pass]) == HeldIds(passes) - if pass.phase.Scanning? then {passes[p].phase.rule.id} else {}
    ensures passes[p].phase.rule.id in HeldIds(passes)
  {
    var own := passes[p].phase.rule.id;
    HeldAfter(passes, p, pass, own);
    assert !HeldByOther(passes, p, own);
    var after, rest := HeldIds(passes[p := pass]), HeldIds(passes) - if pass.phase.Scanning? then {own} else {};
    forall id ensures id in after <==> id in rest {
      HeldAfter(passes, p, pass, id);
    }
  }

  predicate Holds(pass: Pass, id: Id) { !pass.phase.Scanning? && pass.phase.rule.id == id }

  /** What pass `p` may do to the ledger and to itself: at most its own row changes among the FIRING
      ones, and it ends up holding its row, a row nobody else holds. */
  ghost predicate PassMove(s: State, s': State, p: nat) {
    && p in s.passes && p in s'.passes && s'.passes == s.passes[p := s'.passes[p]] && s'.routes == s.routes
    && TableStep(s.rules, s'.rules)
    && (s'.passes[p].pending == s.passes[p].pending || s'.passes[p].pending == []
        || (s.passes[p].pending != [] && s'.passes[p].pending == s.passes[p].pending[1..]))
    && HoldsItsRule(s'.rules, s'.passes[p])
    && (forall id :: id in s.rules && s.rules[id].state == FIRING ==>
          id in s'.rules && (s'.rules[id] == s.rules[id] || Holds(s.passes[p], id)))
    && (!s'.passes[p].phase.Scanning? ==>
          || Holds(s.passes[p], s'.passes[p].phase.rule.id)
          || s'.passes[p].phase.rule.id !in s.rules
          || s.rules[s'.passes[p].phase.rule.id].state != FIRING)
  }

  lemma HoldersAfter(s: State, s': State, p: nat)
    requires HoldersOk(s.rules, s.passes) && PassMove(s, s', p)
    ensures HoldersOk(s'.rules, s'.passes)
  {
    forall q | q in s'.passes ensures HoldsItsRule(s'.rules, s'.passes[q]) {
      assert q in s.passes && HoldsItsRule(s.rules, s.passes[q]);
    }
    forall q | q in s'.passes && q != p && !s'.passes[p].phase.Scanning? && !s'.passes[q].phase.Scanning?
      ensures s'.passes[q].phase.rule.id != s'.passes[p].phase.rule.id
    {
      assert HoldsItsRule(s.rules, s.passes[q]);
    }
  }

  lemma PassMoves(s: State, s': State, p: nat)
    requires Inv(s) && LedgerOk(s'.rules, HeldIds(s'.passes), s'.log) && PassMove(s, s', p)
    ensures Inv(s')
  {
    ReadsSurvive(s.rules, s'.rules, s.passes, s.routes);
    assert PassReads(s'.rules, s.passes[p]);
    assert PassReads(s'.rules, s'.passes[p]);
    HoldersAfter(s, s', p);
  }

  // ---- trying a rule ---------------------------------------------------------------------------------

  ghost predicate CanWin(s: State, p: nat) {
    && p in s.passes && s.passes[p].phase.Scanning? && s.passes[p].pending != []
    && (var row := s.passes[p].pending[0];
        row.id in s.rules && s.rules[row.id] == row && row.state == ARMED && Matches(row.op, row.value, s.passes[p].ltp))
  }

  lemma WinIsPassMove(s: State, p: nat)
    requires RowsOk(s.rules) && CanWin(s, p)
    ensures PassMove(s, TryNext(s, p), p) && PassMove(s, TryCut(s, p, true), p)
  {
  }

  /** The ledger and the log after a win, whoever has the rule then. */
  ghost predicate IsWin(s: State, s': State, id: Id, p: nat) {
    && id in s.rules && p in s.passes && s'.rules == s.rules[id := Moved(s.rules[id], FIRING)]
    && s'.log == s.log + [Fired(id, s.rules[id].op, s.rules[id].value, s.passes[p].ltp, SiblingHeld(s.passes, s.rules[id]))]
    && p in s'.passes && s'.passes == s.passes[p := s'.passes[p]]
    && (s'.passes[p].phase.Scanning? || Holds(s'.passes[p], id))
  }

  lemma WinsAre(s: State, p: nat)
    requires CanWin(s, p)
    ensures IsWin(s, TryNext(s, p), s.passes[p].pending[0].id, p)
    ensures IsWin(s, TryCut(s, p, true), s.passes[p].pending[0].id, p)
  {
  }

  lemma WinSuitsLedger(s: State, s': State, id: Id, p: nat)
    requires LedgerOk(s.rules, HeldIds(s.passes), s.log) && p in s.passes && s.passes[p].phase.Scanning? && IsWin(s, s', id, p)
    requires s.rules[id].state == ARMED && Matches(s.rules[id].op, s.rules[id].value, s.passes[p].ltp)
    ensures LedgerOk(s'.rules, HeldIds(s'.passes), s'.log)
  {
    var held := HeldIds(s.passes);
    RowFires(s.rules, held, s.log, id, s.passes[p].ltp, SiblingHeld(s.passes, s.rules[id]));
    HeldAfterTry(s.passes, p, s'.passes[p]);
    if s'.passes[p].phase.Scanning? {
      HeldShrinks(s'.rules, held + {id}, s'.log, id);
      assert id !in held && held + {id} - {id} == held;
    }
  }

  lemma TryRuleKeepsInv(s: State, p: nat, written: bool)
    requires Inv(s) && p in s.passes && s.passes[p].phase.Scanning? && s.passes[p].pending != []
    ensures Inv(TryNext(s, p)) && TableStep(s.rules, TryNext(s, p).rules)
    ensures Inv(TryCut(s, p, written)) && TableStep(s.rules, TryCut(s, p, written).rules)
  {
    var row := s.passes[p].pending[0];
    assert PassReads(s.rules, s.passes[p]) && ReadEarlier(s.rules, row);
    IdlePassKeepsInv(s, p, []);
    IdlePassKeepsInv(s, p, s.passes[p].pending[1..]);
    if Matches(row.op, row.value, s.passes[p].ltp) && s.rules[row.id].version == row.version {
      WinIsPassMove(s, p);
      WinsAre(s, p);
      WinSuitsLedger(s, TryNext(s, p), row.id, p);
      WinSuitsLedger(s, TryCut(s, p, true), row.id, p);
      PassMoves(s, TryNext(s, p), p);
      PassMoves(s, TryCut(s, p, true), p);
    }
  }

  // ---- working on a rule -------------------------------------------------------------------------------

  /** The update of the row a pass holds always finds the version it expects. */
  lemma HolderNeverLoses(s: State, p: nat, state: RuleState)
    requires Inv(s) && p in s.passes && !s.passes[p].phase.Scanning?
    ensures CasState(s.rules, s.passes[p].phase.rule.id, s.passes[p].phase.rule.version, state).1.Some?
  {
  }

  /** A held rule ends as the ledger and the log say, or is just let go of. */
  ghost predicate EndsWell(s: State, s': State, p: nat)
    requires p in s.passes && !s.passes[p].phase.Scanning?
  {
    var id := s.passes[p].phase.rule.id;
    && s'.passes == s.passes[p := s.passes[p].(phase := Scanning)] && s'.routes == s.routes && id in s.rules
    && (|| (s'.rules == s.rules && s'.log == s.log)
        || (s'.rules == s.rules[id := Moved(s.rules[id], FAILED)] && s'.log == s.log)
        || (Settles(s.rules, s'.rules, id) && s'.log != [] && s'.log == s.log + [s'.log[|s'.log| - 1]]
            && RightEvent(s'.rules, id, s'.log[|s'.log| - 1])))
  }

  lemma EndingKeepsInv(s: State, s': State, p: nat)
    requires Inv(s) && p in s.passes && !s.passes[p].phase.Scanning? && EndsWell(s, s', p)
    ensures Inv(s') && TableStep(s.rules, s'.rules)
  {
    var id, held := s.passes[p].phase.rule.id, HeldIds(s.passes);
    assert HoldsItsRule(s.rules, s.passes[p]);
    HeldAfterLetGo(s.rules, s.passes, p, s'.passes[p]);
    if s'.rules == s.rules && s'.log == s.log {
      HeldShrinks(s.rules, held, s.log, id);
    } else if s'.log == s.log {
      RowRetires(s.rules, held, s.log, id, Moved(s.rules[id], FAILED));
    } else {
      ExitSettles(s.rules, s'.rules, held, s.log, id, s'.log[|s'.log| - 1]);
    }
    PassMoves(s, s', p);
  }

  lemma SiblingIsOther(t: Table, id: Id)
    requires RowsOk(t) && id in t
    ensures t[id].sibling != Some(id)
  {
    assert t[id].sibling.Some? && t[id].sibling.value in t ==> Siblings(t, id, t[id].sibling.value);
  }

  lemma AcceptedEndsWell(s: State, p: nat)
    requires RowsOk(s.rules) && p in s.passes && s.passes[p].phase.Placing? && HoldsItsRule(s.rules, s.passes[p])
    ensures EndsWell(s, Accepted(s, p), p)
  {
    SiblingIsOther(s.rules, s.passes[p].phase.rule.id);
  }

  lemma AcceptedCutEndsWell(s: State, p: nat, marked: bool)
    requires RowsOk(s.rules) && p in s.passes && s.passes[p].phase.Placing? && HoldsItsRule(s.rules, s.passes[p])
    ensures EndsWell(s, AcceptedCut(s, p, marked), p)
  {
    SiblingIsOther(s.rules, s.passes[p].phase.rule.id);
  }

  lemma FailedEndsWell(s: State, p: nat, landed: bool, marked: bool)
    requires RowsOk(s.rules) && p in s.passes && s.passes[p].phase.Placing? && HoldsItsRule(s.rules, s.passes[p])
    ensures EndsWell(s, Failed(s, p, landed, marked), p)
  {
    SiblingIsOther(s.rules, s.passes[p].phase.rule.id);
  }

  lemma SendingKeepsInv(s: State, p: nat, e: Event)
    requires Inv(s) && p in s.passes && s.passes[p].phase.Won? && e.OrderSent?
    ensures Inv(s.(passes := s.passes[p := s.passes[p].(phase := Placing(s.passes[p].phase.rule))], log := s.log + [e]))
  {
    var s' := s.(passes := s.passes[p := s.passes[p].(phase := Placing(s.passes[p].phase.rule))], log := s.log + [e]);
    assert HoldsItsRule(s.rules, s.passes[p]);
    EventIgnored(s.rules, HeldIds(s.passes), s.log, e);
    HeldAfterLetGo(s.rules, s.passes, p, s'.passes[p]);
    PassMoves(s, s', p);
  }

  lemma CheckLotKeepsInv(s: State, p: nat)
    requires Inv(s) && p in s.passes && s.passes[p].phase.Won?
    ensures Inv(CheckLotOf(s, p)) && TableStep(s.rules, CheckLotOf(s, p).rules)
    ensures Inv(LetGo(s, p)) && TableStep(s.rules, LetGo(s, p).rules)
  {
    var s' := CheckLotOf(s, p);
    assert HoldsItsRule(s.rules, s.passes[p]);
    EndingKeepsInv(s, LetGo(s, p), p);
    if s'.passes[p].phase.Placing? {
      SendingKeepsInv(s, p, s'.log[|s.log|]);
    } else {
      EndingKeepsInv(s, s', p);
    }
  }

  predicate IsAnswer(e: Step) { e.PlacementAccepted? || e.AcceptedRaised? || e.PlacementFailed? || e.FailedRaised? }

  lemma AnswerEndsWell(s: State, e: Step)
    requires RowsOk(s.rules) && IsAnswer(e) && e.pass in s.passes && s.passes[e.pass].phase.Placing? && HoldsItsRule(s.rules, s.passes[e.pass])
    ensures EndsWell(s, PassStep(s, e), e.pass)
  {
    match e
    case PlacementAccepted(p) => AcceptedEndsWell(s, p);
    case AcceptedRaised(p, marked) => AcceptedCutEndsWell(s, p, marked);
    case PlacementFailed(p, landed) => FailedEndsWell(s, p, landed, true);
    case FailedRaised(p, landed) => FailedEndsWell(s, p, landed, false);
  }

  lemma PassStepKeepsInv(s: State, e: Step)
    requires Inv(s) && IsPassStep(e)
    ensures Inv(PassStep(s, e)) && TableStep(s.rules, PassStep(s, e).rules)
  {
    if e.pass in s.passes {
      var pass := s.passes[e.pass];
      if pass.phase.Scanning? {
        if pass.pending != [] { TryRuleKeepsInv(s, e.pass, e.TryRuleRaised? && e.written); }
      } else if pass.phase.Won? {
        CheckLotKeepsInv(s, e.pass);
      } else if IsAnswer(e) {
        AnswerEndsWell(s, e);
        EndingKeepsInv(s, PassStep(s, e), e.pass);
      }
    }
  }

  /** A route's write retires the row or moves its price, or does nothing. */
  lemma RouteWrites(s: State, id: Id, row: Rule, r: nat)
    requires Inv(s) && id in s.rules && RowMoves(s.rules[id], row) && row.state in {ARMED, CANCELLED}
    ensures var t := s.rules[id := row]; Inv(s.(rules := t, routes := s.routes - {r})) && TableStep(s.rules, t)
  {
    RowRetires(s.rules, HeldIds(s.passes), s.log, id, row);
    assert HeldIds(s.passes) - {id} == HeldIds(s.passes);
    LedgerMoves(s, s.rules[id := row]);
    RouteEnds(s.(rules := s.rules[id := row]), r);
  }

  lemma RouteEnds(s: State, r: nat)
    requires Inv(s)
    ensures Inv(s.(routes := s.routes - {r}))
  {
  }

  lemma RouteWriteKeepsInv(s: State, e: Step)
    requires Inv(s) && (e.Reprice? || e.CancelArmed? || e.BrokerCancelReturned?)
    ensures Inv(RouteStep(s, e)) && TableStep(s.rules, RouteStep(s, e).rules)
  {
    var s' := RouteStep(s, e);
    if s' != s {
      assert RouteReads(s.rules, s.routes[e.route]);
      var id := if e.BrokerCancelReturned? then s.routes[e.route].id else s.routes[e.route].row.id;
      if s'.rules == s.rules {
        RouteEnds(s, e.route);
      } else {
        RouteWrites(s, id, s'.rules[id], e.route);
      }
    }
  }

  lemma PassBegins(s: State, p: nat, pass: Pass)
    requires Inv(s) && p !in s.passes && PassReads(s.rules, pass) && pass.phase.Scanning?
    ensures Inv(s.(passes := s.passes[p := pass]))
  {
    assert HeldIds(s.passes[p := pass]) == HeldIds(s.passes) by { HeldAfterBegin(s.passes, p, pass); }
  }

  lemma HeldAfterBegin(passes: map<nat, Pass>, p: nat, pass: Pass)
    requires p !in passes && pass.phase.Scanning?
    ensures HeldIds(passes[p := pass]) == HeldIds(passes)
  {
    var passes' := passes[p := pass];
    forall q | q in passes ensures q in passes' && passes'[q] == passes[q] {}
  }

  lemma RouteBegins(s: State, r: nat, route: Route)
    requires Inv(s) && RouteReads(s.rules, route)
    ensures Inv(s.(routes := s.routes[r := route]))
  {
  }

  lemma RouteReadKeepsInv(s: State, e: Step)
    requires Inv(s) && (e.ReadToReprice? || e.ReadToCancel?)
    ensures Inv(RouteStep(s, e)) && RouteStep(s, e).rules == s.rules
  {
    if e.id in s.rules && s.rules[e.id].state == ARMED {
      RouteBegins(s, e.route, if e.ReadToReprice? then Repricing(s.rules[e.id], e.value) else Cancelling(s.rules[e.id]));
    } else {
      RouteBegins(s, e.route, CancellingAtBroker(e.id));
    }
  }

  lemma StepKeepsInv(s: State, e: Step)
    requires Inv(s)
    ensures Inv(Next(s, e)) && TableStep(s.rules, Next(s, e).rules)
  {
    if e.Arm? || e.ArmRaised? {
      ArmKeepsInv(s, e);
    } else if e.BeginPass? {
      if e.pass !in s.passes && IsSnapshot(s.rules, e.instrument, e.rows) {
        PassBegins(s, e.pass, Pass(e.ltp, e.rows, Scanning));
      }
    } else if e.ReadToReprice? || e.ReadToCancel? {
      RouteReadKeepsInv(s, e);
    } else if e.Reprice? || e.CancelArmed? || e.BrokerCancelReturned? {
      RouteWriteKeepsInv(s, e);
    } else if !e.SetLot? {
      PassStepKeepsInv(s, e);
    }
  }

  lemma {:induction false} RunKeepsInv(s: State, steps: seq<Step>)
    requires Inv(s)
    ensures Inv(Run(s, steps))
    decreases |steps|
  {
    if steps != [] {
      StepKeepsInv(s, steps[0]);
      RunKeepsInv(Next(s, steps[0]), steps[1..]);
    }
  }
}
