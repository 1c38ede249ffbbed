/** The firing protocol as a state machine. Every handler (evaluator passes, bracket modify and
    tighten routes, the cancel route, the armer) is cut into steps at least as fine as the pieces
    of code between two of its `await`s, so a sequence of steps is an arbitrary interleaving. The store
    commits call by call, so a piece can also be cut off by a call that raises: what it had written
    stays, and the rule it was working on is let go of. */
module TriggerMachine {
  import opened Trading
  import opened TriggerRules

  /** What the evaluator reads of a lot row. */
  datatype LotView = LotView(side: Side, remaining: int)

  /** Where one evaluator pass stands with the rule it is working on: it has just won the FIRING
      update, or it awaits the broker's answer to an exit order. */
  datatype Phase = Scanning | Won(rule: Rule) | Placing(rule: Rule)

  datatype Pass = Pass(ltp: real, pending: seq<Rule>, phase: Phase)

  /** A route handler between its read of a row and its write, or awaiting a broker cancel. */
  datatype Route = Repricing(row: Rule, value: real) | Cancelling(row: Rule) | CancellingAtBroker(id: Id)

  /** What happened, oldest first. `Fired` records the row as it stood in the ledger when the
      FIRING update won and whether the rule's sibling was in some pass's hands at that instant. An
      exit that landed is `LegPlaced`, or `LandedUnplaced` when its rule was not marked PLACED; either
      records whether the sibling was still ARMED when its handler was done with it. */
  datatype Event =
    | Fired(id: Id, op: ConditionOp, value: Option<real>, ltp: real, siblingHeld: bool)
    | OrderSent(id: Id, side: Side, quantity: int)
    | LegPlaced(id: Id, siblingArmed: bool)
    | LandedUnplaced(id: Id, siblingArmed: bool)
    | PlacedUpdateLost(id: Id)

  datatype State = State(
    rules: Table,
    lots: map<Id, LotView>,
    passes: map<nat, Pass>,
    routes: map<nat, Route>,
    log: seq<Event>
  )

  datatype Step =
    | Arm(lot: Id, instrument: Key, side: Side, target: Option<real>, stop: Option<real>, targetId: Id, stopId: Id)
    | ArmRaised(lot: Id, instrument: Key, side: Side, target: Option<real>, stop: Option<real>, targetId: Id, stopId: Id)
    | SetLot(lot: Id, view: LotView)
    | BeginPass(pass: nat, instrument: Key, ltp: real, rows: seq<Rule>)
    | TryRule(pass: nat)
    | TryRuleRaised(pass: nat, written: bool)
    | CheckLot(pass: nat)
    | CheckLotRaised(pass: nat)
    | PlacementAccepted(pass: nat)
    | AcceptedRaised(pass: nat, marked: bool)
    | PlacementFailed(pass: nat, landed: bool)
    | FailedRaised(pass: nat, landed: bool)
    | ReadToReprice(route: nat, id: Id, value: real)
    | Reprice(route: nat)
    | ReadToCancel(route: nat, id: Id)
    | CancelArmed(route: nat)
    | BrokerCancelReturned(route: nat, confirmed: bool)

  predicate Running(p: Pass) { p.pending != [] || p.phase != Scanning }

  /** A read of the armed rules of one instrument, in any order. */
  predicate IsSnapshot(rules: Table, instrument: Key, rows: seq<Rule>) {
    && (forall k :: 0 <= k < |rows| ==>
          rows[k].id in rules && rules[rows[k].id] == rows[k] && rows[k].state == ARMED && rows[k].instrument == instrument)
    && (forall j, k :: 0 <= j < k < |rows| ==> rows[j].id != rows[k].id)
    && (forall id :: id in rules && rules[id].state == ARMED && rules[id].instrument == instrument ==> rules[id] in rows)
  }

  /** The rules that passes are working on. */
  function HeldIds(passes: map<nat, Pass>): set<Id> { set p | p in passes && !passes[p].phase.Scanning? :: passes[p].phase.rule.id }

  predicate SiblingHeld(passes: map<nat, Pass>, rule: Rule) { rule.sibling.Some? && rule.sibling.value in HeldIds(passes) }

  predicate SiblingArmed(rules: Table, rule: Rule) {
    rule.sibling.Some? && rule.sibling.value in rules && rules[rule.sibling.value].state == ARMED
  }

  /** The local OCO cancel: a sibling that is still ARMED is cancelled at the version just read. */
  function CancelSibling(rules: Table, rule: Rule): Table {
    if SiblingArmed(rules, rule) then CasState(rules, rule.sibling.value, rules[rule.sibling.value].version, CANCELLED).0 else rules
  }

  /** The ids `uuid4` hands out are new and distinct, and so is a lot's bracket. */
  predicate FreshIds(s: State, targetId: Id, stopId: Id) {
    && targetId !in s.rules && stopId !in s.rules && targetId != stopId
    && forall id :: id in s.rules ==> s.rules[id].sibling !in {Some(targetId), Some(stopId)}
  }

  predicate IsPassStep(e: Step) {
    || e.TryRule? || e.TryRuleRaised? || e.CheckLot? || e.CheckLotRaised?
    || e.PlacementAccepted? || e.AcceptedRaised? || e.PlacementFailed? || e.FailedRaised?
  }

  /** One step of the system; a step that is not possible in `s` leaves `s` as it is. */
  function Next(s: State, e: Step): State {
    if e.SetLot? then s.(lots := s.lots[e.lot := e.view])
    else if e.Arm? || e.ArmRaised? then ArmStep(s, e)
    else if e.BeginPass? then BeginStep(s, e)
    else if IsPassStep(e) then PassStep(s, e)
    else RouteStep(s, e)
  }

  /** The target's row is written before the stop's. */
  function ArmStep(s: State, e: Step): State
    requires e.Arm? || e.ArmRaised?
  {
    var rows := BracketRows(e.lot, e.instrument, e.side, e.target, e.stop, e.targetId, e.stopId);
    if !FreshIds(s, e.targetId, e.stopId) then s
    else s.(rules := s.rules + if e.ArmRaised? then rows - {e.stopId} else rows)
  }

  function BeginStep(s: State, e: Step): State
    requires e.BeginPass?
  {
    if e.pass in s.passes || !IsSnapshot(s.rules, e.instrument, e.rows) then s
    else s.(passes := s.passes[e.pass := Pass(e.ltp, e.rows, Scanning)])
  }

  function PassStep(s: State, e: Step): State
    requires IsPassStep(e)
  {
    var p := e.pass;
    if p !in s.passes then s
    else match e
      case TryRule(_) => if s.passes[p].phase.Scanning? && s.passes[p].pending != [] then TryNext(s, p) else s
      case TryRuleRaised(_, written) => if s.passes[p].phase.Scanning? && s.passes[p].pending != [] then TryCut(s, p, written) else s
      case CheckLot(_) => if s.passes[p].phase.Won? then CheckLotOf(s, p) else s
      case CheckLotRaised(_) => if s.passes[p].phase.Won? then LetGo(s, p) else s
      case PlacementAccepted(_) => if s.passes[p].phase.Placing? then Accepted(s, p) else s
      case AcceptedRaised(_, marked) => if s.passes[p].phase.Placing? then AcceptedCut(s, p, marked) else s
      case PlacementFailed(_, landed) => if s.passes[p].phase.Placing? then Failed(s, p, landed, true) else s
      case FailedRaised(_, landed) => if s.passes[p].phase.Placing? then Failed(s, p, landed, false) else s
  }

  /** The pass has done with its rule, or a call raised under it; the loop goes on with the next one. */
  function LetGo(s: State, p: nat): State
    requires p in s.passes
  {
    s.(passes := s.passes[p := s.passes[p].(phase := Scanning)])
  }

  /** A route handler reads a row, or writes through the row it read. */
  function RouteStep(s: State, e: Step): State
    requires e.ReadToReprice? || e.Reprice? || e.ReadToCancel? || e.CancelArmed? || e.BrokerCancelReturned?
  {
    var r := e.route;
    match e
    case ReadToReprice(_, id, value) =>
      if r !in s.routes && id in s.rules && s.rules[id].state == ARMED
      then s.(routes := s.routes[r := Repricing(s.rules[id], value)]) else s
    case ReadToCancel(_, id) =>
      if r in s.routes || id !in s.rules then s
      else if s.rules[id].state == ARMED then s.(routes := s.routes[r := Cancelling(s.rules[id])])
      else if s.rules[id].state == PLACED then s.(routes := s.routes[r := CancellingAtBroker(id)])
      else s
    case Reprice(_) =>
      if r in s.routes && s.routes[r].Repricing? then
        s.(rules := CasCondition(s.rules, s.routes[r].row.id, s.routes[r].row.version, s.routes[r].value).0, routes := s.routes - {r})
      else s
    case CancelArmed(_) =>
      if r in s.routes && s.routes[r].Cancelling? then
        s.(rules := CasState(s.rules, s.routes[r].row.id, s.routes[r].row.version, CANCELLED).0, routes := s.routes - {r})
      else s
    case BrokerCancelReturned(_, confirmed) =>
      if r in s.routes && s.routes[r].CancellingAtBroker? then
        s.(rules := if confirmed then CancelPlaced(s.rules, s.routes[r].id) else s.rules, routes := s.routes - {r})
      else s
  }

  /** After a confirmed broker cancel the row is read again and cancelled if it is still PLACED. */
  function CancelPlaced(rules: Table, id: Id): Table {
    if id in rules && rules[id].state == PLACED then CasState(rules, id, rules[id].version, CANCELLED).0 else rules
  }

  /** A pass takes its next row: drops it unless it matches the tick and wins the FIRING update. */
  function TryNext(s: State, p: nat): State
    requires p in s.passes && s.passes[p].pending != []
  {
    var pass := s.passes[p];
    var row := pass.pending[0];
    var rest := pass.(pending := pass.pending[1..]);
    if !Matches(row.op, row.value, pass.ltp) then s.(passes := s.passes[p := rest])
    else
      var (rules, fired) := CasState(s.rules, row.id, row.version, FIRING);
      if fired.None? then s.(passes := s.passes[p := rest])
      else
        var inLedger := s.rules[row.id];
        s.(rules := rules,
           passes := s.passes[p := rest.(phase := Won(fired.value))],
           log := s.log + [Fired(row.id, inLedger.op, inLedger.value, pass.ltp, SiblingHeld(s.passes, inLedger))])
  }

  /** The FIRING update raised, before or after it was written. It is outside the loop's `try`, so the
      pass ends here, and a row that did become FIRING is in nobody's hands. */
  function TryCut(s: State, p: nat, written: bool): State
    requires p in s.passes && s.passes[p].pending != []
  {
    var row, s' := s.passes[p].pending[0], TryNext(s, p);
    if !Matches(row.op, row.value, s.passes[p].ltp) then s'
    else if !written then s.(passes := s.passes[p := s.passes[p].(pending := [])])
    else if s'.passes[p].phase.Scanning? then s'
    else s'.(passes := s.passes[p := Pass(s.passes[p].ltp, [], Scanning)])
  }

  /** The winner reads its lot: nothing to exit marks the rule FAILED, otherwise an exit order for
      all that remains goes out, on the side opposite to the entry. */
  function CheckLotOf(s: State, p: nat): State
    requires p in s.passes && s.passes[p].phase.Won?
  {
    var rule := s.passes[p].phase.rule;
    if rule.lotId.None? || rule.lotId.value !in s.lots || s.lots[rule.lotId.value].remaining <= 0 then
      LetGo(s.(rules := CasState(s.rules, rule.id, rule.version, FAILED).0), p)
    else
      var lot := s.lots[rule.lotId.value];
      s.(passes := s.passes[p := s.passes[p].(phase := Placing(rule))],
         log := s.log + [OrderSent(rule.id, Opposite(lot.side), lot.remaining)])
  }

  /** The broker took the order: PLACED, then the sibling is cancelled, with no `await` between. */
  function Accepted(s: State, p: nat): State
    requires p in s.passes && s.passes[p].phase.Placing?
  {
    var rule := s.passes[p].phase.rule;
    var (rules, placed) := CasState(s.rules, rule.id, rule.version, PLACED);
    var rules' := CancelSibling(rules, rule);
    LetGo(s.(rules := rules', log := s.log + [PlacedEvent(rules', rule, placed)]), p)
  }

  function PlacedEvent(rules: Table, rule: Rule, placed: Option<Rule>): Event {
    if placed.Some? then LegPlaced(rule.id, SiblingArmed(rules, rule)) else PlacedUpdateLost(rule.id)
  }

  /** The broker took the order, and a call raised: the PLACED update before it was written, or whatever
      came after it before the sibling was cancelled. */
  function AcceptedCut(s: State, p: nat, marked: bool): State
    requires p in s.passes && s.passes[p].phase.Placing?
  {
    var rule := s.passes[p].phase.rule;
    var (rules, placed) := CasState(s.rules, rule.id, rule.version, PLACED);
    if marked then LetGo(s.(rules := rules, log := s.log + [PlacedEvent(rules, rule, placed)]), p)
    else LetGo(s.(log := s.log + [LandedUnplaced(rule.id, SiblingArmed(s.rules, rule))]), p)
  }

  /** The placement call raised, although the order may have landed: the rule is marked FAILED, unless
      that update raised too. */
  function Failed(s: State, p: nat, landed: bool, marked: bool): State
    requires p in s.passes && s.passes[p].phase.Placing?
  {
    var rule := s.passes[p].phase.rule;
    var rules := if marked then CasState(s.rules, rule.id, rule.version, FAILED).0 else s.rules;
    LetGo(s.(rules := rules, log := if landed then s.log + [LandedUnplaced(rule.id, SiblingArmed(rules, rule))] else s.log), p)
  }

  function Run(s: State, steps: seq<Step>): State
    decreases |steps|
  {
    if steps == [] then s else Run(Next(s, steps[0]), steps[1..])
  }

  /** An empty ledger with whatever lots. */
  function Initial(lots: map<Id, LotView>): State { State(map[], lots, map[], map[], []) }
}
