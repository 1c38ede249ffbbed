/** The `trigger_rules` table: its rows, its two compare-and-set updates and the pure helpers of
    the server-side evaluator. */
module TriggerRules {
  import opened Trading

  datatype RuleState = ARMED | EVALUATING | FIRING | PLACED | FAILED | CANCELLED

  datatype Role = STOP_LOSS | TARGET | UNLABELLED

  /** `CROSSES` also stands for a missing or unrecognised operator: neither ever matches. */
  datatype ConditionOp = ABOVE | BELOW | CROSSES

  datatype Rule = Rule(
    id: Id,
    lotId: Option<Id>,
    instrument: Key,
    role: Role,
    state: RuleState,
    op: ConditionOp,
    value: Option<real>,
    sibling: Option<Id>,
    version: nat
  )

  type Table = map<Id, Rule>

  predicate Matches(op: ConditionOp, value: Option<real>, ltp: real) {
    var limit := if value.Some? then value.value else 0.0;
    match op
    case ABOVE => ltp >= limit
    case BELOW => ltp <= limit
    case CROSSES => false
  }

  /** Moves a row still at `expected` to `state` and bumps its version; otherwise nothing. */
  function CasState(t: Table, id: Id, expected: nat, state: RuleState): (Table, Option<Rule>) {
    if id in t && t[id].version == expected then
      (t[id := Moved(t[id], state)], Some(Moved(t[id], state)))
    else
      (t, None)
  }

  function Moved(row: Rule, state: RuleState): Rule { row.(state := state, version := row.version + 1) }

  /** Moves only the trigger price, and only of a row that is still ARMED at `expected`. */
  function CasCondition(t: Table, id: Id, expected: nat, value: real): (Table, Option<Rule>) {
    if id in t && t[id].version == expected && t[id].state == ARMED then
      var row := t[id].(value := Some(value), version := expected + 1);
      (t[id := row], Some(row))
    else
      (t, None)
  }

  // ---- the rows of a lot's bracket ---------------------------------------------------------

  /** The rows that arming a lot inserts: a target leg, a stop-loss leg, both as OCO siblings, or
      none. A long lot's target fires ABOVE and its stop-loss BELOW; a short lot mirrors that. */
  function BracketRows(lot: Id, instrument: Key, side: Side, target: Option<real>, stop: Option<real>,
                       targetId: Id, stopId: Id): Table
  {
    var targetRow := Rule(targetId, Some(lot), instrument, TARGET, ARMED,
                          if side == BUY then ABOVE else BELOW, target,
                          if stop.Some? then Some(stopId) else None, 0);
    var stopRow := Rule(stopId, Some(lot), instrument, STOP_LOSS, ARMED,
                        if side == BUY then BELOW else ABOVE, stop,
                        if target.Some? then Some(targetId) else None, 0);
    (if target.Some? then map[targetId := targetRow] else map[]) +
    (if stop.Some? then map[stopId := stopRow] else map[])
  }

  // ---- evaluation order ----------------------------------------------------------------------

  function RoleSortKey(rule: Rule): nat {
    match rule.role
    case STOP_LOSS => 0
    case TARGET => 1
    case UNLABELLED => 2
  }

  function WithSortKey(rules: seq<Rule>, key: nat): seq<Rule> {
    if rules == [] then []
    else (if RoleSortKey(rules[0]) == key then [rules[0]] else []) + WithSortKey(rules[1..], key)
  }

  /** A stable sort by `RoleSortKey`. */
  function SortByRole(rules: seq<Rule>): seq<Rule> {
    WithSortKey(rules, 0) + WithSortKey(rules, 1) + WithSortKey(rules, 2)
  }

  lemma {:induction false} WithSortKeyMembers(rules: seq<Rule>, key: nat)
    ensures forall r :: r in WithSortKey(rules, key) ==> r in rules && RoleSortKey(r) == key
  {
    if rules != [] {
      WithSortKeyMembers(rules[1..], key);
    }
  }

  lemma {:induction false} SortKeysPartition(rules: seq<Rule>)
    ensures multiset(WithSortKey(rules, 0)) + multiset(WithSortKey(rules, 1)) + multiset(WithSortKey(rules, 2))
         == multiset(rules)
  {
    if rules != [] {
      SortKeysPartition(rules[1..]);
      assert rules == [rules[0]] + rules[1..];
    }
  }

  /** Stop-losses come before targets before unlabelled rules, and nothing is lost or repeated. */
  lemma SortByRoleSorts(rules: seq<Rule>)
    ensures multiset(SortByRole(rules)) == multiset(rules)
    ensures forall i, j :: 0 <= i < j < |SortByRole(rules)|
              ==> RoleSortKey(SortByRole(rules)[i]) <= RoleSortKey(SortByRole(rules)[j])
  {
    SortKeysPartition(rules);
    var a, b, c := WithSortKey(rules, 0), WithSortKey(rules, 1), WithSortKey(rules, 2);
    WithSortKeyMembers(rules, 0);
    WithSortKeyMembers(rules, 1);
    WithSortKeyMembers(rules, 2);
    assert forall i :: 0 <= i < |a| ==> a[i] in a;
    assert forall i :: 0 <= i < |b| ==> b[i] in b;
    assert forall i :: 0 <= i < |c| ==> c[i] in c;
  }
}
