/** The push handler, the recorder and the routes as the program runs them: methods that update the
    ledger in place. Each piece of code between two `await`s is a `FillMachine` step, and a whole push
    handler, with any steps of other handlers at each of its `await`s, is a run. */
module FillRecorder {
  import opened Trading
  import opened Fills
  import opened FillMachine
  import opened FillSafety
  import opened FillTheorems

  datatype ResolveAnswer = NoSuchFill | NotACandidate | Resolved(changed: bool)

  class Recorder {
    var lots: map<Id, Lot>
    var history: map<Id, HistoryRow>
    var pending: map<Id, PendingFill>
    var book: map<Id, BrokerOrder>
    var placed: map<Id, Option<Id>>
    var tasks: map<nat, Task>
    var holder: map<Id, nat>
    var applied: seq<Applied>
    var resolved: set<Id>

    ghost function Now(): State
      reads this
    {
      State(lots, history, pending, book, placed, tasks, holder, applied, resolved)
    }

    constructor (lots: map<Id, Lot>)
      ensures Now() == Initial(lots)
    {
      this.lots, history, pending, book, placed, tasks, holder := lots, map[], map[], map[], map[], map[], map[];
      applied, resolved := [], {};
    }

    // ---- the recorder --------------------------------------------------------------------------

    /** `apply_fill_to_ledger`: the id of the lot it changed, if it changed one. */
    method ApplyFillToLedger(o: BrokerOrder, lotId: Id, role: OrderRole, bracket: Bracket) returns (changed: Option<Id>)
      modifies `lots, `applied
      ensures Now() == Apply(old(Now()), Applied(o, role, lotId, bracket))
      ensures changed == if CanApply(old(lots), Applied(o, role, lotId, bracket)) then Some(lotId) else None
    {
      changed := None;
      if role == MANUAL || o.averagePrice.None? || o.filled <= 0 {
        return;
      }
      if role == ENTRY {
        if lotId !in lots {
          lots := lots[lotId := NewLot(o.instrument, o.side, o.averagePrice.value, o.filled).(bracket := bracket)];
        } else {
          lots := lots[lotId := EntryInto(lots[lotId], o.averagePrice.value, o.filled)];
        }
      } else {
        if lotId !in lots || lots[lotId].entryPrice.None? {
          return;
        }
        var lot := lots[lotId];
        var pnl := RealizedPnl(lot.entryPrice.value, o.averagePrice.value, o.filled, lot.side);
        var left := Max(lot.remaining - o.filled, 0);
        lots := lots[lotId := lot.(remaining := left, realized := lot.realized + pnl, open := if left == 0 then false else lot.open)];
      }
      applied := applied + [Applied(o, role, lotId, bracket)];
      changed := Some(lotId);
    }

    /** `upsert_order`; false when it raised because the row names a lot that does not exist. */
    method UpsertOrder(order: Id, row: HistoryRow) returns (ok: bool)
      modifies `history
      ensures Now() == Record(old(Now()), order, row)
      ensures ok == Writable(lots, row)
    {
      if row.lot.Some? && row.lot.value !in lots {
        return false;
      }
      if order in history {
        var was := history[order];
        history := history[order := HistoryRow(
          if row.key.Some? then row.key else was.key, row.status,
          if row.role.Some? then row.role else was.role, if row.lot.Some? then row.lot else was.lot,
          if row.target.Some? then row.target else was.target, if row.stop.Some? then row.stop else was.stop,
          if row.gap.Some? then row.gap else was.gap)];
      } else {
        history := history[order := row];
      }
      return true;
    }

    // ---- reads -----------------------------------------------------------------------------------

    /** The open lots of an instrument, and those among them on the other side of a fill. */
    method OpenAndClosing(instrument: Key, side: Side) returns (open: set<Id>, closing: set<Id>)
      ensures open == OpenLots(lots, instrument) && closing == ClosingLots(lots, instrument, side)
      ensures forall l :: l in open <==> l in lots && lots[l].open && lots[l].instrument == instrument
      ensures forall l :: l in closing <==> l in open && Signed(lots[l].side, 1) + Signed(side, 1) == 0
    {
      open, closing := {}, {};
      var left := lots.Keys;
      while left != {}
        invariant left <= lots.Keys
        invariant open == OpenLots(lots, instrument) - left
        invariant closing == ClosingLots(lots, instrument, side) - left
        decreases left
      {
        var id :| id in left;
        left := left - {id};
        if lots[id].open && lots[id].instrument == instrument {
          open := open + {id};
          if lots[id].side != side {
            closing := closing + {id};
          }
        }
      }
    }

    /** Role, lot and bracket of a sighted order, found the way the handler finds them: rule tags first,
        then the order's own row, then the open lots. */
    method FindRole(o: BrokerOrder) returns (r: Resolution)
      ensures r == ResolveRole(Now(), o)
    {
      var key, lot, role: Option<OrderRole> := None, None, None;
      var target, stop, gap: Option<real> := None, None, None;
      var candidates := {};
      if o.tag.Some? {
        var left := placed.Keys;
        while left != {} && role.None?
          invariant left <= placed.Keys
          invariant role.None? ==> key.None? && lot.None? && (o.tag.value in placed ==> o.tag.value in left)
          invariant role.Some? ==> o.tag.value in placed && role == Some(EXIT) && key == o.tag && lot == placed[o.tag.value]
          decreases left
        {
          var rule :| rule in left;
          left := left - {rule};
          if rule == o.tag.value {
            key, lot, role := Some(rule), placed[rule], Some(EXIT);
          }
        }
      }
      if role.None? {
        if o.id in history {
          key, role := history[o.id].key, history[o.id].role;
          if role == Some(ENTRY) {
            lot := if history[o.id].lot.Some? then history[o.id].lot else key;
            target, stop, gap := history[o.id].target, history[o.id].stop, history[o.id].gap;
          }
        }
        if role.None? && o.status == COMPLETE {
          var open, closing := OpenAndClosing(o.instrument, o.side);
          if open == {} {
            if o.averagePrice.Some? {
              var (t, s) := DefaultBracket(o.averagePrice.value, o.side);
              role, target, stop := Some(ENTRY), Some(t), Some(s);
            }
          } else if |closing| == 1 {
            role, lot := Some(EXIT), Some(Only(closing));
          } else {
            candidates := closing;
          }
        }
      }
      r := Resolution(role, lot, key, target, stop, gap, candidates);
    }

    // ---- one push handler ---------------------------------------------------------------------------

    /** The handler between its order-book fetch and its next `await` or its end, or the store call that
        `raises`. True if it awaits a notification. */
    method ProcessFetched(t: nat, newLot: Id, targetRule: Id, stopRule: Id, raises: Option<Failure>) returns (notifying: bool)
      requires t in tasks && tasks[t].Fetched? && newLot !in lots && raises != Some(BEFORE_DELETE)
      modifies `lots, `history, `pending, `tasks, `holder, `applied
      ensures Now() == Next(old(Now()), ProcessOr(t, newLot, targetRule, stopRule, raises))
      ensures notifying == (t in tasks && tasks[t].Notifying?) && (notifying <==> t in tasks)
    {
      var order := tasks[t].order;
      if tasks[t].found.None? {
        LetGo(t);
        return false;
      }
      var o := tasks[t].found.value;
      var r := FindRole(o);
      if |r.candidates| > 1 {
        if raises.Some? {
          LetGo(t);
          return false;
        }
        if o.id !in pending {
          pending := pending[o.id := PendingFill(r.candidates, o)];
        }
        tasks := tasks[t := Notifying(order, o, r.key)];
        return true;
      }
      ApplyAndRecordSighting(o, r, newLot, targetRule, stopRule, raises);
      LetGo(t);
      return false;
    }

    /** Applies the fill if the order is complete and its row did not say so, and records the order,
        unless a call before one of these writes raises. */
    method ApplyAndRecordSighting(o: BrokerOrder, r: Resolution, newLot: Id, targetRule: Id, stopRule: Id, raises: Option<Failure>)
      modifies `lots, `history, `applied
      ensures Now() == if raises.None? then ApplyAndRecord(old(Now()), o, r, newLot, targetRule, stopRule)
                       else ApplyIf(old(Now()), Reached(FillOf(old(Now()), o, r, newLot, targetRule, stopRule), raises.value))
    {
      if raises == Some(BEFORE_LOT) {
        return;
      }
      var changed: Option<Id> := None;
      if o.status == COMPLETE && (r.role == Some(ENTRY) || (r.role == Some(EXIT) && r.lot.Some?))
         && !(o.id in history && history[o.id].status == COMPLETE) {
        var bracket := if raises == Some(BEFORE_BRACKET) then NO_BRACKET else ArmedBracket(r, targetRule, stopRule);
        changed := ApplyFillToLedger(o, if r.lot.Some? then r.lot.value else newLot, r.role.value, bracket);
      }
      if raises.Some? {
        return;
      }
      var snapshotLot := if changed.Some? then changed else if r.role == Some(EXIT) then r.lot else None;
      var _ := UpsertOrder(o.id, HistoryRow(r.key, o.status, r.role, snapshotLot, None, None, None));
    }

    /** The handler's `async with` block ends. */
    method LetGo(t: nat)
      requires t in tasks
      modifies `tasks, `holder
      ensures Now() == Release(old(Now()), t)
    {
      holder := holder - {tasks[t].order};
      tasks := tasks - {t};
    }

    /** The handler after its notification: the fill set aside is recorded without a role, unless the
        notification or that write `raised`. */
    method AfterNotification(t: nat, raised: bool)
      requires t in tasks && tasks[t].Notifying?
      modifies `history, `tasks, `holder
      ensures Now() == Next(old(Now()), if raised then NotificationRaised(t) else NotificationSent(t))
      ensures t !in tasks
    {
      if !raised {
        var _ := UpsertOrder(tasks[t].order, HistoryRow(tasks[t].key, tasks[t].fill.status, None, None, None, None, None));
      }
      LetGo(t);
    }

    // ---- the routes ---------------------------------------------------------------------------------

    method RecordPlacementOf(order: Id, key: Id, role: OrderRole, target: Option<real>, stop: Option<real>, gap: Option<real>)
      modifies `history
      ensures Now() == Next(old(Now()), RecordPlacement(order, key, role, target, stop, gap))
    {
      var _ := UpsertOrder(order, HistoryRow(Some(key), SUBMITTED, Some(role), None, target, stop, gap));
    }

    /** The lot and the row of an answer; not `done` when recording raised or a call was cut off. */
    method WriteAnswer(a: Applied, raises: Option<Failure>) returns (done: bool, changed: bool)
      requires raises != Some(BEFORE_LOT)
      modifies `lots, `history, `applied
      ensures var s1 := Apply(old(Now()), a);
              && Now() == (if raises == Some(BEFORE_BRACKET) || raises == Some(BEFORE_ROW) then s1 else Record(s1, a.order.id, ResolvedRow(a)))
              && (done <==> raises.None? && Writable(s1.lots, ResolvedRow(a)))
      ensures changed <==> CanApply(old(lots), a)
    {
      var lotId := ApplyFillToLedger(a.order, a.lot, a.role, a.bracket);
      done, changed := false, lotId.Some?;
      if raises != Some(BEFORE_BRACKET) && raises != Some(BEFORE_ROW) {
        var ok := UpsertOrder(a.order.id, HistoryRow(None, a.order.status, Some(EXIT), Some(a.lot), None, None, None));
        done := ok && raises.None?;
      }
    }

    /** `resolve_pending_ambiguous_fill`; `None` when recording the order raised, or the call before one
        of the writes that `raises`. */
    method ResolvePending(order: Id, lot: Id, raises: Option<Failure>) returns (answer: Option<ResolveAnswer>)
      requires order in pending ==> pending[order].order.id == order
      modifies `lots, `history, `pending, `applied, `resolved
      ensures Now() == Next(old(Now()), if raises.None? then Resolve(order, lot) else ResolveRaised(order, lot, raises.value))
      ensures answer == Some(NoSuchFill) <==> order !in old(pending)
      ensures answer == Some(NotACandidate) <==> order in old(pending) && lot !in old(pending)[order].candidates
      ensures answer.Some? && answer.value.Resolved? ==>
                order !in pending && (answer.value.changed <==> |applied| == |old(applied)| + 1)
      ensures raises.Some? ==> answer.None? || !answer.value.Resolved?
    {
      if order !in pending {
        return Some(NoSuchFill);
      }
      if lot !in pending[order].candidates {
        return Some(NotACandidate);
      }
      if raises == Some(BEFORE_LOT) {
        return None;
      }
      var done, changed := WriteAnswer(Applied(pending[order].order, EXIT, lot, NO_BRACKET), raises);
      if !done {
        return None;
      }
      pending, resolved := pending - {order}, resolved + {order};
      return Some(Resolved(changed));
    }

    // ---- the handler as a whole --------------------------------------------------------------------

    /** One step of some handler. */
    method Do(e: Step)
      modifies this
      ensures Now() == Next(old(Now()), e)
    {
      var s := Next(State(lots, history, pending, book, placed, tasks, holder, applied, resolved), e);
      lots, history, pending, book, placed, tasks, holder := s.lots, s.history, s.pending, s.book, s.placed, s.tasks, s.holder;
      applied, resolved := s.applied, s.resolved;
    }

    /** An `await` of task `t`: the other handlers run as far as they like. */
    method Await(t: nat, others: seq<Step>)
      requires AllNamed(Now()) && t in tasks
      requires forall k :: 0 <= k < |others| ==> !IsStepOf(others[k], t)
      modifies this
      ensures Now() == Run(old(Now()), others) && AllNamed(Now())
      ensures t in tasks && tasks[t] == old(tasks[t])
    {
      var i := 0;
      ghost var s0 := Now();
      while i < |others|
        invariant 0 <= i <= |others|
        invariant Now() == Run(s0, others[..i]) && AllNamed(Now())
        invariant t in tasks && tasks[t] == s0.tasks[t]
      {
        OthersLeaveTaskAlone(Now(), others[i], t);
        StepKeepsOrders(Now(), others[i]);
        RunSnoc(s0, others[..i], others[i]);
        assert others[..i + 1] == others[..i] + [others[i]];
        Do(others[i]);
        i := i + 1;
      }
      assert others[..i] == others;
    }

    /** A lot id nobody has used. */
    method FreshLotId() returns (id: Id)
      ensures id !in lots
    {
      id := "";
      var left := lots.Keys;
      while left != {}
        invariant left <= lots.Keys
        invariant forall k :: k in lots.Keys - left ==> |k| < |id|
        decreases left
      {
        var k :| k in left;
        left := left - {k};
        if |k| >= |id| {
          id := k + "+";
        }
      }
      assert id in lots ==> id in lots.Keys - left;
    }

    /** A step of this handler and then an `await`. */
    method DoAndAwait(e: Step, t: nat, others: seq<Step>) returns (ghost trace: seq<Step>)
      requires AllNamed(Now()) && t in Next(Now(), e).tasks
      requires forall k :: 0 <= k < |others| ==> !IsStepOf(others[k], t)
      modifies this
      ensures Now() == Run(old(Now()), trace) && AllNamed(Now())
      ensures t in tasks && tasks[t] == Next(old(Now()), e).tasks[t]
    {
      StepKeepsOrders(Now(), e);
      trace := [e] + others;
      RunCons(Now(), e, others);
      Do(e);
      Await(t, others);
    }

    /** The handler queues for its order's lock; true if it got it and has asked for the order book. */
    method TakeLock(t: nat, order: Id, others: seq<Step>, more: seq<Step>) returns (got: bool, ghost trace: seq<Step>)
      requires AllNamed(Now()) && t !in tasks
      requires forall k :: 0 <= k < |others| ==> !IsStepOf(others[k], t)
      requires forall k :: 0 <= k < |more| ==> !IsStepOf(more[k], t)
      modifies this
      ensures Now() == Run(old(Now()), trace) && AllNamed(Now())
      ensures t in tasks && tasks[t] == if got then Fetching(order) else Waiting(order)
      ensures !got ==> order in holder
    {
      ghost var s0 := Now();
      trace := DoAndAwait(Push(t, order), t, others);
      got := order !in holder;
      if got {
        ghost var rest := DoAndAwait(Acquire(t), t, more);
        RunConcat(s0, trace, rest);
        trace := trace + rest;
      }
    }

    /** The handler has the order book and goes on to its end, or to a notification and then its end. */
    method Finish(t: nat, targetRule: Id, stopRule: Id, raises: Option<Failure>, others: seq<Step>, notificationRaises: bool)
      returns (ghost trace: seq<Step>)
      requires AllNamed(Now()) && t in tasks && tasks[t].Fetched? && raises != Some(BEFORE_DELETE)
      requires forall k :: 0 <= k < |others| ==> !IsStepOf(others[k], t)
      modifies this
      ensures Now() == Run(old(Now()), trace) && AllNamed(Now())
      ensures t !in tasks
    {
      ghost var s0 := Now();
      var newLot := FreshLotId();
      ghost var process := ProcessOr(t, newLot, targetRule, stopRule, raises);
      StepKeepsOrders(s0, process);
      RunOne(s0, process);
      trace := [process];
      var notifying := ProcessFetched(t, newLot, targetRule, stopRule, raises);
      if notifying {
        RunConcat(s0, trace, others);
        trace := trace + others;
        Await(t, others);
        ghost var end := if notificationRaises then NotificationRaised(t) else NotificationSent(t);
        Take(s0, trace, end);
        trace := trace + [end];
        AfterNotification(t, notificationRaises);
      }
    }

    /** A whole push handler: it waits for its order's lock, fetches the order book, and does what the
        order calls for; `others` are the steps of other handlers at its `await`s. Whatever they are
        and whichever call raises, the handler is a run of the machine; it ends with its lock let go,
        unless it is still in the queue for it. */
    method HandlePush(t: nat, order: Id, fetchRaises: bool, raises: Option<Failure>, notificationRaises: bool,
                      targetRule: Id, stopRule: Id, others: nat -> seq<Step>)
      returns (ghost trace: seq<Step>)
      requires AllNamed(Now()) && t !in tasks && raises != Some(BEFORE_DELETE)
      requires forall n, k :: 0 <= k < |others(n)| ==> !IsStepOf(others(n)[k], t)
      modifies this
      ensures Now() == Run(old(Now()), trace) && AllNamed(Now())
      ensures t in tasks ==> tasks[t] == Waiting(order) && order in holder
    {
      ghost var s0 := Now();
      var got;
      got, trace := TakeLock(t, order, others(0), others(1));
      if !got {
        return;
      }
      var fetch := if fetchRaises then FetchRaised(t) else Fetch(t);
      Take(s0, trace, fetch);
      FetchEnds(Now(), t);
      trace := trace + [fetch];
      Do(fetch);
      if !fetchRaises {
        ghost var rest := Finish(t, targetRule, stopRule, raises, others(2), notificationRaises);
        RunConcat(s0, trace, rest);
        trace := trace + rest;
      }
    }
  }

  lemma FetchEnds(s: State, t: nat)
    requires t in s.tasks && s.tasks[t].Fetching?
    ensures t !in Next(s, FetchRaised(t)).tasks
    ensures t in Next(s, Fetch(t)).tasks && Next(s, Fetch(t)).tasks[t].Fetched?
  {
  }

  function ProcessOr(t: nat, newLot: Id, targetRule: Id, stopRule: Id, raises: Option<Failure>): Step {
    if raises.None? then Process(t, newLot, targetRule, stopRule) else ProcessRaised(t, newLot, targetRule, stopRule, raises.value)
  }

  predicate IsStepOf(e: Step, t: nat) {
    IsTaskStep(e) && e.task == t
  }

  lemma OthersLeaveTaskAlone(s: State, e: Step, t: nat)
    requires t in s.tasks && !IsStepOf(e, t)
    ensures t in Next(s, e).tasks && Next(s, e).tasks[t] == s.tasks[t]
  {
    match e
    case BrokerUpdate(_) =>
    case SetPlaced(_) =>
    case Push(_, _) =>
    case Resolve(order, lot) =>
      if order in s.pending && lot in s.pending[order].candidates {
        var a := ResolvedFill(s, order, lot);
        RecordLeavesTheRest(Apply(s, a), a.order.id, ResolvedRow(a));
      }
    case ResolveRaised(order, lot, failure) =>
      if order in s.pending && lot in s.pending[order].candidates {
        var a := ResolvedFill(s, order, lot);
        RecordLeavesTheRest(Apply(s, a), a.order.id, ResolvedRow(a));
      }
    case RecordPlacement(order, key, role, target, stop, gap) => RecordLeavesTheRest(s, order, PlacementRow(key, role, target, stop, gap));
    case _ => if e.task in s.tasks { TaskStepsLeaveOthersAlone(s, e, t); }
  }

  lemma TaskStepsLeaveOthersAlone(s: State, e: Step, t: nat)
    requires IsTaskStep(e) && e.task in s.tasks && t in s.tasks && t != e.task
    ensures t in TaskStep(s, e).tasks && TaskStep(s, e).tasks[t] == s.tasks[t]
  {
    match e
    case Process(u, newLot, targetRule, stopRule) =>
      if s.tasks[u].Fetched? && s.tasks[u].found.Some? {
        var o := s.tasks[u].found.value;
        SightingAppliesItsFill(s, o, ResolveRole(s, o), newLot, targetRule, stopRule);
        ProcessLeavesOthersAlone(s, u, newLot, targetRule, stopRule, ApplyAndRecord(s, o, ResolveRole(s, o), newLot, targetRule, stopRule), t);
      }
    case ProcessRaised(u, newLot, targetRule, stopRule, failure) => RaisedLeavesOthersAlone(s, u, newLot, targetRule, stopRule, failure, t);
    case NotificationSent(u) => if s.tasks[u].Notifying? { RecordLeavesTheRest(s, s.tasks[u].order, SightedRow(s.tasks[u])); }
    case _ =>
  }

  lemma RaisedLeavesOthersAlone(s: State, u: nat, newLot: Id, targetRule: Id, stopRule: Id, failure: Failure, t: nat)
    requires u in s.tasks && t in s.tasks && t != u
    ensures var s' := TaskStep(s, ProcessRaised(u, newLot, targetRule, stopRule, failure)); t in s'.tasks && s'.tasks[t] == s.tasks[t]
  {
  }

  lemma ProcessLeavesOthersAlone(s: State, t: nat, newLot: Id, targetRule: Id, stopRule: Id, s1: State, u: nat)
    requires t in s.tasks && s.tasks[t].Fetched? && s.tasks[t].found.Some? && u in s.tasks && u != t
    requires s1.tasks == s.tasks
    requires var o := s.tasks[t].found.value; s1 == ApplyAndRecord(s, o, ResolveRole(s, o), newLot, targetRule, stopRule)
    ensures u in ProcessStep(s, t, newLot, targetRule, stopRule).tasks && ProcessStep(s, t, newLot, targetRule, stopRule).tasks[u] == s.tasks[u]
  {
    var o := s.tasks[t].found.value;
    var s' := ProcessStep(s, t, newLot, targetRule, stopRule);
    assert s' == SetAside(s, t, o, ResolveRole(s, o)) || s' == Release(s1, t);
  }

  lemma RunSnoc(s: State, steps: seq<Step>, e: Step)
    ensures Run(s, steps + [e]) == Next(Run(s, steps), e)
  {
    RunConcat(s, steps, [e]);
    RunOne(Run(s, steps), e);
  }

  /** A run goes on by one step. */
  lemma Take(s: State, trace: seq<Step>, e: Step)
    requires AllNamed(Run(s, trace))
    ensures Run(s, trace + [e]) == Next(Run(s, trace), e) && AllNamed(Next(Run(s, trace), e))
  {
    RunSnoc(s, trace, e);
    StepKeepsOrders(Run(s, trace), e);
  }
}
