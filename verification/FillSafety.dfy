/** What holds of every broker order in every reachable state. Handlers touch one order at a time, so
    the whole system is looked at one order at a time: `View` is all there is to know of an order. */
module FillSafety {
  import opened Trading
  import opened Fills
  import opened FillMachine

  /** One order: what the broker says of it, its row, whether its fill waits for a human or was resolved
      by one, how often its fill changed the lots, and the task inside its lock. */
  datatype View = View(
    listed: Option<BrokerOrder>,
    row: Option<HistoryRow>,
    pending: Option<PendingFill>,
    resolved: bool,
    times: nat,
    held: Option<Task>
  )

  /** How many logged changes of the lots are for an order. */
  function Times(log: seq<Applied>, order: Id): nat {
    if log == [] then 0
    else Times(log[..|log| - 1], order) + if log[|log| - 1].order.id == order then 1 else 0
  }

  lemma TimesAfter(log: seq<Applied>, a: Applied, order: Id)
    ensures Times(log + [a], order) == Times(log, order) + if a.order.id == order then 1 else 0
  {
  }

  function Held(s: State, order: Id): Option<Task> {
    if order in s.holder && s.holder[order] in s.tasks then Some(s.tasks[s.holder[order]]) else None
  }

  function ViewOf(s: State, order: Id): View {
    View(At(s.book, order), At(s.history, order), At(s.pending, order), order in s.resolved, Times(s.applied, order), Held(s, order))
  }

  predicate Done(v: View) { v.row.Some? && v.row.value.status == COMPLETE }

  function RoleIn(v: View): Option<OrderRole> { if v.row.Some? then v.row.value.role else None }

  // ---- what is kept ------------------------------------------------------------------------------

  /** Everything that travels with an order is about that order, and a resolved fill is gone for good. */
  predicate Named(order: Id, v: View) {
    && (v.listed.Some? ==> v.listed.value.id == order)
    && (v.pending.Some? ==> v.pending.value.order.id == order && v.pending.value.candidates != {})
    && (v.held.Some? ==> TaskNames(order, v.held.value))
    && (v.resolved ==> v.pending.None? && RoleIn(v).Some?)
  }

  predicate TaskNames(order: Id, task: Task) {
    match task
    case Waiting(_) => false
    case Fetching(o) => o == order
    case Fetched(o, found) => o == order && (found.Some? ==> found.value.id == order)
    case Notifying(o, fill, _) => o == order && fill.id == order && fill.status == COMPLETE
  }

  predicate Completed(v: View) { v.listed.Some? && v.listed.value.status == COMPLETE }

  /** The next sighting of a complete order could still be taken as a fill: its row does not say COMPLETE
      and is not about to, and carries no role or ENTRY, or the order has a tag some rule may claim. */
  predicate Loose(v: View) {
    v.listed.Some? && Fillable(v.listed.value) && !Done(v) && !Notified(v) && Retakable(v.listed.value, RoleIn(v))
  }

  predicate Retakable(o: BrokerOrder, role: Option<OrderRole>) { role.None? || role == Some(ENTRY) || o.tag.Some? }

  /** A fill was applied at most once and is not set aside as well, and a fill that was applied or set
      aside cannot be taken again. */
  predicate Settled(v: View) {
    && v.times <= 1
    && (Done(v) ==> Completed(v))
    && (v.times == 1 ==> Completed(v) && Fillable(v.listed.value) && RoleIn(v).Some? && v.pending.None? && !Loose(v))
    && (v.pending.Some? ==> Completed(v) && v.listed.value == v.pending.value.order && !Loose(v))
    && (v.held.Some? && v.held.value.Fetched? ==>
          if v.held.value.found.Some? && v.held.value.found.value.status == COMPLETE then v.listed == v.held.value.found
          else !Done(v) && v.pending.None? && v.times == 0)
    && (Notified(v) ==> v.listed == Some(v.held.value.fill) && Completed(v))
  }

  predicate Notified(v: View) { v.held.Some? && v.held.value.Notifying? }

  /** A task past its first `await` is the one in its order's lock, and a lock is in some task's hands. */
  ghost predicate LocksOk(s: State) {
    && (forall t :: t in s.tasks ==> InLock(s, t))
    && (forall o :: o in s.holder ==> s.holder[o] in s.tasks)
  }

  predicate InLock(s: State, t: nat)
    requires t in s.tasks
  {
    s.tasks[t].Waiting? || At(s.holder, s.tasks[t].order) == Some(t)
  }

  ghost predicate AllNamed(s: State) { LocksOk(s) && forall o :: Named(o, ViewOf(s, o)) }

  ghost predicate AllSettled(s: State) { forall o :: Settled(ViewOf(s, o)) }

  // ---- one function at a time ------------------------------------------------------------------------

  /** Nothing about any other order is different. */
  ghost predicate OnlyTouches(s: State, s': State, order: Id) {
    forall o :: o != order ==> ViewOf(s', o) == ViewOf(s, o)
  }

  /** An order is recorded, and its fill perhaps applied, but no task, book or pending row moves. */
  ghost predicate Writes(s: State, s': State, order: Id) {
    && s'.pending == s.pending && s'.resolved == s.resolved && s'.book == s.book && s'.tasks == s.tasks && s'.holder == s.holder
    && (forall o :: o != order ==> At(s'.history, o) == At(s.history, o) && Times(s'.applied, o) == Times(s.applied, o))
  }

  lemma WritesOnlyTouch(s: State, s': State, order: Id)
    requires Writes(s, s', order)
    ensures OnlyTouches(s, s', order)
    ensures ViewOf(s', order) == ViewOf(s, order).(row := At(s'.history, order), times := Times(s'.applied, order))
  {
  }

  lemma RecordWrites(s: State, order: Id, row: HistoryRow)
    ensures Writes(s, Record(s, order, row), order)
    ensures Record(s, order, row).applied == s.applied
    ensures At(Record(s, order, row).history, order)
         == if Writable(s.lots, row) then Some(Upserted(s.history, order, row)) else At(s.history, order)
  {
  }

  lemma ApplyWrites(s: State, fill: Option<Applied>, order: Id)
    requires fill.Some? ==> fill.value.order.id == order && CanApply(s.lots, fill.value)
    ensures Writes(s, ApplyIf(s, fill), order) && ApplyIf(s, fill).history == s.history
    ensures Times(ApplyIf(s, fill).applied, order) == Times(s.applied, order) + if fill.Some? then 1 else 0
    ensures fill.Some? ==> fill.value.lot in ApplyIf(s, fill).lots
  {
    if fill.Some? {
      forall o ensures Times(s.applied + [fill.value], o) == Times(s.applied, o) + if o == order then 1 else 0 {
        TimesAfter(s.applied, fill.value, o);
      }
    }
  }

  /** When a sighting is a fill: the order is complete with a price and a quantity, its row did not say
      COMPLETE, and its role is one that a further sighting would take again. */
  lemma FillsAreRetakable(s: State, o: BrokerOrder, newLot: Id, targetRule: Id, stopRule: Id)
    requires FillOf(s, o, ResolveRole(s, o), newLot, targetRule, stopRule).Some?
    ensures var fill := FillOf(s, o, ResolveRole(s, o), newLot, targetRule, stopRule).value;
            && fill.order == o && CanApply(s.lots, fill) && o.status == COMPLETE && Fillable(o) && !AlreadyApplied(s, o.id)
            && Retakable(o, if o.id in s.history then s.history[o.id].role else None)
  {
  }

  /** What a sighting does: a fill only as above, and after a fill the row says COMPLETE and carries a
      role; a complete order whose row says so keeps saying so. */
  lemma SightingWrites(s: State, o: BrokerOrder, newLot: Id, targetRule: Id, stopRule: Id)
    ensures var r := ResolveRole(s, o);
            var s', fill := ApplyAndRecord(s, o, r, newLot, targetRule, stopRule), FillOf(s, o, r, newLot, targetRule, stopRule);
            && Writes(s, s', o.id)
            && Times(s'.applied, o.id) == Times(s.applied, o.id) + (if fill.Some? then 1 else 0)
            && (var was, now := At(s.history, o.id), At(s'.history, o.id);
                && (fill.Some? ==> now.Some? && now.value.status == COMPLETE && now.value.role.Some?)
                && (now == was || (now.Some? && now.value.status == o.status
                                  && (was.Some? && was.value.role.Some? ==> now.value.role.Some?))))
  {
    var r := ResolveRole(s, o);
    var fill := FillOf(s, o, r, newLot, targetRule, stopRule);
    var s1 := ApplyIf(s, fill);
    if fill.Some? { FillsAreRetakable(s, o, newLot, targetRule, stopRule); }
    ApplyWrites(s, fill, o.id);
    RecordWrites(s1, o.id, RowOf(o, r, fill));
    WritesCompose(s, s1, Record(s1, o.id, RowOf(o, r, fill)), o.id);
  }

  lemma WritesCompose(s: State, s1: State, s2: State, order: Id)
    requires Writes(s, s1, order) && Writes(s1, s2, order)
    ensures Writes(s, s2, order)
  {
    forall o | o != order ensures At(s2.history, o) == At(s.history, o) && Times(s2.applied, o) == Times(s.applied, o) {
      assert At(s2.history, o) == At(s1.history, o) && At(s1.history, o) == At(s.history, o);
    }
  }

  lemma ReleaseFrees(s: State, t: nat)
    requires t in s.tasks && LocksOk(s) && !s.tasks[t].Waiting? && Held(s, s.tasks[t].order) == Some(s.tasks[t])
    requires forall o :: o in s.holder ==> s.tasks[s.holder[o]].order == o
    ensures LocksOk(Release(s, t)) && OnlyTouches(s, Release(s, t), s.tasks[t].order)
    ensures ViewOf(Release(s, t), s.tasks[t].order) == ViewOf(s, s.tasks[t].order).(held := None)
  {
  }

  /** Only a complete order whose own row carries no role is ever set aside. */
  lemma CandidatesMeanNoRole(s: State, o: BrokerOrder)
    ensures |ResolveRole(s, o).candidates| > 0 ==> o.status == COMPLETE && RoleIn(ViewOf(s, o.id)).None?
  {
  }

  // ---- one step --------------------------------------------------------------------------------------

  /** The order's fill was applied, or waits for a human. */
  ghost predicate AtStake(s: State, order: Id) { Times(s.applied, order) > 0 || order in s.pending }

  ghost predicate WouldBeRetaken(s: State, order: Id, role: Option<OrderRole>) {
    AtStake(s, order) && order in s.book && Fillable(s.book[order]) && Retakable(s.book[order], role)
  }

  /** The steps after which a fill can be applied twice: a late placement record, as an entry or of an
      order with a tag, over a fill that was applied or set aside; a notification (or the row write
      after it) that raises while the row does not say COMPLETE; a raise between the lot and the row; a
      raise between the lot and the end of a human's answer. */
  ghost predicate Hazard(s: State, e: Step) {
    match e
    case RecordPlacement(order, _, role, _, _, _) => !Notified(ViewOf(s, order)) && WouldBeRetaken(s, order, Some(role))
    case NotificationRaised(t) =>
      t in s.tasks && s.tasks[t].Notifying? && !AlreadyApplied(s, s.tasks[t].order)
      && WouldBeRetaken(s, s.tasks[t].order, RoleIn(ViewOf(s, s.tasks[t].order)))
    case ProcessRaised(t, newLot, targetRule, stopRule, failure) =>
      t in s.tasks && newLot !in s.lots && !failure.BEFORE_LOT? && !failure.BEFORE_DELETE?
      && FillOfTask(s, s.tasks[t], newLot, targetRule, stopRule).Some?
    case ResolveRaised(order, lot, failure) => !failure.BEFORE_LOT? && Answers(s, order, lot)
    case _ => false
  }

  /** A human's answer that changes a lot. */
  predicate Answers(s: State, order: Id, lot: Id) {
    order in s.pending && lot in s.pending[order].candidates && CanApply(s.lots, ResolvedFill(s, order, lot))
  }

  /** What one step owes: names stay right, and fills stay settled exactly when it is no hazard. */
  ghost predicate KeepsOrders(s: State, s': State, hazard: bool) {
    && AllNamed(s')
    && (AllSettled(s) ==> (AllSettled(s') <==> !hazard))
  }

  /** It is enough to look at the one order the step is about. */
  lemma OneOrder(s: State, s': State, order: Id, hazard: bool)
    requires AllNamed(s) && LocksOk(s') && OnlyTouches(s, s', order) && Named(order, ViewOf(s', order))
    requires Settled(ViewOf(s, order)) ==> (Settled(ViewOf(s', order)) <==> !hazard)
    ensures KeepsOrders(s, s', hazard)
  {
  }

  lemma StayingKeepsOrders(s: State)
    requires AllNamed(s)
    ensures KeepsOrders(s, s, false)
  {
  }

  lemma LearnKeepsOrders(s: State, row: BrokerOrder)
    requires AllNamed(s)
    ensures KeepsOrders(s, Learn(s, row), false)
  {
    var s' := Learn(s, row);
    if s' == s {
      StayingKeepsOrders(s);
    } else {
      forall o | o != row.id ensures ViewOf(s', o) == ViewOf(s, o) {}
      forall u | u in s'.tasks ensures InLock(s', u) { assert InLock(s, u); }
      assert Named(row.id, ViewOf(s, row.id));
      assert ViewOf(s', row.id) == ViewOf(s, row.id).(listed := Some(row)) && !Completed(ViewOf(s, row.id));
      OneOrder(s, s', row.id, false);
    }
  }

  lemma DeliverKeepsOrders(s: State, t: nat, order: Id)
    requires AllNamed(s)
    ensures KeepsOrders(s, Deliver(s, t, order), false)
  {
    if t in s.tasks {
      StayingKeepsOrders(s);
    } else {
      var s' := Deliver(s, t, order);
      forall o ensures ViewOf(s', o) == ViewOf(s, o) {}
      forall u | u in s'.tasks ensures InLock(s', u) { if u != t { assert InLock(s, u); } }
      assert Named(order, ViewOf(s, order));
      OneOrder(s, s', order, false);
    }
  }

  lemma PlacementKeepsOrders(s: State, order: Id, row: HistoryRow)
    requires AllNamed(s) && row.status == SUBMITTED && row.lot.None? && row.role.Some?
    ensures KeepsOrders(s, Record(s, order, row), !Notified(ViewOf(s, order)) && WouldBeRetaken(s, order, row.role))
  {
    var s' := Record(s, order, row);
    RecordWrites(s, order, row);
    WritesOnlyTouch(s, s', order);
    assert Named(order, ViewOf(s, order));
    assert Upserted(s.history, order, row).role == row.role && Upserted(s.history, order, row).status == SUBMITTED;
    WritesKeepLocks(s, s', order);
    OneOrder(s, s', order, !Notified(ViewOf(s, order)) && WouldBeRetaken(s, order, row.role));
  }

  lemma WritesKeepLocks(s: State, s': State, order: Id)
    requires LocksOk(s) && Writes(s, s', order)
    ensures LocksOk(s')
  {
  }

  lemma LocksAreNamed(s: State)
    requires AllNamed(s)
    ensures forall o :: o in s.holder ==> s.tasks[s.holder[o]].order == o && !s.tasks[s.holder[o]].Waiting?
    ensures forall t :: t in s.tasks && !s.tasks[t].Waiting? ==> Held(s, s.tasks[t].order) == Some(s.tasks[t])
  {
    forall o | o in s.holder ensures s.tasks[s.holder[o]].order == o && !s.tasks[s.holder[o]].Waiting? {
      assert Named(o, ViewOf(s, o));
    }
    forall t | t in s.tasks && !s.tasks[t].Waiting? ensures Held(s, s.tasks[t].order) == Some(s.tasks[t]) {
      assert InLock(s, t);
    }
  }

  lemma AcquireKeepsOrders(s: State, t: nat)
    requires AllNamed(s) && t in s.tasks && s.tasks[t].Waiting? && s.tasks[t].order !in s.holder
    ensures KeepsOrders(s, Locked(s, t), false)
  {
    var s', order := Locked(s, t), s.tasks[t].order;
    LocksAreNamed(s);
    MovingOn(s, s', t, s'.tasks[t]);
    assert Named(order, ViewOf(s, order));
    OneOrder(s, s', order, false);
  }

  /** A task that moves on within its lock, or into it. */
  lemma MovingOn(s: State, s': State, t: nat, task: Task)
    requires LocksOk(s) && t in s.tasks && task.order == s.tasks[t].order
    requires s' == s.(tasks := s.tasks[t := task], holder := s.holder[task.order := t])
    requires At(s.holder, task.order) == Some(t) || (task.order !in s.holder && s.tasks[t].Waiting?)
    requires forall o :: o in s.holder ==> s.tasks[s.holder[o]].order == o && !s.tasks[s.holder[o]].Waiting?
    ensures LocksOk(s') && OnlyTouches(s, s', task.order)
    ensures ViewOf(s', task.order) == ViewOf(s, task.order).(held := Some(task))
  {
    forall o | o != task.order ensures ViewOf(s', o) == ViewOf(s, o) {
      if o in s.holder { assert s.tasks[s.holder[o]].order == o; }
    }
    forall u | u in s'.tasks ensures InLock(s', u) { assert InLock(s, u); }
  }

  lemma FetchKeepsOrders(s: State, t: nat)
    requires AllNamed(s) && t in s.tasks && s.tasks[t].Fetching?
    ensures KeepsOrders(s, FetchStep(s, t), false)
  {
    var s', order := FetchStep(s, t), s.tasks[t].order;
    LocksAreNamed(s);
    assert InLock(s, t);
    assert s.holder[order := t] == s.holder;
    MovingOn(s, s', t, s'.tasks[t]);
    assert Named(order, ViewOf(s, order));
    OneOrder(s, s', order, false);
  }

  lemma ReleaseKeepsOrders(s: State, t: nat)
    requires AllNamed(s) && t in s.tasks && !s.tasks[t].Waiting?
    ensures KeepsOrders(s, Release(s, t), s.tasks[t].Notifying? && !AlreadyApplied(s, s.tasks[t].order)
                                          && WouldBeRetaken(s, s.tasks[t].order, RoleIn(ViewOf(s, s.tasks[t].order))))
  {
    var order := s.tasks[t].order;
    LocksAreNamed(s);
    ReleaseFrees(s, t);
    assert Named(order, ViewOf(s, order));
    OneOrder(s, Release(s, t), order, s.tasks[t].Notifying? && !AlreadyApplied(s, order) && WouldBeRetaken(s, order, RoleIn(ViewOf(s, order))));
  }

  lemma NotifiedKeepsOrders(s: State, t: nat)
    requires AllNamed(s) && t in s.tasks && s.tasks[t].Notifying?
    ensures KeepsOrders(s, Release(Record(s, s.tasks[t].order, SightedRow(s.tasks[t])), t), false)
  {
    var order := s.tasks[t].order;
    var s1 := Record(s, order, SightedRow(s.tasks[t]));
    LocksAreNamed(s);
    RecordWrites(s, order, SightedRow(s.tasks[t]));
    WritesOnlyTouch(s, s1, order);
    WritesKeepLocks(s, s1, order);
    ReleaseFrees(s1, t);
    assert Named(order, ViewOf(s, order));
    TouchTwice(s, s1, Release(s1, t), order);
    OneOrder(s, Release(s1, t), order, false);
  }

  lemma TouchTwice(s: State, s1: State, s2: State, order: Id)
    requires OnlyTouches(s, s1, order) && OnlyTouches(s1, s2, order)
    ensures OnlyTouches(s, s2, order)
  {
  }

  lemma ProcessKeepsOrders(s: State, t: nat, newLot: Id, targetRule: Id, stopRule: Id)
    requires AllNamed(s) && t in s.tasks && s.tasks[t].Fetched?
    ensures KeepsOrders(s, ProcessStep(s, t, newLot, targetRule, stopRule), false)
  {
    var order := s.tasks[t].order;
    LocksAreNamed(s);
    assert Named(order, ViewOf(s, order)) && InLock(s, t);
    if s.tasks[t].found.None? {
      ReleaseKeepsOrders(s, t);
    } else {
      var o := s.tasks[t].found.value;
      var r := ResolveRole(s, o);
      if |r.candidates| > 1 {
        SetAsideKeepsOrders(s, t, o, r);
      } else {
        SightingKeepsOrders(s, t, o, newLot, targetRule, stopRule);
      }
    }
  }

  lemma SightingKeepsOrders(s: State, t: nat, o: BrokerOrder, newLot: Id, targetRule: Id, stopRule: Id)
    requires AllNamed(s) && t in s.tasks && s.tasks[t] == Fetched(o.id, Some(o)) && Held(s, o.id) == Some(s.tasks[t])
    ensures KeepsOrders(s, Release(ApplyAndRecord(s, o, ResolveRole(s, o), newLot, targetRule, stopRule), t), false)
  {
    var s1 := ApplyAndRecord(s, o, ResolveRole(s, o), newLot, targetRule, stopRule);
    LocksAreNamed(s);
    SightingWrites(s, o, newLot, targetRule, stopRule);
    WritesOnlyTouch(s, s1, o.id);
    WritesKeepLocks(s, s1, o.id);
    ReleaseFrees(s1, t);
    TouchTwice(s, s1, Release(s1, t), o.id);
    assert Named(o.id, ViewOf(s, o.id));
    var fill := FillOf(s, o, ResolveRole(s, o), newLot, targetRule, stopRule);
    if fill.Some? { FillsAreRetakable(s, o, newLot, targetRule, stopRule); }
    SightedView(o.id, ViewOf(s, o.id), o, At(s1.history, o.id), Times(s1.applied, o.id), fill.Some?);
    OneOrder(s, Release(s1, t), o.id, false);
  }

  lemma SetAsideKeepsOrders(s: State, t: nat, o: BrokerOrder, r: Resolution)
    requires AllNamed(s) && t in s.tasks && s.tasks[t] == Fetched(o.id, Some(o)) && Held(s, o.id) == Some(s.tasks[t])
    requires r == ResolveRole(s, o) && |r.candidates| > 1
    ensures KeepsOrders(s, SetAside(s, t, o, r), false)
  {
    var s' := SetAside(s, t, o, r);
    LocksAreNamed(s);
    CandidatesMeanNoRole(s, o);
    assert InLock(s, t) && s.holder[o.id := t] == s.holder;
    var s1 := s.(tasks := s'.tasks);
    MovingOn(s, s1, t, s'.tasks[t]);
    forall x | x != o.id ensures ViewOf(s', x) == ViewOf(s1, x) {}
    TouchTwice(s, s1, s', o.id);
    forall u | u in s'.tasks ensures InLock(s', u) { assert InLock(s1, u); }
    assert Named(o.id, ViewOf(s, o.id));
    OneOrder(s, s', o.id, false);
  }

  /** Processing that raised: a hazard exactly when a fill is in the lots and its row is not written. */
  lemma ProcessRaisedKeepsOrders(s: State, t: nat, newLot: Id, targetRule: Id, stopRule: Id, failure: Failure)
    requires AllNamed(s) && t in s.tasks && s.tasks[t].Fetched?
    ensures KeepsOrders(s, Release(ApplyIf(s, WrittenFill(s, s.tasks[t], newLot, targetRule, stopRule, failure)), t),
                        !failure.BEFORE_LOT? && FillOfTask(s, s.tasks[t], newLot, targetRule, stopRule).Some?)
  {
    var order, fill := s.tasks[t].order, WrittenFill(s, s.tasks[t], newLot, targetRule, stopRule, failure);
    var s1 := ApplyIf(s, fill);
    LocksAreNamed(s);
    assert Named(order, ViewOf(s, order)) && InLock(s, t);
    if fill.Some? { FillsAreRetakable(s, s.tasks[t].found.value, newLot, targetRule, stopRule); }
    ApplyWrites(s, fill, order);
    WritesOnlyTouch(s, s1, order);
    WritesKeepLocks(s, s1, order);
    ReleaseFrees(s1, t);
    TouchTwice(s, s1, Release(s1, t), order);
    OneOrder(s, Release(s1, t), order, fill.Some?);
  }

  lemma ResolvedKeepsOrders(s: State, s2: State, s': State, order: Id, fill: Option<Applied>)
    requires AllNamed(s) && Writes(s, s2, order) && order in s.pending
    requires At(s2.history, order).Some? && s2.history[order].status == s.pending[order].order.status && s2.history[order].role.Some?
    requires Times(s2.applied, order) == Times(s.applied, order) + if fill.Some? then 1 else 0
    requires fill.Some? ==> Fillable(s.pending[order].order)
    requires s' == s2.(pending := s.pending - {order}, resolved := s.resolved + {order})
    ensures KeepsOrders(s, s', false)
  {
    WritesOnlyTouch(s, s2, order);
    WritesKeepLocks(s, s2, order);
    forall x | x != order ensures ViewOf(s', x) == ViewOf(s2, x) {}
    TouchTwice(s, s2, s', order);
    forall u | u in s'.tasks ensures InLock(s', u) { assert InLock(s2, u); }
    assert Named(order, ViewOf(s, order));
    assert ViewOf(s', order) == ViewOf(s2, order).(pending := None, resolved := true);
    OneOrder(s, s', order, false);
  }

  /** What an answer writes: perhaps the fill, and the row where its lot is one that exists. */
  lemma AnswerWrites(s: State, order: Id, lot: Id) returns (s1: State, s2: State, fill: Option<Applied>)
    requires order in s.pending && lot in s.pending[order].candidates && s.pending[order].order.id == order
    ensures var a := ResolvedFill(s, order, lot);
            && fill == (if CanApply(s.lots, a) then Some(a) else None)
            && s1 == Apply(s, a) && s2 == Record(s1, order, ResolvedRow(a))
            && Writes(s, s1, order) && s1.history == s.history && Writes(s, s2, order)
            && Times(s1.applied, order) == Times(s.applied, order) + (if fill.Some? then 1 else 0)
            && Times(s2.applied, order) == Times(s1.applied, order)
            && (Writable(s1.lots, ResolvedRow(a)) ==>
                  At(s2.history, order).Some? && s2.history[order].status == s.pending[order].order.status && s2.history[order].role == Some(EXIT))
            && (!Writable(s1.lots, ResolvedRow(a)) ==> s1 == s && s2 == s)
  {
    var a := ResolvedFill(s, order, lot);
    fill := if CanApply(s.lots, a) then Some(a) else None;
    s1 := ApplyIf(s, fill);
    ApplyWrites(s, fill, order);
    RecordWrites(s1, order, ResolvedRow(a));
    s2 := Record(s1, order, ResolvedRow(a));
    WritesCompose(s, s1, s2, order);
  }

  lemma ResolveKeepsOrders(s: State, order: Id, lot: Id)
    requires AllNamed(s)
    ensures KeepsOrders(s, ResolveStep(s, order, lot), false)
  {
    assert Named(order, ViewOf(s, order));
    if order !in s.pending || lot !in s.pending[order].candidates {
      StayingKeepsOrders(s);
    } else {
      var s1, s2, fill := AnswerWrites(s, order, lot);
      if !Writable(s1.lots, ResolvedRow(ResolvedFill(s, order, lot))) {
        StayingKeepsOrders(s);
      } else {
        ResolvedKeepsOrders(s, s2, ResolveStep(s, order, lot), order, fill);
      }
    }
  }

  /** An answer that raised: a hazard exactly when it had applied the fill, which is still asked about. */
  lemma ResolveRaisedKeepsOrders(s: State, order: Id, lot: Id, failure: Failure)
    requires AllNamed(s)
    ensures KeepsOrders(s, ResolveRaisedStep(s, order, lot, failure), !failure.BEFORE_LOT? && Answers(s, order, lot))
  {
    assert Named(order, ViewOf(s, order));
    if order !in s.pending || lot !in s.pending[order].candidates || failure == BEFORE_LOT {
      StayingKeepsOrders(s);
    } else {
      var s1, s2, fill := AnswerWrites(s, order, lot);
      var s' := if failure == BEFORE_DELETE then s2 else s1;
      assert ResolveRaisedStep(s, order, lot, failure) == s';
      assert fill.Some? == (!failure.BEFORE_LOT? && Answers(s, order, lot));
      RaisedAnswerKeepsOrders(s, s', order, fill.Some?);
    }
  }

  lemma RaisedAnswerKeepsOrders(s: State, s': State, order: Id, applied: bool)
    requires AllNamed(s) && order in s.pending && Writes(s, s', order)
    requires Times(s'.applied, order) == Times(s.applied, order) + if applied then 1 else 0
    requires At(s'.history, order) == At(s.history, order)
          || (order in s'.history && s'.history[order].status == s.pending[order].order.status && s'.history[order].role.Some?)
    ensures KeepsOrders(s, s', applied)
  {
    assert Named(order, ViewOf(s, order));
    WritesOnlyTouch(s, s', order);
    WritesKeepLocks(s, s', order);
    AnsweredView(order, ViewOf(s, order), At(s'.history, order), Times(s'.applied, order), applied);
    OneOrder(s, s', order, applied);
  }

  lemma AnsweredView(order: Id, v: View, row: Option<HistoryRow>, times: nat, applied: bool)
    requires v.pending.Some? && times == v.times + if applied then 1 else 0
    requires row == v.row || (row.Some? && row.value.status == v.pending.value.order.status && row.value.role.Some?)
    requires Named(order, v)
    ensures Named(order, v.(row := row, times := times))
    ensures Settled(v) ==> (Settled(v.(row := row, times := times)) <==> !applied)
  {
  }

  lemma SightedView(order: Id, v: View, o: BrokerOrder, row: Option<HistoryRow>, times: nat, applied: bool)
    requires v.held == Some(Fetched(order, Some(o))) && times == v.times + if applied then 1 else 0
    requires Named(order, v)
    requires applied ==> Fillable(o) && o.status == COMPLETE && !Done(v) && Retakable(o, RoleIn(v))
    requires applied ==> row.Some? && row.value.status == COMPLETE && row.value.role.Some?
    requires row == v.row || (row.Some? && row.value.status == o.status && (RoleIn(v).Some? ==> row.value.role.Some?))
    ensures Named(order, v.(row := row, times := times, held := None))
    ensures Settled(v) ==> Settled(v.(row := row, times := times, held := None))
  {
  }

  lemma StepKeepsOrders(s: State, e: Step)
    requires AllNamed(s)
    ensures KeepsOrders(s, Next(s, e), Hazard(s, e))
  {
    match e
    case BrokerUpdate(row) => LearnKeepsOrders(s, row);
    case SetPlaced(rules) => SetPlacedKeepsOrders(s, rules);
    case Push(t, order) => DeliverKeepsOrders(s, t, order);
    case Resolve(order, lot) => ResolveKeepsOrders(s, order, lot);
    case ResolveRaised(order, lot, failure) => ResolveRaisedKeepsOrders(s, order, lot, failure);
    case RecordPlacement(order, key, role, target, stop, gap) =>
      PlacementKeepsOrders(s, order, PlacementRow(key, role, target, stop, gap));
    case _ => if e.task in s.tasks { TaskKeepsOrders(s, e); } else { StayingKeepsOrders(s); }
  }

  lemma SetPlacedKeepsOrders(s: State, rules: map<Id, Option<Id>>)
    requires AllNamed(s)
    ensures KeepsOrders(s, s.(placed := rules), false)
  {
    var s' := s.(placed := rules);
    forall o ensures ViewOf(s', o) == ViewOf(s, o) {}
    forall u | u in s'.tasks ensures InLock(s', u) { assert InLock(s, u); }
    assert Named("", ViewOf(s, ""));
    OneOrder(s, s', "", false);
  }

  lemma TaskKeepsOrders(s: State, e: Step)
    requires AllNamed(s) && IsTaskStep(e) && e.task in s.tasks
    ensures KeepsOrders(s, TaskStep(s, e), Hazard(s, e))
  {
    var t, task := e.task, s.tasks[e.task];
    if TaskStep(s, e) == s { StayingKeepsOrders(s); }
    match e
    case Acquire(_) => if task.Waiting? && task.order !in s.holder { AcquireKeepsOrders(s, t); }
    case Fetch(_) => if task.Fetching? { FetchKeepsOrders(s, t); }
    case FetchRaised(_) => if task.Fetching? { ReleaseKeepsOrders(s, t); }
    case Process(_, newLot, targetRule, stopRule) => if task.Fetched? { ProcessKeepsOrders(s, t, newLot, targetRule, stopRule); }
    case ProcessRaised(_, newLot, targetRule, stopRule, failure) =>
      if task.Fetched? && newLot !in s.lots && !failure.BEFORE_DELETE? { ProcessRaisedKeepsOrders(s, t, newLot, targetRule, stopRule, failure); }
    case NotificationSent(_) => if task.Notifying? { NotifiedKeepsOrders(s, t); }
    case NotificationRaised(_) => if task.Notifying? { ReleaseKeepsOrders(s, t); }
  }
}
