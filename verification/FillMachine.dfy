/** Recording orders and applying their fills: redelivered portfolio pushes, the route that resolves
    an ambiguous fill and the placement-time record, as a state machine. A push handler is cut at
    its three `await`s (the per-order lock, the order-book fetch, the notification). */
module FillMachine {
  import opened Trading
  import opened Fills

  datatype OrderRole = ENTRY | EXIT | MANUAL

  datatype HistoryRow = HistoryRow(
    key: Option<Id>,
    status: OrderStatus,
    role: Option<OrderRole>,
    lot: Option<Id>,
    target: Option<real>,
    stop: Option<real>,
    gap: Option<real>
  )

  /** A fill that two or more open lots could have been closed by. */
  datatype PendingFill = PendingFill(candidates: set<Id>, order: BrokerOrder)

  datatype Task =
    | Waiting(order: Id)
    | Fetching(order: Id)
    | Fetched(order: Id, found: Option<BrokerOrder>)
    | Notifying(order: Id, fill: BrokerOrder, key: Option<Id>)

  /** One change of the lots: which order's fill, as what, on which lot, with which bracket. */
  datatype Applied = Applied(order: BrokerOrder, role: OrderRole, lot: Id, bracket: Bracket)

  datatype State = State(
    lots: map<Id, Lot>,
    history: map<Id, HistoryRow>,
    pending: map<Id, PendingFill>,
    book: map<Id, BrokerOrder>,
    placed: map<Id, Option<Id>>,
    tasks: map<nat, Task>,
    holder: map<Id, nat>,
    applied: seq<Applied>,
    resolved: set<Id>
  )

  /** The store commits call by call: what a handler had not written yet when a call raised. */
  datatype Failure = BEFORE_LOT | BEFORE_BRACKET | BEFORE_ROW | BEFORE_DELETE

  datatype Step =
    | BrokerUpdate(row: BrokerOrder)
    | SetPlaced(rules: map<Id, Option<Id>>)
    | Push(task: nat, order: Id)
    | Acquire(task: nat)
    | Fetch(task: nat)
    | FetchRaised(task: nat)
    | Process(task: nat, newLot: Id, targetRule: Id, stopRule: Id)
    | ProcessRaised(task: nat, newLot: Id, targetRule: Id, stopRule: Id, failure: Failure)
    | NotificationSent(task: nat)
    | NotificationRaised(task: nat)
    | Resolve(order: Id, lot: Id)
    | ResolveRaised(order: Id, lot: Id, failure: Failure)
    | RecordPlacement(order: Id, key: Id, role: OrderRole, target: Option<real>, stop: Option<real>, gap: Option<real>)

  // ---- applying a fill ---------------------------------------------------------------------------

  /** The lot after a fill is applied to `lots`. */
  function LotAfter(lots: map<Id, Lot>, a: Applied): Lot
    requires Fillable(a.order) && (a.role != ENTRY ==> a.lot in lots && lots[a.lot].entryPrice.Some?)
  {
    var price, quantity := a.order.averagePrice.value, a.order.filled;
    if a.role == ENTRY then
      if a.lot in lots then EntryInto(lots[a.lot], price, quantity)
      else NewLot(a.order.instrument, a.order.side, price, quantity).(bracket := a.bracket)
    else ExitFrom(lots[a.lot], price, quantity)
  }

  predicate CanApply(lots: map<Id, Lot>, a: Applied) {
    Fillable(a.order) && a.role != MANUAL && (a.role == EXIT ==> a.lot in lots && lots[a.lot].entryPrice.Some?)
  }

  /** `apply_fill_to_ledger`: changes one lot and says so, or changes nothing. */
  function Apply(s: State, a: Applied): State {
    if CanApply(s.lots, a) then s.(lots := s.lots[a.lot := LotAfter(s.lots, a)], applied := s.applied + [a]) else s
  }

  // ---- recording an order ------------------------------------------------------------------------

  function Coalesce<T>(a: Option<T>, b: Option<T>): Option<T> { if a.Some? then a else b }

  /** `upsert_order`: the status is overwritten; key, role, lot and bracket prices survive a `None`. */
  function Upserted(history: map<Id, HistoryRow>, order: Id, row: HistoryRow): HistoryRow {
    if order !in history then row
    else
      var was := history[order];
      HistoryRow(Coalesce(row.key, was.key), row.status, Coalesce(row.role, was.role), Coalesce(row.lot, was.lot),
                 Coalesce(row.target, was.target), Coalesce(row.stop, was.stop), Coalesce(row.gap, was.gap))
  }

  /** A row may name a lot only if the lot exists; a write that breaks that raises. */
  predicate Writable(lots: map<Id, Lot>, row: HistoryRow) { row.lot.Some? ==> row.lot.value in lots }

  function Record(s: State, order: Id, row: HistoryRow): State {
    if Writable(s.lots, row) then s.(history := s.history[order := Upserted(s.history, order, row)]) else s
  }

  // ---- what a push makes of a broker order -----------------------------------------------------------

  datatype Resolution = Resolution(role: Option<OrderRole>, lot: Option<Id>, key: Option<Id>, target: Option<real>,
                                   stop: Option<real>, gap: Option<real>, candidates: set<Id>)

  function OpenLots(lots: map<Id, Lot>, instrument: Key): set<Id> {
    set l | l in lots && lots[l].open && lots[l].instrument == instrument
  }

  /** Open lots a fill on `side` would reduce. */
  function ClosingLots(lots: map<Id, Lot>, instrument: Key, side: Side): set<Id> {
    set l | l in OpenLots(lots, instrument) && lots[l].side != side
  }

  function Only(ids: set<Id>): Id
    requires |ids| == 1
  {
    ghost var x :| x in ids;
    assert ids == {x} by { assert |ids - {x}| == 0; }
    assert forall y, z :: y in ids && z in ids ==> y == z;
    var y :| y in ids; y
  }

  /** Role, lot and bracket of a sighted order: a PLACED trigger rule with its tag, else the order's
      own earlier row, else (once complete) detection of an order placed outside the engine. */
  function ResolveRole(s: State, o: BrokerOrder): Resolution {
    if o.tag.Some? && o.tag.value in s.placed then
      Resolution(Some(EXIT), s.placed[o.tag.value], o.tag, None, None, None, {})
    else
      var row := if o.id in s.history then s.history[o.id] else HistoryRow(None, SUBMITTED, None, None, None, None, None);
      if row.role == Some(ENTRY) then Resolution(row.role, Coalesce(row.lot, row.key), row.key, row.target, row.stop, row.gap, {})
      else if row.role.Some? || o.status != COMPLETE then Resolution(row.role, None, row.key, None, None, None, {})
      else Detect(s, o, row.key)
  }

  function Detect(s: State, o: BrokerOrder, key: Option<Id>): Resolution {
    var closing := ClosingLots(s.lots, o.instrument, o.side);
    if OpenLots(s.lots, o.instrument) == {} then
      if o.averagePrice.Some? then
        var (target, stop) := DefaultBracket(o.averagePrice.value, o.side);
        Resolution(Some(ENTRY), None, key, Some(target), Some(stop), None, {})
      else Resolution(None, None, key, None, None, None, {})
    else if |closing| == 1 then Resolution(Some(EXIT), Some(Only(closing)), key, None, None, None, {})
    else Resolution(None, None, key, None, None, None, closing)
  }

  predicate AlreadyApplied(s: State, order: Id) { order in s.history && s.history[order].status == COMPLETE }

  predicate AppliesNow(s: State, o: BrokerOrder, r: Resolution) {
    o.status == COMPLETE && r.role in {Some(ENTRY), Some(EXIT)} && (r.lot.Some? || r.role == Some(ENTRY)) && !AlreadyApplied(s, o.id)
  }

  function ArmedBracket(r: Resolution, targetRule: Id, stopRule: Id): Bracket {
    Armed(NewLot("", BUY, 0.0, 0), r.target, r.stop, r.gap, targetRule, stopRule).bracket
  }

  /** What the sighting does to the lots, if anything. */
  function FillOf(s: State, o: BrokerOrder, r: Resolution, newLot: Id, targetRule: Id, stopRule: Id): Option<Applied> {
    if !AppliesNow(s, o, r) then None
    else
      var a := Applied(o, r.role.value, if r.lot.Some? then r.lot.value else newLot, ArmedBracket(r, targetRule, stopRule));
      if CanApply(s.lots, a) then Some(a) else None
  }

  function ApplyIf(s: State, fill: Option<Applied>): State { if fill.Some? then Apply(s, fill.value) else s }

  /** The row's lot is the one that was changed, or for an exit the one that was meant. */
  function RowOf(o: BrokerOrder, r: Resolution, fill: Option<Applied>): HistoryRow {
    HistoryRow(r.key, o.status, r.role, if fill.Some? then Some(fill.value.lot) else if r.role == Some(EXIT) then r.lot else None,
               None, None, None)
  }

  function ApplyAndRecord(s: State, o: BrokerOrder, r: Resolution, newLot: Id, targetRule: Id, stopRule: Id): State {
    var fill := FillOf(s, o, r, newLot, targetRule, stopRule);
    Record(ApplyIf(s, fill), o.id, RowOf(o, r, fill))
  }

  function Release(s: State, task: nat): State
    requires task in s.tasks
  {
    s.(tasks := s.tasks - {task}, holder := s.holder - {s.tasks[task].order})
  }

  // ---- steps -------------------------------------------------------------------------------------

  /** One step of the system; a step that is not possible in `s` leaves `s` as it is. */
  function Next(s: State, e: Step): State {
    match e
    case BrokerUpdate(row) => Learn(s, row)
    case SetPlaced(rules) => s.(placed := rules)
    case Push(t, order) => Deliver(s, t, order)
    case Resolve(order, lot) => ResolveStep(s, order, lot)
    case ResolveRaised(order, lot, failure) => ResolveRaisedStep(s, order, lot, failure)
    case RecordPlacement(order, key, role, target, stop, gap) => Record(s, order, PlacementRow(key, role, target, stop, gap))
    case _ => if e.task in s.tasks then TaskStep(s, e) else s
  }

  /** What the broker says of an order; complete is final. */
  function Learn(s: State, row: BrokerOrder): State {
    if row.id in s.book && s.book[row.id].status == COMPLETE then s else s.(book := s.book[row.id := row])
  }

  function Deliver(s: State, t: nat, order: Id): State {
    if t in s.tasks then s else s.(tasks := s.tasks[t := Waiting(order)])
  }

  /** `record_placement`: always "submitted", whatever the row said before. */
  function PlacementRow(key: Id, role: OrderRole, target: Option<real>, stop: Option<real>, gap: Option<real>): HistoryRow {
    HistoryRow(Some(key), SUBMITTED, Some(role), None, target, stop, gap)
  }

  predicate IsTaskStep(e: Step) {
    e.Acquire? || e.Fetch? || e.FetchRaised? || e.Process? || e.ProcessRaised? || e.NotificationSent? || e.NotificationRaised?
  }

  /** A push handler runs on from where it stopped to its next `await`. */
  function TaskStep(s: State, e: Step): State
    requires IsTaskStep(e) && e.task in s.tasks
  {
    var t, task := e.task, s.tasks[e.task];
    match e
    case Acquire(_) => if task.Waiting? && task.order !in s.holder then Locked(s, t) else s
    case Fetch(_) => if task.Fetching? then FetchStep(s, t) else s
    case FetchRaised(_) => if task.Fetching? then Release(s, t) else s
    case Process(_, newLot, targetRule, stopRule) =>
      if task.Fetched? && newLot !in s.lots then ProcessStep(s, t, newLot, targetRule, stopRule) else s
    case ProcessRaised(_, newLot, targetRule, stopRule, failure) =>
      if task.Fetched? && newLot !in s.lots && !failure.BEFORE_DELETE?
      then Release(ApplyIf(s, WrittenFill(s, task, newLot, targetRule, stopRule, failure)), t) else s
    case NotificationSent(_) => if task.Notifying? then Release(Record(s, task.order, SightedRow(task)), t) else s
    case NotificationRaised(_) => if task.Notifying? then Release(s, t) else s
  }

  function Locked(s: State, t: nat): State
    requires t in s.tasks
  {
    s.(tasks := s.tasks[t := Fetching(s.tasks[t].order)], holder := s.holder[s.tasks[t].order := t])
  }

  function FetchStep(s: State, t: nat): State
    requires t in s.tasks
  {
    var order := s.tasks[t].order;
    s.(tasks := s.tasks[t := Fetched(order, if order in s.book then Some(s.book[order]) else None)])
  }

  /** The row of a fill that was set aside: its status, no role and no lot. */
  function SightedRow(task: Task): HistoryRow
    requires task.Notifying?
  {
    HistoryRow(task.key, task.fill.status, None, None, None, None, None)
  }

  function ProcessStep(s: State, t: nat, newLot: Id, targetRule: Id, stopRule: Id): State
    requires t in s.tasks && s.tasks[t].Fetched?
  {
    if s.tasks[t].found.None? then Release(s, t)
    else
      var o := s.tasks[t].found.value;
      var r := ResolveRole(s, o);
      if |r.candidates| > 1 then
        SetAside(s, t, o, r)
      else
        Release(ApplyAndRecord(s, o, r, newLot, targetRule, stopRule), t)
  }

  /** The fill that processing a fetched order applies, if any. */
  function FillOfTask(s: State, task: Task, newLot: Id, targetRule: Id, stopRule: Id): Option<Applied> {
    if !task.Fetched? || task.found.None? then None
    else
      var r := ResolveRole(s, task.found.value);
      if |r.candidates| > 1 then None else FillOf(s, task.found.value, r, newLot, targetRule, stopRule)
  }

  /** What of a fill is in the lots when processing raised: nothing yet, a new lot without its bracket,
      or all of it. The order's row is not written, and the handler's lock is let go. */
  function WrittenFill(s: State, task: Task, newLot: Id, targetRule: Id, stopRule: Id, failure: Failure): Option<Applied> {
    Reached(FillOfTask(s, task, newLot, targetRule, stopRule), failure)
  }

  function Reached(fill: Option<Applied>, failure: Failure): Option<Applied> {
    if failure.BEFORE_LOT? then None else if failure.BEFORE_BRACKET? then Unarmed(fill) else fill
  }

  function Unarmed(fill: Option<Applied>): Option<Applied> {
    if fill.Some? then Some(fill.value.(bracket := NO_BRACKET)) else None
  }

  /** An ambiguous fill is kept for a human (the first sighting stays), then a notification is awaited. */
  function SetAside(s: State, t: nat, o: BrokerOrder, r: Resolution): State
    requires t in s.tasks
  {
    s.(pending := if o.id in s.pending then s.pending else s.pending[o.id := PendingFill(r.candidates, o)],
       tasks := s.tasks[t := Notifying(s.tasks[t].order, o, r.key)])
  }

  /** The fill a human's answer applies. */
  function ResolvedFill(s: State, order: Id, lot: Id): Applied
    requires order in s.pending
  {
    Applied(s.pending[order].order, EXIT, lot, NO_BRACKET)
  }

  function ResolvedRow(a: Applied): HistoryRow {
    HistoryRow(None, a.order.status, Some(EXIT), Some(a.lot), None, None, None)
  }

  /** A human picks the lot: the fill is applied as an exit, the order recorded, the question dropped. */
  function ResolveStep(s: State, order: Id, lot: Id): State {
    if order !in s.pending || lot !in s.pending[order].candidates then s
    else
      var o := s.pending[order].order;
      var a := ResolvedFill(s, order, lot);
      var row := ResolvedRow(a);
      var s1 := Apply(s, a);
      if !Writable(s1.lots, row) then s1
      else Record(s1, o.id, row).(pending := s.pending - {order}, resolved := s.resolved + {order})
  }

  /** The answer raised on the way: the question stays, whatever was written. */
  function ResolveRaisedStep(s: State, order: Id, lot: Id, failure: Failure): State {
    if order !in s.pending || lot !in s.pending[order].candidates || failure == BEFORE_LOT then s
    else
      var a := ResolvedFill(s, order, lot);
      if failure == BEFORE_DELETE then Record(Apply(s, a), a.order.id, ResolvedRow(a)) else Apply(s, a)
  }

  function Run(s: State, steps: seq<Step>): State
    decreases |steps|
  {
    if steps == [] then s else Run(Next(s, steps[0]), steps[1..])
  }

  /** A ledger that has recorded no orders yet, with whatever lots. */
  function Initial(lots: map<Id, Lot>): State { State(lots, map[], map[], map[], map[], map[], map[], [], {}) }
}
