/** Noticing that instruments have gone quiet: per-key nudges, and for the D30 mode as a whole a reset
    followed by a reconnect. Times are seconds on a clock that never goes back. */
module FeedRecovery {
  import opened Trading
  import opened FeedWire

  const ESCALATE_AFTER := 2

  const RECONNECT_COOLDOWN := 60.0

  datatype Note =
    | Ticked(at: real, key: Key, d30: bool)
    | ResetBegun(at: real)
    | ResetEnded
    | Reconnected(at: real, patience: real)
    | Nudged(at: real, keys: set<Key>, escalated: set<Key>, staleAfter: real)

  /** `resetting` is the start of a D30 reset whose two messages are being sent, `resending` a nudge
      pass whose messages are being sent. */
  datatype Watch = Watch(
    desired: Wishes,
    connected: bool,
    lastSeen: map<Key, real>,
    nudges: map<Key, nat>,
    stage: nat,
    started: Option<real>,
    lastReconnect: Option<real>,
    resetting: Option<real>,
    resending: Option<Note>,
    clock: real,
    log: seq<Note>
  )

  datatype Happening =
    | Tick(key: Key)
    | Desire(wishes: Wishes)
    | Tidy
    | SetConnected(up: bool)
    | Recover(staleAfter: real, reconnectAfter: real)
    | ResetSent
    | Resend(staleAfter: real, includeD30: bool)
    | ResendSent

  datatype Action = DoNothing | Resubscribe | Await | Reconnect

  // ---- the handlers ------------------------------------------------------------------------------

  function Seen(lastSeen: map<Key, real>, key: Key, otherwise: real): real {
    if key in lastSeen then lastSeen[key] else otherwise
  }

  predicate Stale(w: Watch, key: Key, now: real, staleAfter: real) { now - Seen(w.lastSeen, key, now) >= staleAfter }

  /** A tick of any instrument is noted; one of a D30 instrument ends a recovery. */
  function TickStep(w: Watch, key: Key, now: real): Watch {
    var d30 := key in w.desired.d30;
    w.(lastSeen := w.lastSeen[key := now],
       stage := if d30 then 0 else w.stage,
       started := if d30 then None else w.started,
       log := w.log + [Ticked(now, key, d30)])
  }

  function Refreshed(lastSeen: map<Key, real>, keys: set<Key>, now: real): map<Key, real> {
    map k | k in keys :: Seen(lastSeen, k, now)
  }

  function Remembered(nudges: map<Key, nat>, lastSeen: map<Key, real>, keys: set<Key>): map<Key, nat> {
    map k | k in nudges && (k in keys || k !in lastSeen) :: nudges[k]
  }

  /** The end of a replacement: what is no longer wanted is forgotten, what is new counts as just seen. */
  function TidyStep(w: Watch, now: real): Watch {
    var keys := Keys(w.desired);
    w.(lastSeen := Refreshed(w.lastSeen, keys, now), nudges := Remembered(w.nudges, w.lastSeen, keys))
  }

  predicate D30Stalled(w: Watch, now: real, staleAfter: real) {
    && (forall k :: k in w.desired.d30 ==> Stale(w, k, now, staleAfter))
    && (exists k :: k in w.desired.full + w.desired.ltpc && now - Seen(w.lastSeen, k, 0.0) < staleAfter)
  }

  /** `started or now`: a start at clock zero reads as not started. */
  function StartedOr(w: Watch, now: real): real {
    if w.started.Some? && w.started.value != 0.0 then w.started.value else now
  }

  function RecoverAction(w: Watch, now: real, staleAfter: real, reconnectAfter: real): Action {
    if !w.connected || w.desired.d30 == {} || !D30Stalled(w, now, staleAfter) then DoNothing
    else if w.stage == 0 then Resubscribe
    else if w.stage == 1 && now - StartedOr(w, now) >= reconnectAfter
            && (w.lastReconnect.None? || now - w.lastReconnect.value >= RECONNECT_COOLDOWN) then Reconnect
    else Await
  }

  function RecoverStep(w: Watch, now: real, staleAfter: real, reconnectAfter: real): Watch {
    if !w.connected || w.desired.d30 == {} then w.(stage := 0, started := None)
    else match RecoverAction(w, now, staleAfter, reconnectAfter)
      case Resubscribe => w.(resetting := Some(now), log := w.log + [ResetBegun(now)])
      case Reconnect =>
        w.(stage := 2, lastReconnect := Some(now), connected := false, log := w.log + [Reconnected(now, reconnectAfter)])
      case _ => w
  }

  function ResetSentStep(w: Watch): Watch {
    if w.resetting.None? then w
    else w.(stage := 1, started := w.resetting, resetting := None, log := w.log + [ResetEnded])
  }

  /** The keys one pass nudges. */
  function StaleKeys(w: Watch, now: real, staleAfter: real, includeD30: bool): set<Key> {
    set k | k in Keys(w.desired) && Stale(w, k, now, staleAfter) && (includeD30 || k in w.desired.full + w.desired.ltpc)
  }

  function Escalated(w: Watch, nudged: set<Key>): set<Key> {
    set k | k in nudged && k in w.nudges && w.nudges[k] >= ESCALATE_AFTER
  }

  function StillStale(nudges: map<Key, nat>, nudged: set<Key>): map<Key, nat> {
    map k | k in nudges && k in nudged :: nudges[k]
  }

  function SeenAt(lastSeen: map<Key, real>, keys: set<Key>, at: real): map<Key, real> {
    lastSeen + map k | k in keys :: at
  }

  function Longer(nudges: map<Key, nat>, keys: set<Key>): map<Key, nat> {
    nudges + map k | k in keys :: 1 + if k in nudges then nudges[k] else 0
  }

  /** A nudge pass finds its keys and drops every other key's streak; then its messages go out. */
  function ResendStep(w: Watch, now: real, staleAfter: real, includeD30: bool): Watch {
    if !w.connected then w
    else
      var nudged := StaleKeys(w, now, staleAfter, includeD30);
      w.(nudges := StillStale(w.nudges, nudged),
         resending := Some(Nudged(now, nudged, Escalated(w, nudged), staleAfter)))
  }

  /** The end of a nudge pass: its keys count as seen when it began, and their streaks grow. */
  function ResendSentStep(w: Watch): Watch {
    if w.resending.None? || !w.resending.value.Nudged? then w
    else
      var note := w.resending.value;
      w.(lastSeen := SeenAt(w.lastSeen, note.keys, note.at),
         nudges := Longer(w.nudges, note.keys),
         resending := None,
         log := w.log + [note])
  }

  // ---- runs ----------------------------------------------------------------------------------------

  predicate Busy(w: Watch) { w.resetting.Some? || w.resending.Some? }

  /** One handler at one time. The self-heal loop runs one call after the other, so neither of its
      calls begins while the messages of one are being sent. */
  function Next(w: Watch, e: Happening, now: real): Watch {
    if now < w.clock || (Busy(w) && (e.Recover? || e.Resend?)) then w
    else Handle(w, e, now).(clock := now)
  }

  function Handle(w: Watch, e: Happening, now: real): Watch {
    match e
    case Tick(key) => TickStep(w, key, now)
    case Desire(wishes) => w.(desired := wishes)
    case Tidy => TidyStep(w, now)
    case SetConnected(up) => w.(connected := up)
    case Recover(staleAfter, reconnectAfter) => RecoverStep(w, now, staleAfter, reconnectAfter)
    case ResetSent => ResetSentStep(w)
    case Resend(staleAfter, includeD30) => ResendStep(w, now, staleAfter, includeD30)
    case ResendSent => ResendSentStep(w)
  }

  function Run(w: Watch, steps: seq<(Happening, real)>): Watch
    decreases |steps|
  {
    if steps == [] then w else Run(Next(w, steps[0].0, steps[0].1), steps[1..])
  }

  const FRESH := Watch(NO_WISHES, false, map[], map[], 0, None, None, None, None, 0.0, [])

  // ---- what the log says ------------------------------------------------------------------------------

  /** The messages of a reset are on their way: it has begun and not ended. */
  predicate Sending(log: seq<Note>) {
    log != [] && (log[|log| - 1].ResetBegun? || (!log[|log| - 1].ResetEnded? && Sending(log[..|log| - 1])))
  }

  /** Where in the log the last reset began that neither a reconnect has followed nor a D30 tick once
      its messages were sent. */
  function OpenReset(log: seq<Note>): (i: Option<nat>)
    ensures i.Some? ==> i.value < |log| && log[i.value].ResetBegun?
  {
    if log == [] then None
    else match log[|log| - 1]
      case ResetBegun(_) => Some(|log| - 1)
      case ResetEnded => OpenReset(log[..|log| - 1])
      case Ticked(_, _, d30) => if d30 && !Sending(log[..|log| - 1]) then None else OpenReset(log[..|log| - 1])
      case Reconnected(_, _) => None
      case Nudged(_, _, _, _) => OpenReset(log[..|log| - 1])
  }

  predicate OpenSince(log: seq<Note>, at: real) { OpenReset(log).Some? && log[OpenReset(log).value].at == at }

  /** A tick of an instrument then wanted in D30. */
  predicate D30Tick(note: Note) { note.Ticked? && note.d30 }

  /** `log[i]` begins the last reset before `j`; up to `j` no reconnect followed it and no D30 tick
      once its messages were sent. */
  predicate Unanswered(log: seq<Note>, i: int, j: int) {
    0 <= i < j <= |log| && log[i].ResetBegun?
    && forall m :: i < m < j ==> !log[m].ResetBegun? && !log[m].Reconnected? && (D30Tick(log[m]) ==> Sending(log[..m]))
  }

  /** Such a reset that began at least `patience` seconds before `at`. */
  predicate ResetBefore(log: seq<Note>, j: int, at: real, patience: real)
    requires 0 <= j <= |log|
  {
    exists i :: 0 <= i < j && Unanswered(log, i, j) && at - log[i].at >= patience
  }

  /** No D30 tick came between `i` and `j`. */
  predicate NoD30Tick(log: seq<Note>, i: int, j: int)
    requires 0 <= i <= j <= |log|
  {
    forall m :: i < m < j ==> !D30Tick(log[m])
  }

  /** None of the D30 ticks between `i` and `j` came while a reset was being sent. */
  predicate NoneWhileSending(log: seq<Note>, i: int, j: int)
    requires 0 <= i <= j <= |log|
  {
    forall m :: i < m < j && D30Tick(log[m]) ==> !Sending(log[..m])
  }

  lemma {:induction false} OpenResetIsUnanswered(log: seq<Note>)
    requires OpenReset(log).Some?
    ensures Unanswered(log, OpenReset(log).value, |log|)
  {
    if !log[|log| - 1].ResetBegun? {
      var front := log[..|log| - 1];
      OpenResetIsUnanswered(front);
      var i := OpenReset(front).value;
      forall m | i < m < |log|
        ensures !log[m].ResetBegun? && !log[m].Reconnected? && (D30Tick(log[m]) ==> Sending(log[..m]))
      {
        if m < |front| { assert front[m] == log[m] && front[..m] == log[..m]; }
      }
    }
  }

  ghost predicate ReconnectsOk(log: seq<Note>) {
    && (forall j :: 0 <= j < |log| && log[j].Reconnected? ==> ResetBefore(log, j, log[j].at, log[j].patience))
    && (forall i, j :: 0 <= i < j < |log| && log[i].Reconnected? && log[j].Reconnected? ==> log[j].at - log[i].at >= RECONNECT_COOLDOWN)
  }

  ghost predicate NudgesOk(log: seq<Note>) {
    forall i, j, k :: 0 <= i < j < |log| && NudgedIn(log[i], k) && NudgedIn(log[j], k) ==> log[j].at - log[i].at >= log[j].staleAfter
  }

  predicate NudgedIn(note: Note, k: Key) { note.Nudged? && k in note.keys }

  /** The keys the last pass nudged. */
  function LastNudged(log: seq<Note>): set<Key> {
    if log == [] then {} else if log[|log| - 1].Nudged? then log[|log| - 1].keys else LastNudged(log[..|log| - 1])
  }

  /** A key is escalated only if the pass before nudged it too. */
  ghost predicate EscalationsOk(log: seq<Note>) {
    forall j :: 0 <= j < |log| && log[j].Nudged? ==> log[j].escalated <= log[j].keys && log[j].escalated <= LastNudged(log[..j])
  }

  ghost predicate LogOk(log: seq<Note>) { ReconnectsOk(log) && NudgesOk(log) && EscalationsOk(log) }

  ghost predicate Inv(w: Watch) {
    && LogOk(w.log)
    && w.clock >= 0.0
    && ResetKnown(w)
    && (w.started.Some? ==> 0.0 <= w.started.value <= w.clock)
    && (w.resetting.Some? ==> 0.0 <= w.resetting.value <= w.clock)
    && ReconnectsKnown(w) && NudgesKnown(w)
    && w.nudges.Keys <= LastNudged(w.log)
    && (w.resending.Some? ==> PassOk(w, w.resending.value))
  }

  /** The log tells which reset is being sent or waits for an answer. */
  ghost predicate ResetKnown(w: Watch) {
    && (w.resetting.Some? <==> Sending(w.log))
    && (w.resetting.Some? ==> w.stage == 0 && OpenSince(w.log, w.resetting.value))
    && (w.stage == 1 ==> w.started.Some? && OpenSince(w.log, w.started.value))
  }

  /** What holds of a nudge pass while its messages go out. */
  ghost predicate PassOk(w: Watch, pass: Note) {
    && pass.Nudged? && pass.at <= w.clock
    && pass.escalated <= pass.keys && pass.escalated <= LastNudged(w.log) && w.nudges.Keys <= pass.keys
    && SpacedFrom(w.log, pass)
  }

  ghost predicate SpacedFrom(log: seq<Note>, pass: Note)
    requires pass.Nudged?
  {
    && (forall i, k :: 0 <= i < |log| && NudgedIn(log[i], k) && k in pass.keys ==> pass.at - log[i].at >= pass.staleAfter)
    && (forall i, k :: 0 <= i < |log| && NudgedIn(log[i], k) ==> log[i].at <= pass.at)
  }

  lemma SpacedStill(log: seq<Note>, note: Note, pass: Note)
    requires pass.Nudged? && SpacedFrom(log, pass) && !note.Nudged?
    ensures SpacedFrom(log + [note], pass)
  {
  }

  ghost predicate ReconnectsKnown(w: Watch) {
    forall i :: 0 <= i < |w.log| && w.log[i].Reconnected? ==> w.lastReconnect.Some? && w.log[i].at <= w.lastReconnect.value
  }

  ghost predicate NudgesKnown(w: Watch) {
    forall i, k :: 0 <= i < |w.log| && NudgedIn(w.log[i], k) ==> NotSince(w, w.log[i].at, k)
  }

  /** A key nudged at `at` has a timestamp at least that late, if it has one. */
  predicate NotSince(w: Watch, at: real, k: Key) {
    at <= w.clock && (k in w.lastSeen ==> at <= w.lastSeen[k] <= w.clock)
  }

  // ---- one step ------------------------------------------------------------------------------------

  lemma LogGrows(log: seq<Note>, note: Note)
    requires LogOk(log)
    requires note.Reconnected? ==> ResetBefore(log, |log|, note.at, note.patience)
    requires note.Reconnected? ==> forall i :: 0 <= i < |log| && log[i].Reconnected? ==> note.at - log[i].at >= RECONNECT_COOLDOWN
    requires note.Nudged? ==> note.escalated <= note.keys && note.escalated <= LastNudged(log)
    requires note.Nudged? ==> forall i, k :: 0 <= i < |log| && NudgedIn(log[i], k) && k in note.keys ==> note.at - log[i].at >= note.staleAfter
    ensures LogOk(log + [note])
  {
    var longer := log + [note];
    forall j | 0 <= j < |longer| && longer[j].Reconnected? ensures ResetBefore(longer, j, longer[j].at, longer[j].patience) {
      StillBefore(log, note, j, longer[j].at, longer[j].patience);
    }
    forall j | 0 <= j < |longer| && longer[j].Nudged? ensures longer[j].escalated <= longer[j].keys && longer[j].escalated <= LastNudged(longer[..j]) {
      assert longer[..j] == log[..j];
      assert log[..|log|] == log;
    }
  }

  lemma StillBefore(log: seq<Note>, note: Note, j: int, at: real, patience: real)
    requires 0 <= j <= |log| && ResetBefore(log, j, at, patience)
    ensures ResetBefore(log + [note], j, at, patience)
  {
    var i :| 0 <= i < j && Unanswered(log, i, j) && at - log[i].at >= patience;
    forall m | i < m < j ensures (log + [note])[..m] == log[..m] {}
    assert Unanswered(log + [note], i, j);
  }

  lemma LastAfter(log: seq<Note>, note: Note)
    ensures LastNudged(log + [note]) == if note.Nudged? then note.keys else LastNudged(log)
    ensures Sending(log + [note]) <==> note.ResetBegun? || (!note.ResetEnded? && Sending(log))
    ensures OpenReset(log + [note])
         == match note
            case ResetBegun(_) => Some(|log|)
            case ResetEnded => OpenReset(log)
            case Ticked(_, _, d30) => if d30 && !Sending(log) then None else OpenReset(log)
            case Reconnected(_, _) => None
            case Nudged(_, _, _, _) => OpenReset(log)
  {
    assert (log + [note])[..|log|] == log;
  }

  lemma TickKeepsInv(w: Watch, key: Key, now: real)
    requires Inv(w) && w.clock <= now
    ensures Inv(TickStep(w, key, now).(clock := now))
  {
    var note := Ticked(now, key, key in w.desired.d30);
    LogGrows(w.log, note);
    LastAfter(w.log, note);
    if w.resending.Some? { SpacedStill(w.log, note, w.resending.value); }
    TickIsKnown(w, key, now);
  }

  lemma TickIsKnown(w: Watch, key: Key, now: real)
    requires NudgesKnown(w) && ReconnectsKnown(w) && w.clock <= now
    ensures NudgesKnown(TickStep(w, key, now).(clock := now)) && ReconnectsKnown(TickStep(w, key, now).(clock := now))
  {
    var w' := TickStep(w, key, now).(clock := now);
    forall i, k | 0 <= i < |w'.log| && NudgedIn(w'.log[i], k) ensures NotSince(w', w'.log[i].at, k) {
      assert i < |w.log| && NudgedIn(w.log[i], k) && NotSince(w, w.log[i].at, k);
    }
  }

  lemma TidyKeepsInv(w: Watch, now: real)
    requires Inv(w) && w.clock <= now
    ensures Inv(TidyStep(w, now).(clock := now))
  {
  }

  lemma StillKnown(w: Watch, w': Watch, note: Note)
    requires NudgesKnown(w) && ReconnectsKnown(w) && !note.Nudged? && w'.log == w.log + [note] && w'.lastSeen == w.lastSeen && w.clock <= w'.clock
    ensures NudgesKnown(w')
    ensures !note.Reconnected? && w'.lastReconnect == w.lastReconnect ==> ReconnectsKnown(w')
  {
  }

  lemma ReconnectKeepsInv(w: Watch, now: real, reconnectAfter: real)
    requires Inv(w) && w.clock <= now && w.stage == 1 && now - StartedOr(w, now) >= reconnectAfter
    requires w.lastReconnect.None? || now - w.lastReconnect.value >= RECONNECT_COOLDOWN
    ensures Inv(w.(stage := 2, lastReconnect := Some(now), connected := false, log := w.log + [Reconnected(now, reconnectAfter)], clock := now))
  {
    var note := Reconnected(now, reconnectAfter);
    OpenResetIsUnanswered(w.log);
    assert now - w.log[OpenReset(w.log).value].at >= reconnectAfter;
    LogGrows(w.log, note);
    LastAfter(w.log, note);
    if w.resending.Some? { SpacedStill(w.log, note, w.resending.value); }
    var w' := w.(stage := 2, lastReconnect := Some(now), connected := false, log := w.log + [note], clock := now);
    StillKnown(w, w', note);
  }

  lemma NothingLogged(w: Watch, stage: nat, started: Option<real>, now: real)
    requires Inv(w) && w.clock <= now
    requires (stage == w.stage && started == w.started) || (stage == 0 && started == None)
    ensures Inv(w.(stage := stage, started := started, clock := now))
  {
  }

  /** A reset begins or ends. */
  lemma ResetNoteKeepsInv(w: Watch, w': Watch, note: Note)
    requires Inv(w) && w.clock <= w'.clock && (note.ResetBegun? || note.ResetEnded?)
    requires w' == w.(stage := w'.stage, started := w'.started, resetting := w'.resetting, log := w.log + [note], clock := w'.clock)
    requires ResetKnown(w')
    requires w'.started.Some? ==> 0.0 <= w'.started.value <= w'.clock
    requires w'.resetting.Some? ==> 0.0 <= w'.resetting.value <= w'.clock
    ensures Inv(w')
  {
    LogGrows(w.log, note);
    LastAfter(w.log, note);
    StillKnown(w, w', note);
    if w.resending.Some? { SpacedStill(w.log, note, w.resending.value); }
  }

  lemma ResubscribeKeepsInv(w: Watch, now: real)
    requires Inv(w) && w.clock <= now && w.stage == 0 && w.resetting.None?
    ensures Inv(w.(resetting := Some(now), log := w.log + [ResetBegun(now)], clock := now))
  {
    LastAfter(w.log, ResetBegun(now));
    ResetNoteKeepsInv(w, w.(resetting := Some(now), log := w.log + [ResetBegun(now)], clock := now), ResetBegun(now));
  }

  lemma RecoverKeepsInv(w: Watch, now: real, staleAfter: real, reconnectAfter: real)
    requires Inv(w) && w.clock <= now && w.resetting.None?
    ensures Inv(RecoverStep(w, now, staleAfter, reconnectAfter).(clock := now))
  {
    if !w.connected || w.desired.d30 == {} {
      NothingLogged(w, 0, None, now);
    } else {
      match RecoverAction(w, now, staleAfter, reconnectAfter)
      case Reconnect => ReconnectKeepsInv(w, now, reconnectAfter);
      case Resubscribe => ResubscribeKeepsInv(w, now);
      case _ => NothingLogged(w, w.stage, w.started, now);
    }
  }

  lemma ResetKeepsInv(w: Watch, now: real)
    requires Inv(w) && w.clock <= now
    ensures Inv(ResetSentStep(w).(clock := now))
  {
    if w.resetting.None? {
      NothingLogged(w, w.stage, w.started, now);
    } else {
      LastAfter(w.log, ResetEnded);
      ResetNoteKeepsInv(w, w.(stage := 1, started := w.resetting, resetting := None, log := w.log + [ResetEnded], clock := now), ResetEnded);
    }
  }

  lemma ResendKeepsInv(w: Watch, now: real, staleAfter: real, includeD30: bool)
    requires Inv(w) && w.clock <= now
    ensures Inv(ResendStep(w, now, staleAfter, includeD30).(clock := now))
  {
    var w' := ResendStep(w, now, staleAfter, includeD30).(clock := now);
    assert NudgesKnown(w') by {
      forall i, k | 0 <= i < |w.log| && NudgedIn(w.log[i], k) ensures NotSince(w', w.log[i].at, k) { assert NotSince(w, w.log[i].at, k); }
    }
    if w.connected {
      var pass := w'.resending.value;
      forall i, k | 0 <= i < |w.log| && NudgedIn(w.log[i], k)
        ensures w.log[i].at <= now && (k in pass.keys ==> now - w.log[i].at >= staleAfter)
      {
        assert NotSince(w, w.log[i].at, k) && (k in pass.keys ==> Stale(w, k, now, staleAfter));
      }
      assert PassOk(w', pass);
    }
  }

  /** The keys of a pass that ends count as seen when it began. */
  lemma PassIsKnown(w: Watch, w': Watch, pass: Note)
    requires NudgesKnown(w) && pass.Nudged? && pass.at <= w.clock <= w'.clock && SpacedFrom(w.log, pass)
    requires w'.log == w.log + [pass] && w'.lastSeen == SeenAt(w.lastSeen, pass.keys, pass.at)
    ensures NudgesKnown(w')
  {
    forall i, k | 0 <= i < |w'.log| && NudgedIn(w'.log[i], k) ensures NotSince(w', w'.log[i].at, k) {
      if i < |w.log| { assert NudgedIn(w.log[i], k) && NotSince(w, w.log[i].at, k); }
    }
  }

  lemma ResendSentKeepsInv(w: Watch, now: real)
    requires Inv(w) && w.clock <= now
    ensures Inv(ResendSentStep(w).(clock := now))
  {
    if w.resending.Some? {
      var note := w.resending.value;
      var w' := ResendSentStep(w).(clock := now);
      LogGrows(w.log, note);
      LastAfter(w.log, note);
      PassIsKnown(w, w', note);
      assert ResetKnown(w');
    } else {
      NothingLogged(w, w.stage, w.started, now);
    }
  }

  lemma StepKeepsInv(w: Watch, e: Happening, now: real)
    requires Inv(w)
    ensures Inv(Next(w, e, now))
  {
    if !(now < w.clock || (Busy(w) && (e.Recover? || e.Resend?))) {
      match e
      case Tick(key) => TickKeepsInv(w, key, now);
      case Desire(_) =>
      case Tidy => TidyKeepsInv(w, now);
      case SetConnected(_) =>
      case Recover(staleAfter, reconnectAfter) => RecoverKeepsInv(w, now, staleAfter, reconnectAfter);
      case ResetSent => ResetKeepsInv(w, now);
      case Resend(staleAfter, includeD30) => ResendKeepsInv(w, now, staleAfter, includeD30);
      case ResendSent => ResendSentKeepsInv(w, now);
    }
  }

  lemma {:induction false} RunKeepsInv(w: Watch, steps: seq<(Happening, real)>)
    requires Inv(w)
    ensures Inv(Run(w, steps))
    decreases |steps|
  {
    if steps != [] {
      StepKeepsInv(w, steps[0].0, steps[0].1);
      RunKeepsInv(Next(w, steps[0].0, steps[0].1), steps[1..]);
    }
  }

  // ---- theorems --------------------------------------------------------------------------------------

  /** Every reconnect follows a D30 reset: the last one begun before it, at least the patience of that
      call earlier, with no other reconnect since and no D30 tick once its messages were sent. That no
      D30 tick came since the reset began holds exactly when none was handled while its two messages
      were being sent: the end of a reset overwrites what such a tick had cleared. */
  lemma ReconnectsFollowResets(steps: seq<(Happening, real)>, j: nat)
    requires j < |Run(FRESH, steps).log| && Run(FRESH, steps).log[j].Reconnected?
    ensures var log := Run(FRESH, steps).log;
            exists i :: 0 <= i < j && Unanswered(log, i, j) && log[j].at - log[i].at >= log[j].patience
                        && (NoD30Tick(log, i, j) <==> NoneWhileSending(log, i, j))
  {
    RunKeepsInv(FRESH, steps);
    var log := Run(FRESH, steps).log;
    var i :| 0 <= i < j && Unanswered(log, i, j) && log[j].at - log[i].at >= log[j].patience;
    if m :| i < m < j && D30Tick(log[m]) { assert Sending(log[..m]); }
  }

  lemma RunFrom(w: Watch, steps: seq<(Happening, real)>, i: nat)
    requires i < |steps|
    ensures Run(w, steps[i..]) == Run(Next(w, steps[i].0, steps[i].1), steps[i + 1..])
  {
    assert steps[i..][1..] == steps[i + 1..];
  }

  lemma StallOfOne(w: Watch, k: Key, f: Key, now: real)
    requires k != f && w.desired == Wishes({k}, {f}, {}) && k in w.lastSeen && f in w.lastSeen
    requires now - w.lastSeen[k] >= 20.0 && w.lastSeen[f] == now
    ensures D30Stalled(w, now, 20.0)
  {
    assert f in w.desired.full + w.desired.ltpc;
  }

  lemma SecondStall(w: Watch, k: Key, f: Key, steps: seq<(Happening, real)>)
    requires k != f && steps == [(Tick(k), 31.0), (ResetSent, 32.0), (Tick(f), 60.0), (Recover(20.0, 10.0), 60.0)]
    requires w.desired == Wishes({k}, {f}, {}) && w.connected && w.clock == 30.0 && !w.resending.Some? && w.lastReconnect.None?
    requires w.resetting == Some(30.0)
    ensures Run(w, steps).log == w.log + [Ticked(31.0, k, true), ResetEnded, Ticked(60.0, f, false), Reconnected(60.0, 10.0)]
  {
    assert steps[0..] == steps && steps[4..] == [];
    var w1 := w.(lastSeen := w.lastSeen[k := 31.0], clock := 31.0, stage := 0, started := None, log := w.log + [Ticked(31.0, k, true)]);
    assert Next(w, Tick(k), 31.0) == w1;
    RunFrom(w, steps, 0);
    var w2 := w1.(stage := 1, started := Some(30.0), resetting := None, clock := 32.0, log := w1.log + [ResetEnded]);
    assert Next(w1, ResetSent, 32.0) == w2;
    RunFrom(w1, steps, 1);
    var w3 := w2.(lastSeen := w2.lastSeen[f := 60.0], clock := 60.0, log := w2.log + [Ticked(60.0, f, false)]);
    assert Next(w2, Tick(f), 60.0) == w3;
    RunFrom(w2, steps, 2);
    StallOfOne(w3, k, f, 60.0);
    assert Next(w3, Recover(20.0, 10.0), 60.0).log == w3.log + [Reconnected(60.0, 10.0)];
    RunFrom(w3, steps, 3);
  }

  /** A reconnect although a D30 key ticked after the reset began: the tick came between the reset's
      two messages. */
  lemma TickWhileSendingIsLost(k: Key, f: Key)
    requires k != f
    ensures Run(FRESH, [(Desire(Wishes({k}, {f}, {})), 0.0), (SetConnected(true), 0.0), (Tick(k), 1.0), (Tick(f), 30.0),
                        (Recover(20.0, 10.0), 30.0), (Tick(k), 31.0), (ResetSent, 32.0), (Tick(f), 60.0), (Recover(20.0, 10.0), 60.0)]).log
         == [Ticked(1.0, k, true), Ticked(30.0, f, false), ResetBegun(30.0), Ticked(31.0, k, true), ResetEnded,
             Ticked(60.0, f, false), Reconnected(60.0, 10.0)]
  {
    var steps := [(Desire(Wishes({k}, {f}, {})), 0.0), (SetConnected(true), 0.0), (Tick(k), 1.0), (Tick(f), 30.0),
                  (Recover(20.0, 10.0), 30.0), (Tick(k), 31.0), (ResetSent, 32.0), (Tick(f), 60.0), (Recover(20.0, 10.0), 60.0)];
    var w0 := FRESH.(desired := Wishes({k}, {f}, {}), connected := true);
    assert steps[0..] == steps;
    RunFrom(FRESH, steps, 0);
    RunFrom(FRESH.(desired := Wishes({k}, {f}, {})), steps, 1);
    var w1 := w0.(lastSeen := map[k := 1.0], clock := 1.0, log := [Ticked(1.0, k, true)]);
    assert Next(w0, Tick(k), 1.0) == w1;
    RunFrom(w0, steps, 2);
    var w2 := w1.(lastSeen := map[k := 1.0, f := 30.0], clock := 30.0, log := [Ticked(1.0, k, true), Ticked(30.0, f, false)]);
    assert Next(w1, Tick(f), 30.0) == w2;
    RunFrom(w1, steps, 3);
    StallOfOne(w2, k, f, 30.0);
    var w3 := w2.(resetting := Some(30.0), log := w2.log + [ResetBegun(30.0)]);
    assert Next(w2, Recover(20.0, 10.0), 30.0) == w3;
    RunFrom(w2, steps, 4);
    SecondStall(w3, k, f, steps[5..]);
  }

  /** Two reconnects are at least a minute apart. */
  lemma ReconnectsAreRare(steps: seq<(Happening, real)>, i: nat, j: nat)
    requires i < j < |Run(FRESH, steps).log| && Run(FRESH, steps).log[i].Reconnected? && Run(FRESH, steps).log[j].Reconnected?
    ensures Run(FRESH, steps).log[j].at - Run(FRESH, steps).log[i].at >= 60.0
  {
    RunKeepsInv(FRESH, steps);
  }

  /** No key is nudged twice within one stale window. */
  lemma NudgedOncePerWindow(steps: seq<(Happening, real)>, i: nat, j: nat, k: Key)
    requires i < j < |Run(FRESH, steps).log| && NudgedIn(Run(FRESH, steps).log[i], k) && NudgedIn(Run(FRESH, steps).log[j], k)
    ensures Run(FRESH, steps).log[j].at - Run(FRESH, steps).log[i].at >= Run(FRESH, steps).log[j].staleAfter
  {
    RunKeepsInv(FRESH, steps);
  }

  /** A key is only ever unsubscribed by a nudge when the pass before was at least a stale window
      earlier: with passes closer together than the window the escalation never happens. */
  lemma EscalationNeedsSlowPasses(steps: seq<(Happening, real)>, i: nat, j: nat, k: Key)
    requires i < j < |Run(FRESH, steps).log| && Run(FRESH, steps).log[i].Nudged? && Run(FRESH, steps).log[j].Nudged?
    requires forall m :: i < m < j ==> !Run(FRESH, steps).log[m].Nudged?
    requires k in Run(FRESH, steps).log[j].escalated
    ensures Run(FRESH, steps).log[j].at - Run(FRESH, steps).log[i].at >= Run(FRESH, steps).log[j].staleAfter
  {
    var log := Run(FRESH, steps).log;
    RunKeepsInv(FRESH, steps);
    LastNudgedIs(log[..j], i);
    assert log[..j][i] == log[i];
    assert NudgedIn(log[i], k) && NudgedIn(log[j], k);
  }

  lemma {:induction false} LastNudgedIs(log: seq<Note>, i: nat)
    requires i < |log| && log[i].Nudged? && forall m :: i < m < |log| ==> !log[m].Nudged?
    ensures LastNudged(log) == log[i].keys
  {
    if i < |log| - 1 { LastNudgedIs(log[..|log| - 1], i); }
  }
}
