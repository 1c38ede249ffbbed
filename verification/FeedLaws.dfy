/** When the feed client resets, reconnects and nudges, said from the history of a run: what ticked,
    what was nudged and what was tidied up, and when. */
module FeedLaws {
  import opened Trading
  import opened FeedWire
  import opened FeedRecovery
  import FeedRefinement
  import FeedClient

  type History = seq<(Happening, real)>

  // ---- the last sign of life -------------------------------------------------------------------------

  function Here(steps: History): Watch { FeedRecovery.Run(FRESH, steps) }

  /** A handler runs unless the clock would go back or the self-heal loop is busy with another call. */
  predicate Runs(w: Watch, e: Happening, now: real) { w.clock <= now && !(Busy(w) && (e.Recover? || e.Resend?)) }

  /** When `k` was last heard of: its last tick, or the beginning of the last pass that nudged it, or the
      end of the replacement that first wanted it. A replacement that no longer wants it forgets. */
  function LastSign(steps: History, k: Key): Option<real>
    decreases |steps|
  {
    if steps == [] then None
    else
      var before, w, now := LastSign(steps[..|steps| - 1], k), Here(steps[..|steps| - 1]), steps[|steps| - 1].1;
      if now < w.clock then before
      else match steps[|steps| - 1].0
        case Tick(key) => if key == k then Some(now) else before
        case Tidy => if Wanted(w.desired, k).None? then None else if before.None? then Some(now) else before
        case ResendSent => if w.resending.Some? && NudgedIn(w.resending.value, k) then Some(w.resending.value.at) else before
        case _ => before
  }

  lemma HereAfter(steps: History)
    requires steps != []
    ensures Here(steps) == FeedRecovery.Next(Here(steps[..|steps| - 1]), steps[|steps| - 1].0, steps[|steps| - 1].1)
  {
    assert steps == steps[..|steps| - 1] + [steps[|steps| - 1]];
    FeedClient.WatchRunSnoc(FRESH, steps[..|steps| - 1], steps[|steps| - 1]);
  }

  /** The timestamps are the last signs. */
  lemma {:induction false} TimestampsAreSigns(steps: History, k: Key)
    ensures At(Here(steps).lastSeen, k) == LastSign(steps, k)
    decreases |steps|
  {
    if steps != [] {
      TimestampsAreSigns(steps[..|steps| - 1], k);
      HereAfter(steps);
      SignAfter(Here(steps[..|steps| - 1]), steps[|steps| - 1].0, steps[|steps| - 1].1, k);
    }
  }

  lemma SignAfter(w: Watch, e: Happening, now: real, k: Key)
    ensures At(FeedRecovery.Next(w, e, now).lastSeen, k)
            == if now < w.clock then At(w.lastSeen, k)
               else match e
                 case Tick(key) => if key == k then Some(now) else At(w.lastSeen, k)
                 case Tidy => if Wanted(w.desired, k).None? then None else if k in w.lastSeen then At(w.lastSeen, k) else Some(now)
                 case ResendSent => if w.resending.Some? && NudgedIn(w.resending.value, k) then Some(w.resending.value.at) else At(w.lastSeen, k)
                 case _ => At(w.lastSeen, k)
  {
  }

  // ---- resets and reconnects -------------------------------------------------------------------------

  /** How long `k` has been quiet; a key never heard of counts as heard at `otherwise`. */
  function QuietFor(steps: History, k: Key, now: real, otherwise: real): real {
    now - if LastSign(steps, k).Some? then LastSign(steps, k).value else otherwise
  }

  /** The D30 keys, and there are some, have all been quiet that long, and some other wanted key has not. */
  ghost predicate OnlyD30IsQuiet(steps: History, now: real, staleAfter: real) {
    var wanted := Here(steps).desired;
    && (exists k :: Wanted(wanted, k) == Some(D30))
    && (forall k :: Wanted(wanted, k) == Some(D30) ==> QuietFor(steps, k, now, now) >= staleAfter)
    && (exists k :: Wanted(wanted, k) in {Some(FULL), Some(LTPC)} && QuietFor(steps, k, now, 0.0) < staleAfter)
  }

  lemma StalledIff(steps: History, now: real, staleAfter: real)
    requires Disjoint(Here(steps).desired)
    ensures Here(steps).desired.d30 != {} && D30Stalled(Here(steps), now, staleAfter) <==> OnlyD30IsQuiet(steps, now, staleAfter)
  {
    var w := Here(steps);
    forall k ensures At(w.lastSeen, k) == LastSign(steps, k) { TimestampsAreSigns(steps, k); }
    forall k ensures (k in w.desired.d30 <==> Wanted(w.desired, k) == Some(D30))
                     && (k in w.desired.full + w.desired.ltpc <==> Wanted(w.desired, k) in {Some(FULL), Some(LTPC)}) {}
    forall k ensures now - Seen(w.lastSeen, k, now) == QuietFor(steps, k, now, now) && now - Seen(w.lastSeen, k, 0.0) == QuietFor(steps, k, now, 0.0) {}
    if w.desired.d30 != {} { var k :| k in w.desired.d30; assert Wanted(w.desired, k) == Some(D30); }
    if D30Stalled(w, now, staleAfter) && w.desired.d30 != {} {
      var f :| f in w.desired.full + w.desired.ltpc && now - Seen(w.lastSeen, f, 0.0) < staleAfter;
      assert Wanted(w.desired, f) in {Some(FULL), Some(LTPC)} && QuietFor(steps, f, now, 0.0) < staleAfter;
      forall k | Wanted(w.desired, k) == Some(D30) ensures QuietFor(steps, k, now, now) >= staleAfter { assert Stale(w, k, now, staleAfter); }
    }
    if OnlyD30IsQuiet(steps, now, staleAfter) {
      var f :| Wanted(w.desired, f) in {Some(FULL), Some(LTPC)} && QuietFor(steps, f, now, 0.0) < staleAfter;
      assert f in w.desired.full + w.desired.ltpc && now - Seen(w.lastSeen, f, 0.0) < staleAfter;
    }
  }

  /** Only wishes the manager sends: each key in one mode. */
  predicate SaneWishes(steps: History) { forall i :: 0 <= i < |steps| && steps[i].0.Desire? ==> Disjoint(steps[i].0.wishes) }

  lemma {:induction false} WishesStaySane(steps: History)
    requires SaneWishes(steps)
    ensures Disjoint(Here(steps).desired)
    decreases |steps|
  {
    if steps != [] {
      var front := steps[..|steps| - 1];
      assert forall i :: 0 <= i < |front| ==> front[i] == steps[i];
      WishesStaySane(front);
      HereAfter(steps);
    }
  }

  /** Where a recovery stands: not begun; a reset, begun at `since`, is out; or the socket was dropped. */
  datatype Recovery = Idle | ResetOut(since: real) | Dropped

  /** A reset is out once its messages are. A tick of a wanted D30 key, or a call that finds the client
      disconnected or no D30 key wanted, ends a recovery. */
  function RecoveryOf(steps: History): Recovery
    decreases |steps|
  {
    if steps == [] then Idle
    else
      var before, w, now := RecoveryOf(steps[..|steps| - 1]), Here(steps[..|steps| - 1]), steps[|steps| - 1].1;
      if !Runs(w, steps[|steps| - 1].0, now) then before
      else match steps[|steps| - 1].0
        case Tick(key) => if Wanted(w.desired, key) == Some(D30) then Idle else before
        case ResetSent => if w.resetting.Some? then ResetOut(w.resetting.value) else before
        case Recover(_, _) => if !w.connected || w.desired.d30 == {} then Idle else if Drops(w.log, Here(steps).log) then Dropped else before
        case _ => before
  }

  predicate Drops(log: seq<Note>, log': seq<Note>) { |log'| > |log| && log'[|log'| - 1].Reconnected? }

  function LastDrop(log: seq<Note>): Option<real> {
    if log == [] then None else if log[|log| - 1].Reconnected? then Some(log[|log| - 1].at) else LastDrop(log[..|log| - 1])
  }

  predicate Stands(w: Watch, recovery: Recovery) {
    && (w.stage == match recovery case Idle => 0 case ResetOut(_) => 1 case Dropped => 2)
    && (recovery.ResetOut? ==> w.started == Some(recovery.since))
    && w.lastReconnect == LastDrop(w.log)
    && (w.resending.Some? ==> w.resending.value.Nudged?)
  }

  lemma LastDropMore(log: seq<Note>, note: Note)
    ensures LastDrop(log + [note]) == if note.Reconnected? then Some(note.at) else LastDrop(log)
  {
    assert (log + [note])[..|log|] == log;
  }

  lemma StandsAfter(w: Watch, e: Happening, now: real, before: Recovery, after: Recovery)
    requires Stands(w, before)
    requires after == if !Runs(w, e, now) then before
                      else match e
                        case Tick(key) => if Wanted(w.desired, key) == Some(D30) then Idle else before
                        case ResetSent => if w.resetting.Some? then ResetOut(w.resetting.value) else before
                        case Recover(_, _) => if !w.connected || w.desired.d30 == {} then Idle
                                              else if Drops(w.log, FeedRecovery.Next(w, e, now).log) then Dropped else before
                        case _ => before
    ensures Stands(FeedRecovery.Next(w, e, now), after)
  {
    var w' := FeedRecovery.Next(w, e, now);
    if w'.log != w.log {
      LogsOne(w, e, now);
      LastDropMore(w.log, w'.log[|w.log|]);
    }
  }

  lemma LogsOne(w: Watch, e: Happening, now: real)
    requires w.resending.Some? ==> w.resending.value.Nudged?
    ensures var log := FeedRecovery.Next(w, e, now).log;
            log == w.log || (|log| == |w.log| + 1 && log == w.log + [log[|w.log|]])
  {
  }

  lemma {:induction false} RecoveryStands(steps: History)
    ensures Stands(Here(steps), RecoveryOf(steps))
    decreases |steps|
  {
    if steps != [] {
      var front := steps[..|steps| - 1];
      RecoveryStands(front);
      HereAfter(steps);
      StandsAfter(Here(front), steps[|steps| - 1].0, steps[|steps| - 1].1, RecoveryOf(front), RecoveryOf(steps));
    }
  }

  /** A recovery call begins a D30 reset exactly when the client is connected and not already recovering,
      all its D30 keys have been quiet for `staleAfter` and some other wanted key has not. */
  lemma ResetBeginsIff(steps: History, staleAfter: real, reconnectAfter: real, now: real)
    requires SaneWishes(steps)
    ensures var w := Here(steps);
            var e := Recover(staleAfter, reconnectAfter);
            ResetBegun(now) in FeedRecovery.Next(w, e, now).log[|w.log|..]
            <==> Runs(w, e, now) && w.connected && RecoveryOf(steps).Idle? && OnlyD30IsQuiet(steps, now, staleAfter)
  {
    WishesStaySane(steps);
    StalledIff(steps, now, staleAfter);
    RecoveryStands(steps);
  }

  /** It drops the socket exactly in the same silence, once a reset is out, `reconnectAfter` after that
      began, and sixty seconds after the last time it did. A beginning at clock zero reads as none. */
  lemma ReconnectsIff(steps: History, staleAfter: real, reconnectAfter: real, now: real)
    requires SaneWishes(steps)
    ensures var w, recovery := Here(steps), RecoveryOf(steps);
            var e := Recover(staleAfter, reconnectAfter);
            Reconnected(now, reconnectAfter) in FeedRecovery.Next(w, e, now).log[|w.log|..]
            <==> && Runs(w, e, now) && w.connected && OnlyD30IsQuiet(steps, now, staleAfter)
                 && recovery.ResetOut? && now - (if recovery.since == 0.0 then now else recovery.since) >= reconnectAfter
                 && (LastDrop(w.log).Some? ==> now - LastDrop(w.log).value >= 60.0)
  {
    WishesStaySane(steps);
    StalledIff(steps, now, staleAfter);
    RecoveryStands(steps);
  }

  /** No other handler begins a reset or drops the socket. */
  lemma OnlyRecoverHeals(w: Watch, e: Happening, now: real, note: Note)
    requires note in FeedRecovery.Next(w, e, now).log[|w.log|..] && (note.ResetBegun? || note.Reconnected?)
    requires w.resending.Some? ==> w.resending.value.Nudged?
    ensures e.Recover? && note.at == now
  {
  }

  // ---- nudges ------------------------------------------------------------------------------------------

  /** How many passes in a row have nudged `k`. A pass that leaves it out, or a replacement that no longer
      wants a key it had heard of, starts over. */
  function StreakOf(steps: History, k: Key): nat
    decreases |steps|
  {
    if steps == [] then 0
    else
      var before, w, now := StreakOf(steps[..|steps| - 1], k), Here(steps[..|steps| - 1]), steps[|steps| - 1].1;
      if !Runs(w, steps[|steps| - 1].0, now) then before
      else match steps[|steps| - 1].0
        case Tidy => if Wanted(w.desired, k).None? && LastSign(steps[..|steps| - 1], k).Some? then 0 else before
        case Resend(staleAfter, includeD30) => if !w.connected || MustNudge(steps[..|steps| - 1], k, now, staleAfter, includeD30) then before else 0
        case ResendSent => if w.resending.Some? && NudgedIn(w.resending.value, k) then before + 1 else before
        case _ => before
  }

  /** Wanted and quiet for too long; D30 keys can be left to the recovery. */
  predicate MustNudge(steps: History, k: Key, now: real, staleAfter: real, includeD30: bool) {
    var mode := Wanted(Here(steps).desired, k);
    mode.Some? && QuietFor(steps, k, now, now) >= staleAfter && (includeD30 || mode != Some(D30))
  }

  lemma NudgedIff(steps: History, k: Key, now: real, staleAfter: real, includeD30: bool)
    requires Disjoint(Here(steps).desired)
    ensures k in StaleKeys(Here(steps), now, staleAfter, includeD30) <==> MustNudge(steps, k, now, staleAfter, includeD30)
  {
    TimestampsAreSigns(steps, k);
  }

  lemma {:induction false} NudgesAreStreaks(steps: History, k: Key)
    requires SaneWishes(steps)
    ensures StreakOf(steps, k) == if k in Here(steps).nudges then Here(steps).nudges[k] else 0
    decreases |steps|
  {
    if steps != [] {
      var front, e, now := steps[..|steps| - 1], steps[|steps| - 1].0, steps[|steps| - 1].1;
      assert forall i :: 0 <= i < |front| ==> front[i] == steps[i];
      NudgesAreStreaks(front, k);
      HereAfter(steps);
      WishesStaySane(front);
      TimestampsAreSigns(front, k);
      if e.Resend? { NudgedIff(front, k, now, e.staleAfter, e.includeD30); }
      StreakAfter(Here(front), e, now, k);
    }
  }

  function CountOf(w: Watch, k: Key): nat { if k in w.nudges then w.nudges[k] else 0 }

  lemma StreakAfter(w: Watch, e: Happening, now: real, k: Key)
    ensures CountOf(FeedRecovery.Next(w, e, now), k)
            == if !Runs(w, e, now) then CountOf(w, k)
               else match e
                 case Tidy => if Wanted(w.desired, k).None? && k in w.lastSeen then 0 else CountOf(w, k)
                 case Resend(staleAfter, includeD30) => if !w.connected || k in StaleKeys(w, now, staleAfter, includeD30) then CountOf(w, k) else 0
                 case ResendSent => if w.resending.Some? && NudgedIn(w.resending.value, k) then CountOf(w, k) + 1 else CountOf(w, k)
                 case _ => CountOf(w, k)
  {
  }

  /** A nudge pass of a connected client asks again for exactly the wanted keys that have been quiet for too
      long, and unsubscribes first exactly those that the two passes before have asked for in vain. */
  lemma PassNudgesWhatIsQuiet(steps: History, staleAfter: real, includeD30: bool, now: real)
    requires SaneWishes(steps)
    ensures var w := Here(steps);
            var e := Resend(staleAfter, includeD30);
            Runs(w, e, now) && w.connected ==>
              var pass := FeedRecovery.Next(w, e, now).resending;
              && pass.Some? && pass.value.Nudged? && pass.value.at == now
              && (forall k :: k in pass.value.keys <==> MustNudge(steps, k, now, staleAfter, includeD30))
              && (forall k :: k in pass.value.escalated <==> k in pass.value.keys && StreakOf(steps, k) >= 2)
  {
    WishesStaySane(steps);
    forall k ensures k in StaleKeys(Here(steps), now, staleAfter, includeD30) <==> MustNudge(steps, k, now, staleAfter, includeD30) {
      NudgedIff(steps, k, now, staleAfter, includeD30);
    }
    forall k ensures StreakOf(steps, k) == CountOf(Here(steps), k) { NudgesAreStreaks(steps, k); }
  }

  // ---- what a pass sends ---------------------------------------------------------------------------------

  lemma PlainSubsAt(up: map<Key, Mode>, a: set<Key>, b: set<Key>, c: set<Key>, k: Key)
    ensures At(ExecuteAll(up, IfAny(Sub(FULL, a)) + IfAny(Sub(D30, b)) + IfAny(Sub(LTPC, c))), k)
         == if k in c then Some(LTPC) else if k in b then Some(D30) else if k in a then Some(FULL) else At(up, k)
  {
    var x, y, z := IfAny(Sub(FULL, a)), IfAny(Sub(D30, b)), IfAny(Sub(LTPC, c));
    FeedRefinement.ExecuteAppend(up, x + y, z);
    FeedRefinement.ExecuteAppend(up, x, y);
    FeedRefinement.IfAnyAt(up, Sub(FULL, a), k);
    FeedRefinement.IfAnyAt(ExecuteAll(up, x), Sub(D30, b), k);
    FeedRefinement.IfAnyAt(ExecuteAll(up, x + y), Sub(LTPC, c), k);
  }

  /** Whatever is subscribed upstream, a pass that gets all its messages out leaves every key it nudges in
      the mode it is wanted in, and every other key as it was; the keys it escalates it unsubscribes first. */
  lemma NudgesSetTheirModes(up: map<Key, Mode>, w: Wishes, nudged: set<Key>, escalated: set<Key>, k: Key)
    requires Disjoint(w) && escalated <= nudged <= Keys(w)
    ensures var messages := FeedClient.NudgeMessages(w, nudged, escalated);
            && At(ExecuteAll(up, messages), k) == (if k in nudged then Wanted(w, k) else At(up, k))
            && (escalated != {} ==> messages != [] && messages[0] == Unsub(escalated))
  {
    var first, resets := IfAny(Unsub(escalated)), FeedClient.ResetSubs(w, escalated);
    var plain := FeedClient.PlainSubs(w, nudged - escalated);
    var up1 := ExecuteAll(up, first);
    var up2 := ExecuteAll(up1, resets);
    FeedRefinement.ExecuteAppend(up, first + resets, plain);
    FeedRefinement.ExecuteAppend(up, first, resets);
    FeedRefinement.IfAnyAt(up, Unsub(escalated), k);
    FeedRefinement.SubsAt(up1, escalated * w.d30, escalated * w.full, escalated * w.ltpc, k);
    var rest := nudged - escalated;
    PlainSubsAt(up2, rest * w.full, rest * w.d30, rest * w.ltpc, k);
  }
}
