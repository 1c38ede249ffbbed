/** The market feed client as the program runs it: one object whose fields its methods update in
    place. `Wire` and `Watching` are what the two state machines see of it. */
module FeedClient {
  import opened Trading
  import opened FeedWire
  import opened FeedRefinement
  import opened FeedRecovery

  /** What a nudge pass sends: escalated keys are unsubscribed first, the others just asked for again. */
  function NudgeMessages(w: Wishes, nudged: set<Key>, escalated: set<Key>): seq<Message> {
    IfAny(Unsub(escalated)) + ResetSubs(w, escalated) + PlainSubs(w, nudged - escalated)
  }

  function ResetSubs(w: Wishes, keys: set<Key>): seq<Message> {
    IfAny(Sub(D30, keys * w.d30)) + IfAny(Sub(FULL, keys * w.full)) + IfAny(Sub(LTPC, keys * w.ltpc))
  }

  function PlainSubs(w: Wishes, keys: set<Key>): seq<Message> {
    IfAny(Sub(FULL, keys * w.full)) + IfAny(Sub(D30, keys * w.d30)) + IfAny(Sub(LTPC, keys * w.ltpc))
  }

  lemma SubsAreWanted(w: Wishes, keys: set<Key>)
    requires Disjoint(w)
    ensures OnlySubs(ResetSubs(w, keys), w) && OnlySubs(PlainSubs(w, keys), w)
    ensures forall k :: k in keys && k in Keys(w) ==> Promised(ResetSubs(w, keys), k)
  {
    forall k | k in keys && k in Keys(w) ensures Promised(ResetSubs(w, keys), k) {
      var a, b := IfAny(Sub(D30, keys * w.d30)), IfAny(Sub(FULL, keys * w.full));
      var c := IfAny(Sub(LTPC, keys * w.ltpc));
      assert k in keys * w.d30 || k in keys * w.full || k in keys * w.ltpc;
      var i := if k in w.d30 then 0 else if k in w.full then |a| else |a + b|;
      var m := if k in w.d30 then a else if k in w.full then b else c;
      assert ResetSubs(w, keys)[i] == m[0];
    }
  }

  lemma OnlySubsAppend(a: seq<Message>, b: seq<Message>, w: Wishes)
    requires OnlySubs(a, w) && OnlySubs(b, w)
    ensures OnlySubs(a + b, w)
  {
  }

  lemma PromiseGrows(a: seq<Message>, b: seq<Message>, k: Key)
    requires Promised(a, k)
    ensures Promised(a + b, k)
  {
    var i :| 0 <= i < |a| && a[i].Sub? && k in a[i].keys;
    assert (a + b)[i] == a[i];
  }

  /** A nudge pass and a D30 reset only ever ask again for what is wanted. */
  lemma NudgesHeal(w: Wishes, nudged: set<Key>, escalated: set<Key>)
    requires Disjoint(w) && escalated <= nudged <= Keys(w)
    ensures IsHeal(NudgeMessages(w, nudged, escalated), w)
  {
    var subs := ResetSubs(w, escalated) + PlainSubs(w, nudged - escalated);
    SubsAreWanted(w, escalated);
    SubsAreWanted(w, nudged - escalated);
    OnlySubsAppend(ResetSubs(w, escalated), PlainSubs(w, nudged - escalated), w);
    forall k | k in escalated ensures Promised(subs, k) { PromiseGrows(ResetSubs(w, escalated), PlainSubs(w, nudged - escalated), k); }
    if escalated == {} {
      assert NudgeMessages(w, nudged, escalated) == subs;
    } else {
      assert NudgeMessages(w, nudged, escalated) == [Unsub(escalated)] + subs;
      assert ([Unsub(escalated)] + subs)[1..] == subs;
    }
  }

  lemma ResetHeals(w: Wishes)
    requires Disjoint(w)
    ensures IsHeal([Unsub(w.d30), Sub(D30, w.d30)], w)
  {
    var messages := [Unsub(w.d30), Sub(D30, w.d30)];
    assert messages[1..] == [Sub(D30, w.d30)];
    forall k | k in w.d30 ensures Promised(messages[1..], k) { assert messages[1..][0].Sub?; }
  }

  /** The steps other coroutines can take on the wire while a replacement is being sent. */
  predicate IsOther(e: Step) { !e.Replace? && !e.SendJob? }

  /** A turn another coroutine of the client takes: the socket's own doings, a frame of ticks, and the two
      calls of the self-heal loop up to their first `await` and after their last. */
  datatype Turn =
    | OnWire(e: Step)
    | Hears(keys: seq<Key>, at: real)
    | Recovers(staleAfter: real, reconnectAfter: real, at: real)
    | ResetOver(at: real)
    | Resends(staleAfter: real, includeD30: bool, at: real)
    | ResendOver(at: real)

  /** By `end`, and not a replacement; heals begin with a call of the self-heal loop. */
  predicate IsTurn(t: Turn, end: real) { if t.OnWire? then IsOther(t.e) && !t.e.Heal? else t.at <= end }

  predicate AreTurns(turns: seq<Turn>, end: real) { forall k :: 0 <= k < |turns| ==> IsTurn(turns[k], end) }

  /** From the change of what is wanted to the end of its replacement. */
  predicate IsReplacing(seen: seq<(Happening, real)>, wishes: Wishes, now: real) {
    |seen| >= 2 && seen[0].0 == Desire(wishes) && seen[|seen| - 1] == (Tidy, now) && KeepsWishes(seen[1..|seen| - 1])
  }

  /** What is wanted is not touched. */
  predicate KeepsWishes(seen: seq<(Happening, real)>) {
    forall k :: 0 <= k < |seen| ==> !seen[k].0.Desire? && !seen[k].0.Tidy?
  }

  function Ticks(keys: seq<Key>, now: real): seq<(Happening, real)> {
    seq(|keys|, i requires 0 <= i < |keys| => (Tick(keys[i]), now))
  }

  class Client {
    var desired: Wishes
    var socket: Option<map<Key, Mode>>
    var replay: seq<Message>
    var jobs: seq<Message>
    var heals: seq<Message>
    var lastSeen: map<Key, real>
    var nudges: map<Key, nat>
    var stage: nat
    var started: Option<real>
    var lastReconnect: Option<real>
    var resetting: Option<real>
    var resending: Option<Note>
    var clock: real
    var log: seq<Note>

    ghost function Wire(): State
      reads this
    {
      State(desired, socket, replay, jobs, heals)
    }

    ghost function Watching(): Watch
      reads this
    {
      Watch(desired, socket.Some?, lastSeen, nudges, stage, started, lastReconnect, resetting, resending, clock, log)
    }

    constructor ()
      ensures Wire() == FeedWire.INITIAL && Watching() == FRESH
    {
      desired, socket, replay, jobs, heals := NO_WISHES, None, [], [], [];
      lastSeen, nudges, stage, started, lastReconnect, resetting, resending := map[], map[], 0, None, None, None, None;
      clock, log := 0.0, [];
    }

    // ---- the socket ----------------------------------------------------------------------------

    /** The next message of the replacement is sent, or dropped without a socket. */
    method SendOne()
      requires jobs != []
      modifies `socket, `jobs
      ensures Wire() == FeedWire.Next(old(Wire()), SendJob) && |jobs| < |old(jobs)|
      ensures Watching() == old(Watching())
    {
      socket, jobs := Sent(socket, jobs[0]), jobs[1..];
    }

    /** An `await` of a replacement: the other coroutines go on as far as they like. */
    method LetOthers(turns: seq<Turn>, end: real) returns (ghost trace: seq<Step>, ghost seen: seq<(Happening, real)>)
      requires AreTurns(turns, end) && clock <= end && Disjoint(desired)
      modifies `socket, `replay, `heals, `lastSeen, `nudges, `stage, `started, `lastReconnect, `resetting, `resending, `clock, `log
      ensures Wire() == FeedWire.Run(old(Wire()), trace)
      ensures Watching() == FeedRecovery.Run(old(Watching()), seen) && KeepsWishes(seen)
      ensures FeedRefinement.Inv(old(Wire())) ==> FeedRefinement.Inv(Wire())
      ensures clock <= end
    {
      trace, seen := [], [];
      ghost var s0, w0 := Wire(), Watching();
      for i := 0 to |turns|
        invariant Wire() == FeedWire.Run(s0, trace)
        invariant Watching() == FeedRecovery.Run(w0, seen) && KeepsWishes(seen)
        invariant FeedRefinement.Inv(s0) ==> FeedRefinement.Inv(Wire())
        invariant clock <= end
      {
        ghost var steps, happenings := TakeTurn(turns[i], end);
        WireRunConcat(s0, trace, steps);
        WatchRunConcat(w0, seen, happenings);
        trace, seen := trace + steps, seen + happenings;
      }
    }

    /** A turn that is not possible now is not taken. */
    method TakeTurn(turn: Turn, end: real) returns (ghost steps: seq<Step>, ghost seen: seq<(Happening, real)>)
      requires IsTurn(turn, end) && clock <= end && Disjoint(desired)
      modifies `socket, `replay, `heals, `lastSeen, `nudges, `stage, `started, `lastReconnect, `resetting, `resending, `clock, `log
      ensures Wire() == FeedWire.Run(old(Wire()), steps)
      ensures Watching() == FeedRecovery.Run(old(Watching()), seen) && KeepsWishes(seen)
      ensures FeedRefinement.Inv(old(Wire())) ==> FeedRefinement.Inv(Wire())
      ensures clock <= end
    {
      ghost var s0 := Wire();
      steps, seen := [], [];
      match turn {
        case OnWire(e) =>
          seen := OnTheWire(e);
          steps := [e];
        case Hears(keys, at) =>
          if at >= clock {
            OnMessage(keys, at);
            seen := Ticks(keys, at);
          }
        case _ => if turn.at >= clock { steps, seen := SelfHeal(turn); }
      }
      OthersKeepInv(s0, steps);
    }

    /** The self-heal loop goes on: one call after the other, each done once its messages are out. */
    method SelfHeal(turn: Turn) returns (ghost steps: seq<Step>, ghost seen: seq<(Happening, real)>)
      requires !turn.OnWire? && !turn.Hears? && clock <= turn.at && Disjoint(desired)
      modifies `socket, `replay, `heals, `lastSeen, `nudges, `stage, `started, `lastReconnect, `resetting, `resending, `clock, `log
      ensures Wire() == FeedWire.Run(old(Wire()), steps) && |steps| <= 1 && forall k :: 0 <= k < |steps| ==> IsOther(steps[k])
      ensures Watching() == FeedRecovery.Run(old(Watching()), seen) && KeepsWishes(seen)
      ensures clock <= turn.at
    {
      steps, seen := [], [];
      if heals != [] {
        return;
      }
      if turn.ResetOver? {
        AfterReset(turn.at);
        seen := [(ResetSent, turn.at)];
      } else if turn.ResendOver? {
        AfterResend(turn.at);
        seen := [(ResendSent, turn.at)];
      } else if resetting.None? && resending.None? {
        steps, seen := BeginHeal(turn);
      }
    }

    /** One of the two calls of the self-heal loop, up to its first `await`. */
    method BeginHeal(turn: Turn) returns (ghost steps: seq<Step>, ghost seen: seq<(Happening, real)>)
      requires (turn.Recovers? || turn.Resends?) && clock <= turn.at && !Busy(Watching()) && heals == [] && Disjoint(desired)
      modifies `socket, `replay, `heals, `nudges, `stage, `started, `lastReconnect, `resetting, `resending, `clock, `log
      ensures Wire() == FeedWire.Run(old(Wire()), steps) && |steps| <= 1 && forall k :: 0 <= k < |steps| ==> IsOther(steps[k])
      ensures Watching() == FeedRecovery.Run(old(Watching()), seen) && KeepsWishes(seen)
      ensures clock <= turn.at
    {
      if turn.Recovers? {
        var action := RecoverStaleD30Cohort(turn.at, turn.staleAfter, turn.reconnectAfter);
        steps := if action.Resubscribe? then [Heal([Unsub(desired.d30), Sub(D30, desired.d30)])]
                 else if action.Reconnect? then [Drop] else [];
        seen := [(Recover(turn.staleAfter, turn.reconnectAfter), turn.at)];
      } else {
        ResendStaleSubscriptions(turn.at, turn.staleAfter, turn.includeD30);
        steps := if resending.None? then [] else [Heal(NudgeMessages(desired, resending.value.keys, resending.value.escalated))];
        seen := [(Resend(turn.staleAfter, turn.includeD30), turn.at)];
      }
    }

    /** The socket opens, closes, or takes a message of the replay or of a self-heal. */
    method OnTheWire(e: Step) returns (ghost seen: seq<(Happening, real)>)
      requires IsOther(e) && !e.Heal?
      modifies `socket, `replay, `heals
      ensures Wire() == FeedWire.Run(old(Wire()), [e])
      ensures Watching() == FeedRecovery.Run(old(Watching()), seen) && KeepsWishes(seen)
    {
      var s := FeedWire.Next(State(desired, socket, replay, jobs, heals), e);
      WireRunOne(Wire(), e);
      socket, replay, heals := s.socket, s.replay, s.heals;
      seen := [(SetConnected(socket.Some?), clock)];
    }

    // ---- replace_subscriptions -------------------------------------------------------------------

    method Distinct(keys: seq<Key>) returns (s: set<Key>)
      ensures s == set k | k in keys
    {
      s := {};
      for i := 0 to |keys|
        invariant s == set k | k in keys[..i]
      {
        s := s + {keys[i]};
        assert keys[..i + 1] == keys[..i] + [keys[i]];
      }
      assert keys[..|keys|] == keys;
    }

    /** Replaces all three mode sets; `others` are the steps of other coroutines at its `await`s. When
        it returns, everything it had to send was sent or dropped. If it overtook no replay or self-heal
        that disagrees with it then, once replay and self-heal are out too, a connected socket has exactly
        the modes asked for. */
    method ReplaceSubscriptions(d30: seq<Key>, full: seq<Key>, ltpc: seq<Key>, now: real, others: nat -> seq<Turn>)
      returns (ghost trace: seq<Step>, ghost seen: seq<(Happening, real)>)
      requires jobs == [] && clock <= now
      requires forall n :: AreTurns(others(n), now)
      modifies this
      ensures Wire() == FeedWire.Run(old(Wire()), trace) && jobs == []
      ensures ModesOf(desired) == ModesOf(Cleaned(set k | k in d30, set k | k in full, set k | k in ltpc))
      ensures FeedRefinement.Inv(old(Wire())) && !Hazard(old(Wire()), Replace(set k | k in d30, set k | k in full, set k | k in ltpc)) ==>
                FeedRefinement.Inv(Wire())
                && (socket.Some? && replay == [] && heals == [] ==> socket.value == ModesOf(desired))
      ensures trace == [] <==> ModesOf(desired) == ModesOf(old(desired))
      ensures trace == [] ==> seen == []
      ensures Watching() == FeedRecovery.Run(old(Watching()), seen)
      ensures trace != [] ==> IsReplacing(seen, desired, now) && lastSeen.Keys == Keys(desired)
    {
      ghost var s0, w0 := Wire(), Watching();
      trace, seen := [], [];
      var newD30 := Distinct(d30);
      var allFull := Distinct(full);
      var newFull := allFull - newD30;
      var allLtpc := Distinct(ltpc);
      var newLtpc := allLtpc - newD30 - newFull;
      var wishes := Wishes(newD30, newFull, newLtpc);
      CleanedAgain(newD30, allFull, allLtpc);
      if ModesOf(wishes) == ModesOf(desired) {
        if FeedRefinement.Inv(s0) { QuietMeansRightWithJobs(s0); }
        return;
      }
      ghost var replace := Replace(newD30, allFull, allLtpc);
      if FeedRefinement.Inv(s0) && !Hazard(s0, replace) { FeedRefinement.StepKeepsInv(s0, replace); }
      WireRunOne(s0, replace);
      ghost var rest;
      rest, seen := SendChange(wishes, now, others);
      WireRunConcat(s0, [replace], rest);
      trace := [replace] + rest;
      if FeedRefinement.Inv(Wire()) { QuietMeansRightWithJobs(Wire()); }
    }

    /** The part of a replacement that changes something. */
    method SendChange(wishes: Wishes, now: real, others: nat -> seq<Turn>)
      returns (ghost trace: seq<Step>, ghost seen: seq<(Happening, real)>)
      requires jobs == [] && clock <= now && Disjoint(wishes)
      requires forall n :: AreTurns(others(n), now)
      modifies this
      ensures desired == wishes && jobs == [] && lastSeen.Keys == Keys(wishes)
      ensures var s := old(Wire()).(desired := wishes, jobs := Diff(old(desired), wishes));
              Wire() == FeedWire.Run(s, trace) && (FeedRefinement.Inv(s) ==> FeedRefinement.Inv(Wire()))
      ensures Watching() == FeedRecovery.Run(old(Watching()), seen) && IsReplacing(seen, wishes, now)
    {
      ghost var w, begun := Watching(), clock;
      jobs, desired := Diff(desired, wishes), wishes;
      ghost var heard;
      trace, heard := SendJobs(others, now);
      TidyUp(now);
      seen := [(Desire(wishes), begun)] + heard + [(Tidy, now)];
      Replacing(w, begun, wishes, heard, now);
    }

    /** Sends what a replacement has to send, one message and one `await` after the other. */
    method SendJobs(others: nat -> seq<Turn>, end: real) returns (ghost trace: seq<Step>, ghost seen: seq<(Happening, real)>)
      requires forall n :: AreTurns(others(n), end)
      requires clock <= end && Disjoint(desired)
      modifies this
      ensures Wire() == FeedWire.Run(old(Wire()), trace)
      ensures Watching() == FeedRecovery.Run(old(Watching()), seen) && KeepsWishes(seen)
      ensures FeedRefinement.Inv(old(Wire())) ==> FeedRefinement.Inv(Wire())
      ensures jobs == [] && desired == old(desired) && clock <= end
    {
      ghost var s0, w0 := Wire(), Watching();
      trace, seen := [], [];
      var n := 0;
      while jobs != []
        invariant Wire() == FeedWire.Run(s0, trace)
        invariant Watching() == FeedRecovery.Run(w0, seen) && KeepsWishes(seen)
        invariant FeedRefinement.Inv(s0) ==> FeedRefinement.Inv(Wire())
        invariant desired == old(desired) && clock <= end
        decreases |jobs|
      {
        if FeedRefinement.Inv(Wire()) { FeedRefinement.StepKeepsInv(Wire(), SendJob); }
        WireRunSnoc(s0, trace, SendJob);
        trace := trace + [SendJob];
        SendOne();
        ghost var steps, heard := LetOthers(others(n), end);
        WireRunConcat(s0, trace, steps);
        WatchRunConcat(w0, seen, heard);
        trace, seen := trace + steps, seen + heard;
        n := n + 1;
      }
    }

    /** The end of a replacement: forget what is no longer wanted, count what is new as just seen. */
    method TidyUp(now: real)
      requires clock <= now
      modifies `lastSeen, `nudges, `clock
      ensures Watching() == FeedRecovery.Next(old(Watching()), Tidy, now)
      ensures lastSeen.Keys == Keys(desired)
    {
      var left := lastSeen.Keys;
      while left != {}
        invariant left <= old(lastSeen).Keys
        invariant forall k :: k in lastSeen <==> k in old(lastSeen) && (k in left || k in Keys(desired))
        invariant forall k :: k in lastSeen ==> lastSeen[k] == old(lastSeen)[k]
        invariant forall k :: k in nudges <==> k in old(nudges) && (k !in old(lastSeen) || k in left || k in Keys(desired))
        invariant forall k :: k in nudges ==> nudges[k] == old(nudges)[k]
        decreases left
      {
        var key :| key in left;
        left := left - {key};
        if key !in Keys(desired) {
          lastSeen, nudges := lastSeen - {key}, nudges - {key};
        }
      }
      assert nudges == Remembered(old(nudges), old(lastSeen), Keys(desired));
      var kept := lastSeen;
      left := Keys(desired);
      while left != {}
        invariant left <= Keys(desired)
        invariant forall k :: k in lastSeen <==> k in kept || k in Keys(desired) - left
        invariant forall k :: k in lastSeen ==> lastSeen[k] == Seen(old(lastSeen), k, now)
        invariant nudges == Remembered(old(nudges), old(lastSeen), Keys(desired))
        decreases left
      {
        var key :| key in left;
        left := left - {key};
        if key !in lastSeen {
          lastSeen := lastSeen[key := now];
        }
      }
      assert lastSeen == Refreshed(old(lastSeen), Keys(desired), now);
      clock := now;
    }

    // ---- ticks and self-heal ---------------------------------------------------------------------

    /** `_on_message`: every tick of one frame. */
    method OnMessage(keys: seq<Key>, now: real)
      requires clock <= now
      modifies `lastSeen, `stage, `started, `clock, `log
      ensures Watching() == FeedRecovery.Run(old(Watching()), Ticks(keys, now)) && clock <= now
    {
      ghost var w0 := Watching();
      for i := 0 to |keys|
        invariant clock <= now
        invariant Watching() == FeedRecovery.Run(w0, Ticks(keys[..i], now))
      {
        WatchRunSnoc(w0, Ticks(keys[..i], now), (Tick(keys[i]), now));
        assert Ticks(keys[..i + 1], now) == Ticks(keys[..i], now) + [(Tick(keys[i]), now)];
        OneTick(keys[i], now);
      }
      assert keys[..|keys|] == keys;
    }

    method OneTick(key: Key, now: real)
      requires clock <= now
      modifies `lastSeen, `stage, `started, `clock, `log
      ensures Watching() == FeedRecovery.Next(old(Watching()), Tick(key), now)
      ensures clock == now
    {
      lastSeen := lastSeen[key := now];
      var d30 := key in desired.d30;
      if d30 {
        stage, started := 0, None;
      }
      log, clock := log + [Ticked(now, key, d30)], now;
    }

    /** Are all D30 keys stale while some other key is fresh? */
    method CohortStalled(now: real, staleAfter: real) returns (stalled: bool)
      ensures stalled == D30Stalled(Watching(), now, staleAfter)
    {
      var left, allStale := desired.d30, true;
      while left != {} && allStale
        invariant left <= desired.d30
        invariant allStale ==> forall k :: k in desired.d30 - left ==> Stale(Watching(), k, now, staleAfter)
        invariant !allStale ==> exists k :: k in desired.d30 && !Stale(Watching(), k, now, staleAfter)
        decreases left
      {
        var key :| key in left;
        left := left - {key};
        allStale := now - (if key in lastSeen then lastSeen[key] else now) >= staleAfter;
      }
      var others, otherFresh := desired.full + desired.ltpc, false;
      while others != {} && !otherFresh
        invariant others <= desired.full + desired.ltpc
        invariant !otherFresh ==> forall k :: k in desired.full + desired.ltpc - others ==> !(now - Seen(lastSeen, k, 0.0) < staleAfter)
        invariant otherFresh ==> exists k :: k in desired.full + desired.ltpc && now - Seen(lastSeen, k, 0.0) < staleAfter
        decreases others
      {
        var key :| key in others;
        others := others - {key};
        otherFresh := now - (if key in lastSeen then lastSeen[key] else 0.0) < staleAfter;
      }
      return allStale && otherFresh;
    }

    /** What a `recover_stale_d30_cohort` call finds it has to do. */
    method ChooseAction(now: real, staleAfter: real, reconnectAfter: real) returns (action: Action)
      ensures action == RecoverAction(Watching(), now, staleAfter, reconnectAfter)
    {
      if socket.None? || desired.d30 == {} {
        return DoNothing;
      }
      var stalled := CohortStalled(now, staleAfter);
      if !stalled {
        return DoNothing;
      }
      if stage == 0 {
        return Resubscribe;
      }
      var begun := if started.Some? && started.value != 0.0 then started.value else now;
      if stage == 1 && now - begun >= reconnectAfter {
        if lastReconnect.None? || now - lastReconnect.value >= RECONNECT_COOLDOWN {
          return Reconnect;
        }
      }
      return FeedRecovery.Await;
    }

    /** `recover_stale_d30_cohort` up to the `await`s of its two messages, or of its reconnect. */
    method RecoverStaleD30Cohort(now: real, staleAfter: real, reconnectAfter: real) returns (action: Action)
      requires clock <= now && !Busy(Watching()) && heals == [] && Disjoint(desired)
      modifies `socket, `replay, `heals, `stage, `started, `lastReconnect, `resetting, `clock, `log
      ensures Watching() == FeedRecovery.Next(old(Watching()), Recover(staleAfter, reconnectAfter), now) && clock == now
      ensures action == RecoverAction(old(Watching()), now, staleAfter, reconnectAfter)
      ensures Wire() == if action.Resubscribe? then FeedWire.Next(old(Wire()), Heal([Unsub(desired.d30), Sub(D30, desired.d30)]))
                        else if action.Reconnect? then FeedWire.Next(old(Wire()), Drop) else old(Wire())
    {
      action := ChooseAction(now, staleAfter, reconnectAfter);
      ghost var w := Watching();
      RecoverIs(w, now, staleAfter, reconnectAfter, action);
      clock := now;
      if socket.None? || desired.d30 == {} {
        stage, started := 0, None;
      }
      match action {
        case Resubscribe =>
          ResetHeals(desired);
          heals, resetting, log := [Unsub(desired.d30), Sub(D30, desired.d30)], Some(now), log + [ResetBegun(now)];
        case Reconnect => ForceReconnect(now, reconnectAfter);
        case _ =>
      }
    }

    /** Drops the socket so that a fresh one is opened. */
    method ForceReconnect(now: real, patience: real)
      modifies `socket, `replay, `stage, `lastReconnect, `log
      ensures Wire() == FeedWire.Next(old(Wire()), Drop)
      ensures Watching() == old(Watching()).(stage := 2, lastReconnect := Some(now), connected := false,
                                             log := old(log) + [Reconnected(now, patience)])
    {
      stage, lastReconnect, log := 2, Some(now), log + [Reconnected(now, patience)];
      socket, replay := None, [];
    }

    /** The end of a D30 reset. */
    method AfterReset(now: real)
      requires clock <= now
      modifies `stage, `started, `resetting, `clock, `log
      ensures Watching() == FeedRecovery.Next(old(Watching()), ResetSent, now) && clock == now
    {
      clock := now;
      if resetting.Some? {
        stage, started, resetting, log := 1, resetting, None, log + [ResetEnded];
      }
    }

    /** `resend_stale_subscriptions` up to the `await`s of its messages. */
    method ResendStaleSubscriptions(now: real, staleAfter: real, includeD30: bool)
      requires clock <= now && !Busy(Watching()) && heals == [] && Disjoint(desired)
      modifies `heals, `nudges, `resending, `clock
      ensures Watching() == FeedRecovery.Next(old(Watching()), Resend(staleAfter, includeD30), now) && clock == now
      ensures resending.Some? ==> resending.value.Nudged?
      ensures resending.Some? ==>
                Wire() == FeedWire.Next(old(Wire()), Heal(NudgeMessages(desired, resending.value.keys, resending.value.escalated)))
      ensures resending.None? ==> Wire() == old(Wire())
    {
      if socket.None? {
        clock := now;
        return;
      }
      var nudged := FindStale(now, staleAfter, includeD30);
      ResendIs(Watching(), now, staleAfter, includeD30);
      StartPass(nudged, now, staleAfter);
    }

    /** The messages of a nudge pass, and the streaks that end with it. */
    method StartPass(nudged: set<Key>, now: real, staleAfter: real)
      requires Disjoint(desired) && nudged <= Keys(desired)
      modifies `heals, `nudges, `resending, `clock
      ensures nudges == StillStale(old(nudges), nudged) && clock == now
      ensures resending == Some(Nudged(now, nudged, Escalated(old(Watching()), nudged), staleAfter))
      ensures heals == NudgeMessages(desired, nudged, Escalated(old(Watching()), nudged)) && IsHeal(heals, desired)
    {
      ghost var w := Watching();
      nudges := StillStale(nudges, nudged);
      var escalated := set k | k in nudged && k in nudges && nudges[k] >= ESCALATE_AFTER;
      assert escalated == Escalated(w, nudged);
      NudgesHeal(desired, nudged, escalated);
      heals := NudgeMessages(desired, nudged, escalated);
      resending := Some(Nudged(now, nudged, escalated, staleAfter));
      clock := now;
    }

    /** The wanted keys that have been quiet for too long. */
    method FindStale(now: real, staleAfter: real, includeD30: bool) returns (stale: set<Key>)
      ensures stale == StaleKeys(Watching(), now, staleAfter, includeD30)
    {
      stale := {};
      var left := Keys(desired);
      while left != {}
        invariant left <= Keys(desired)
        invariant stale == StaleKeys(Watching(), now, staleAfter, includeD30) - left
        decreases left
      {
        var key :| key in left;
        left := left - {key};
        if now - (if key in lastSeen then lastSeen[key] else now) >= staleAfter && (includeD30 || key in desired.full + desired.ltpc) {
          stale := stale + {key};
        }
      }
    }

    /** The end of a nudge pass. */
    method AfterResend(now: real)
      requires clock <= now
      modifies `lastSeen, `nudges, `resending, `clock, `log
      ensures Watching() == FeedRecovery.Next(old(Watching()), ResendSent, now) && clock == now
    {
      clock := now;
      if resending.Some? && resending.value.Nudged? {
        var note := resending.value;
        MarkSeen(note.keys, note.at);
        CountNudge(note.keys);
        resending, log := None, log + [note];
      }
    }

    /** A nudged key counts as just seen. */
    method MarkSeen(keys: set<Key>, at: real)
      modifies `lastSeen
      ensures lastSeen == SeenAt(old(lastSeen), keys, at)
    {
      var left := keys;
      while left != {}
        invariant left <= keys
        invariant forall k :: k in lastSeen <==> k in old(lastSeen) || k in keys - left
        invariant forall k :: k in lastSeen ==> lastSeen[k] == if k in keys - left then at else old(lastSeen)[k]
        decreases left
      {
        var key :| key in left;
        left := left - {key};
        lastSeen := lastSeen[key := at];
      }
    }

    /** Its streak grows. */
    method CountNudge(keys: set<Key>)
      modifies `nudges
      ensures nudges == Longer(old(nudges), keys)
    {
      var left := keys;
      while left != {}
        invariant left <= keys
        invariant forall k :: k in nudges <==> k in old(nudges) || k in keys - left
        invariant forall k :: k in nudges ==>
                    nudges[k] == (if k in old(nudges) then old(nudges)[k] else 0) + if k in keys - left then 1 else 0
        decreases left
      {
        var key :| key in left;
        left := left - {key};
        nudges := nudges[key := if key in nudges then nudges[key] + 1 else 1];
      }
    }
  }

  lemma ResendIs(w: Watch, now: real, staleAfter: real, includeD30: bool)
    requires w.clock <= now && !Busy(w) && w.connected
    ensures FeedRecovery.Next(w, Resend(staleAfter, includeD30), now)
         == var nudged := StaleKeys(w, now, staleAfter, includeD30);
            w.(nudges := StillStale(w.nudges, nudged), clock := now,
               resending := Some(Nudged(now, nudged, Escalated(w, nudged), staleAfter)))
  {
  }

  lemma RecoverIs(w: Watch, now: real, staleAfter: real, reconnectAfter: real, action: Action)
    requires w.clock <= now && !Busy(w) && action == RecoverAction(w, now, staleAfter, reconnectAfter)
    ensures FeedRecovery.Next(w, Recover(staleAfter, reconnectAfter), now)
         == match action
            case Resubscribe => w.(resetting := Some(now), log := w.log + [ResetBegun(now)], clock := now)
            case Reconnect =>
              w.(stage := 2, lastReconnect := Some(now), connected := false, log := w.log + [Reconnected(now, reconnectAfter)], clock := now)
            case DoNothing => if !w.connected || w.desired.d30 == {} then w.(stage := 0, started := None, clock := now) else w.(clock := now)
            case Await => w.(clock := now)
  {
  }

  lemma CleanedAgain(d30: set<Key>, full: set<Key>, ltpc: set<Key>)
    ensures Cleaned(d30, full, ltpc) == Wishes(d30, full - d30, ltpc - d30 - (full - d30))
  {
  }

  lemma QuietMeansRightWithJobs(s: State)
    requires FeedRefinement.Inv(s) && s.jobs == []
    ensures s.socket.Some? && s.replay == [] && s.heals == [] ==> s.socket.value == ModesOf(s.desired)
  {
    if s.replay == [] && s.heals == [] { QuietMeansRight(s); }
  }

  lemma {:induction false} WireRunConcat(s: State, a: seq<Step>, b: seq<Step>)
    ensures FeedWire.Run(s, a + b) == FeedWire.Run(FeedWire.Run(s, a), b)
    decreases |a|
  {
    if a == [] {
      assert a + b == b;
    } else {
      assert (a + b)[1..] == a[1..] + b;
      WireRunConcat(FeedWire.Next(s, a[0]), a[1..], b);
    }
  }

  lemma WireRunOne(s: State, e: Step)
    ensures FeedWire.Run(s, [e]) == FeedWire.Next(s, e)
  {
  }

  lemma WireRunSnoc(s: State, steps: seq<Step>, e: Step)
    ensures FeedWire.Run(s, steps + [e]) == FeedWire.Next(FeedWire.Run(s, steps), e)
  {
    WireRunConcat(s, steps, [e]);
    WireRunOne(FeedWire.Run(s, steps), e);
  }

  lemma Replacing(w: Watch, begun: real, wishes: Wishes, heard: seq<(Happening, real)>, now: real)
    requires begun == w.clock && KeepsWishes(heard)
    ensures var seen := [(Desire(wishes), begun)] + heard + [(Tidy, now)];
            FeedRecovery.Run(w, seen) == FeedRecovery.Next(FeedRecovery.Run(w.(desired := wishes), heard), Tidy, now)
            && IsReplacing(seen, wishes, now)
  {
    var first := [(Desire(wishes), begun)];
    WatchRunOne(w, Desire(wishes), begun);
    WatchRunConcat(w, first, heard);
    WatchRunSnoc(w, first + heard, (Tidy, now));
    assert (first + heard + [(Tidy, now)])[1..|first + heard|] == heard;
  }

  /** The steps of other coroutines are no hazards. */
  lemma OthersKeepInv(s: State, steps: seq<Step>)
    requires |steps| <= 1 && forall k :: 0 <= k < |steps| ==> IsOther(steps[k])
    ensures FeedRefinement.Inv(s) ==> FeedRefinement.Inv(FeedWire.Run(s, steps))
  {
    if steps != [] && FeedRefinement.Inv(s) {
      assert steps == [steps[0]];
      FeedRefinement.StepKeepsInv(s, steps[0]);
    }
  }

  lemma {:induction false} WatchRunConcat(w: Watch, a: seq<(Happening, real)>, b: seq<(Happening, real)>)
    ensures FeedRecovery.Run(w, a + b) == FeedRecovery.Run(FeedRecovery.Run(w, a), b)
    decreases |a|
  {
    if a == [] {
      assert a + b == b;
    } else {
      assert (a + b)[1..] == a[1..] + b;
      WatchRunConcat(FeedRecovery.Next(w, a[0].0, a[0].1), a[1..], b);
    }
  }

  lemma WatchRunOne(w: Watch, e: Happening, now: real)
    ensures FeedRecovery.Run(w, [(e, now)]) == FeedRecovery.Next(w, e, now)
  {
  }

  lemma WatchRunSnoc(w: Watch, steps: seq<(Happening, real)>, e: (Happening, real))
    ensures FeedRecovery.Run(w, steps + [e]) == FeedRecovery.Next(FeedRecovery.Run(w, steps), e.0, e.1)
  {
    WatchRunConcat(w, steps, [e]);
    WatchRunOne(FeedRecovery.Run(w, steps), e.0, e.1);
  }
}
