/** The diff refines "set the map to what is wanted", across drops and reconnects. */
module FeedRefinement {
  import opened Trading
  import opened FeedWire

  // ---- one replacement on a steady socket ------------------------------------------------------------

  lemma ExecuteAt(up: map<Key, Mode>, m: Message, k: Key)
    ensures At(Execute(up, m), k) == if k !in m.keys then At(up, k) else if m.Sub? then Some(m.mode) else None
  {
  }

  lemma {:induction false} ExecuteAppend(up: map<Key, Mode>, a: seq<Message>, b: seq<Message>)
    ensures ExecuteAll(up, a + b) == ExecuteAll(ExecuteAll(up, a), b)
    decreases |a|
  {
    if a == [] {
      assert a + b == b;
    } else {
      assert (a + b)[1..] == a[1..] + b;
      ExecuteAppend(Execute(up, a[0]), a[1..], b);
    }
  }

  lemma IfAnyAt(up: map<Key, Mode>, m: Message, k: Key)
    ensures At(ExecuteAll(up, IfAny(m)), k) == At(Execute(up, m), k)
  {
  }

  lemma SubsAt(up: map<Key, Mode>, a: set<Key>, b: set<Key>, c: set<Key>, k: Key)
    ensures At(ExecuteAll(up, IfAny(Sub(D30, a)) + IfAny(Sub(FULL, b)) + IfAny(Sub(LTPC, c))), k)
         == if k in c then Some(LTPC) else if k in b then Some(FULL) else if k in a then Some(D30) else At(up, k)
  {
    var x, y, z := IfAny(Sub(D30, a)), IfAny(Sub(FULL, b)), IfAny(Sub(LTPC, c));
    ExecuteAppend(up, x + y, z);
    ExecuteAppend(up, x, y);
    IfAnyAt(up, Sub(D30, a), k);
    IfAnyAt(ExecuteAll(up, x), Sub(FULL, b), k);
    IfAnyAt(ExecuteAll(up, x + y), Sub(LTPC, c), k);
    ExecuteAt(up, Sub(D30, a), k);
    ExecuteAt(ExecuteAll(up, x), Sub(FULL, b), k);
    ExecuteAt(ExecuteAll(up, x + y), Sub(LTPC, c), k);
  }

  lemma ModesAt(w: Wishes, k: Key)
    ensures At(ModesOf(w), k) == Wanted(w, k)
  {
  }

  lemma SameModes(up: map<Key, Mode>, w: Wishes)
    requires forall k :: At(up, k) == Wanted(w, k)
    ensures up == ModesOf(w)
  {
    forall k ensures k in up <==> k in ModesOf(w) { assert At(up, k) == Wanted(w, k); ModesAt(w, k); }
    forall k | k in up ensures up[k] == ModesOf(w)[k] { assert At(up, k) == Wanted(w, k); ModesAt(w, k); }
  }

  /** Executing the diff of two wishes on the old modes gives exactly the new ones, and a fresh socket
      gets them from the replay alone. */
  lemma DiffRefinesReplacement(was: Wishes, will: Wishes)
    requires Disjoint(will)
    ensures ExecuteAll(ModesOf(was), Diff(was, will)) == ModesOf(will)
    ensures ExecuteAll(map[], Replay(will)) == ModesOf(will)
  {
    forall k ensures At(ExecuteAll(ModesOf(was), Diff(was, will)), k) == Wanted(will, k) { DiffAt(was, will, k); }
    SameModes(ExecuteAll(ModesOf(was), Diff(was, will)), will);
    forall k ensures At(ExecuteAll(map[], Replay(will)), k) == Wanted(will, k) { SubsAt(map[], will.d30, will.full, will.ltpc, k); }
    SameModes(ExecuteAll(map[], Replay(will)), will);
  }

  lemma DiffAt(was: Wishes, will: Wishes, k: Key)
    requires Disjoint(will)
    ensures At(ExecuteAll(ModesOf(was), Diff(was, will)), k) == Wanted(will, k)
  {
    var start, first := ModesOf(was), IfAny(Unsub(Changed(was, will)));
    ModesAt(was, k);
    ExecuteAppend(start, first, Additions(was, will));
    IfAnyAt(start, Unsub(Changed(was, will)), k);
    ExecuteAt(start, Unsub(Changed(was, will)), k);
    SubsAt(ExecuteAll(start, first), Added(was, will, D30), Added(was, will, FULL), Added(was, will, LTPC), k);
  }

  /** The diff names a key exactly when its mode changes: what stays is not interrupted. */
  lemma DiffNamesWhatChanges(was: Wishes, will: Wishes, k: Key)
    ensures (exists i :: 0 <= i < |Diff(was, will)| && k in Diff(was, will)[i].keys) <==> Wanted(was, k) != Wanted(will, k)
  {
    var u, a, b, c := Unsub(Changed(was, will)), Sub(D30, Added(was, will, D30)), Sub(FULL, Added(was, will, FULL)), Sub(LTPC, Added(was, will, LTPC));
    var all := Diff(was, will);
    assert all == IfAny(u) + (IfAny(a) + IfAny(b) + IfAny(c));
    assert forall i :: 0 <= i < |all| ==> all[i] in {u, a, b, c};
    Mentioned(all, u, k, [], IfAny(a) + IfAny(b) + IfAny(c));
    Mentioned(all, a, k, IfAny(u), IfAny(b) + IfAny(c));
    Mentioned(all, b, k, IfAny(u) + IfAny(a), IfAny(c));
    Mentioned(all, c, k, IfAny(u) + IfAny(a) + IfAny(b), []);
  }

  lemma Mentioned(all: seq<Message>, m: Message, k: Key, before: seq<Message>, after: seq<Message>)
    requires all == before + IfAny(m) + after
    ensures k in m.keys ==> exists i :: 0 <= i < |all| && k in all[i].keys
  {
    if k in m.keys { assert all[|before|] == m; }
  }

  // ---- every run -----------------------------------------------------------------------------------

  /** What a replacement has still to send: at most one unsubscription, in front, of keys that are not
      wanted or that a later message asks for again. */
  ghost predicate JobsOk(jobs: seq<Message>, w: Wishes) {
    OnlySubs(jobs, w)
    || (jobs != [] && jobs[0].Unsub? && OnlySubs(jobs[1..], w)
        && forall k :: k in jobs[0].keys && Wanted(w, k).Some? ==> Promised(jobs[1..], k))
  }

  /** A key has the mode that is wanted, or a message on its way will give it that mode. */
  predicate OnItsWay(s: State, up: map<Key, Mode>, k: Key) {
    || At(up, k) == Wanted(s.desired, k)
    || (Wanted(s.desired, k).Some? && (Promised(s.jobs, k) || Promised(s.replay, k) || Promised(s.heals, k)))
    || (Wanted(s.desired, k).None? && s.jobs != [] && s.jobs[0].Unsub? && k in s.jobs[0].keys)
  }

  ghost predicate Inv(s: State) {
    && Disjoint(s.desired)
    && JobsOk(s.jobs, s.desired)
    && OnlySubs(s.replay, s.desired)
    && IsHeal(s.heals, s.desired)
    && (s.socket.None? ==> s.replay == [])
    && (s.socket.Some? ==> forall k :: OnItsWay(s, s.socket.value, k))
  }

  /** A replacement that overtakes a replay or a self-heal that disagrees with it. */
  predicate Hazard(s: State, e: Step) {
    e.Replace? && Next(s, e) != s
    && !(OnlySubs(s.replay, Cleaned(e.d30, e.full, e.ltpc)) && IsHeal(s.heals, Cleaned(e.d30, e.full, e.ltpc)))
  }

  lemma TailPromise(messages: seq<Message>, k: Key)
    requires messages != [] && Promised(messages, k) && !(messages[0].Sub? && k in messages[0].keys)
    ensures Promised(messages[1..], k)
  {
  }

  lemma ReplayOk(w: Wishes)
    requires Disjoint(w)
    ensures OnlySubs(Replay(w), w) && forall k :: Wanted(w, k).Some? ==> Promised(Replay(w), k)
  {
    forall k | Wanted(w, k).Some? ensures Promised(Replay(w), k) {
      var a, b, c := IfAny(Sub(D30, w.d30)), IfAny(Sub(FULL, w.full)), IfAny(Sub(LTPC, w.ltpc));
      if k in w.d30 { assert Replay(w)[0] == a[0]; }
      else if k in w.full { assert Replay(w)[|a|] == b[0]; }
      else { assert Replay(w)[|a + b|] == c[0]; }
    }
  }

  lemma DiffOk(was: Wishes, will: Wishes)
    requires Disjoint(will)
    ensures JobsOk(Diff(was, will), will)
    ensures forall k :: Wanted(will, k).Some? && Wanted(was, k) != Wanted(will, k) ==> Promised(Diff(was, will), k)
    ensures forall k :: Wanted(will, k).None? && Wanted(was, k).Some? ==>
              Diff(was, will) != [] && Diff(was, will)[0] == Unsub(Changed(was, will)) && k in Changed(was, will)
  {
    var u, adds := IfAny(Unsub(Changed(was, will))), Additions(was, will);
    var a, b, c := IfAny(Sub(D30, Added(was, will, D30))), IfAny(Sub(FULL, Added(was, will, FULL))), IfAny(Sub(LTPC, Added(was, will, LTPC)));
    assert OnlySubs(adds, will);
    forall k | Wanted(will, k).Some? && Wanted(was, k) != Wanted(will, k) ensures Promised(adds, k) && Promised(Diff(was, will), k) {
      var i := match Wanted(will, k).value case D30 => 0 case FULL => |a| case LTPC => |a + b|;
      var m := match Wanted(will, k).value case D30 => a case FULL => b case LTPC => c;
      assert k in Added(was, will, Wanted(will, k).value);
      assert adds[i] == m[0];
      assert Diff(was, will)[|u| + i] == m[0];
    }
    if Changed(was, will) != {} {
      assert Diff(was, will)[1..] == adds && Diff(was, will)[0] == Unsub(Changed(was, will));
      forall k | Wanted(will, k).None? && Wanted(was, k).Some? ensures k in Changed(was, will) { assert k in Keys(was); }
    } else {
      assert Diff(was, will) == adds;
      forall k ensures !(Wanted(will, k).None? && Wanted(was, k).Some?) {
        assert k !in Changed(was, will);
        assert Wanted(was, k).Some? ==> k in Keys(was);
      }
    }
  }

  /** The queue a step sends from. */
  function Queue(s: State, e: Step): seq<Message> {
    match e case SendJob => s.jobs case SendReplay => s.replay case SendHeal => s.heals case _ => []
  }

  lemma SendKeepsInv(s: State, e: Step)
    requires Inv(s) && Queue(s, e) != []
    ensures Inv(Next(s, e))
  {
    var s', queue := Next(s, e), Queue(s, e);
    if s.socket.Some? {
      forall k ensures OnItsWay(s', s'.socket.value, k) {
        assert OnItsWay(s, s.socket.value, k);
        ExecuteAt(s.socket.value, queue[0], k);
        if Promised(queue, k) && !(queue[0].Sub? && k in queue[0].keys) { TailPromise(queue, k); }
      }
    }
  }

  lemma PromiseIsWanted(messages: seq<Message>, w: Wishes, k: Key)
    requires Promised(messages, k) && IsHeal(messages, w)
    ensures exists i :: 0 <= i < |messages| && messages[i].Sub? && k in messages[i].keys && Wanted(w, k) == Some(messages[i].mode)
  {
  }

  lemma ReplaceKeepsInv(s: State, d30: set<Key>, full: set<Key>, ltpc: set<Key>)
    requires Inv(s) && !Hazard(s, Replace(d30, full, ltpc))
    ensures Inv(Next(s, Replace(d30, full, ltpc)))
  {
    var s', wishes := Next(s, Replace(d30, full, ltpc)), Cleaned(d30, full, ltpc);
    if s' != s {
      DiffOk(s.desired, wishes);
      if s.socket.Some? {
        forall k ensures OnItsWay(s', s'.socket.value, k) {
          assert OnItsWay(s, s.socket.value, k);
          if Promised(s.replay, k) { PromiseIsWanted(s.replay, s.desired, k); PromiseIsWanted(s.replay, wishes, k); }
          if Promised(s.heals, k) { PromiseIsWanted(s.heals, s.desired, k); PromiseIsWanted(s.heals, wishes, k); }
        }
      }
    }
  }

  lemma StepKeepsInv(s: State, e: Step)
    requires Inv(s) && !Hazard(s, e)
    ensures Inv(Next(s, e))
  {
    match e
    case Drop =>
    case Connect =>
      if s.socket.None? {
        ReplayOk(s.desired);
        var s' := Next(s, e);
        forall k ensures OnItsWay(s', s'.socket.value, k) {}
      }
    case SendReplay => if s.replay != [] { SendKeepsInv(s, e); }
    case SendJob => if s.jobs != [] { SendKeepsInv(s, e); }
    case SendHeal => if s.heals != [] { SendKeepsInv(s, e); }
    case Heal(_) =>
      if Next(s, e) != s && s.socket.Some? { forall k ensures OnItsWay(Next(s, e), s.socket.value, k) { assert OnItsWay(s, s.socket.value, k); } }
    case Replace(d30, full, ltpc) => ReplaceKeepsInv(s, d30, full, ltpc);
  }

  predicate Calm(s: State, steps: seq<Step>)
    decreases |steps|
  {
    steps == [] || (!Hazard(s, steps[0]) && Calm(Next(s, steps[0]), steps[1..]))
  }

  lemma {:induction false} RunKeepsInv(s: State, steps: seq<Step>)
    requires Inv(s) && Calm(s, steps)
    ensures Inv(Run(s, steps))
    decreases |steps|
  {
    if steps != [] {
      StepKeepsInv(s, steps[0]);
      RunKeepsInv(Next(s, steps[0]), steps[1..]);
    }
  }

  lemma QuietMeansRight(s: State)
    requires Inv(s) && Quiet(s)
    ensures s.socket.Some? ==> s.socket.value == ModesOf(s.desired)
  {
    if s.socket.Some? {
      forall k ensures At(s.socket.value, k) == Wanted(s.desired, k) { assert OnItsWay(s, s.socket.value, k); }
      SameModes(s.socket.value, s.desired);
    }
  }

  /** Whenever nothing is on its way, a connected socket has exactly the wanted modes: in every run
      of replacements, drops and reconnects interleaved message by message, as long as no replacement
      overtakes a replay that disagrees with it. The desired sets stay disjoint. */
  lemma UpstreamIsWhatIsWanted(steps: seq<Step>)
    requires Calm(INITIAL, steps) && Quiet(Run(INITIAL, steps))
    ensures Disjoint(Run(INITIAL, steps).desired)
    ensures Run(INITIAL, steps).socket.Some? ==> Run(INITIAL, steps).socket.value == ModesOf(Run(INITIAL, steps).desired)
  {
    RunKeepsInv(INITIAL, steps);
    QuietMeansRight(Run(INITIAL, steps));
  }

  // ---- what the hazard does -----------------------------------------------------------------------------

  /** The jobs go out, then the rest of the replay, then the rest of the self-heal, undisturbed. */
  function Drain(s: State): State
    decreases |s.jobs| + |s.replay| + |s.heals|
  {
    if s.jobs != [] then Drain(Next(s, SendJob))
    else if s.replay != [] then Drain(Next(s, SendReplay))
    else if s.heals != [] then Drain(Next(s, SendHeal))
    else s
  }

  /** Left alone, the socket settles on the wanted modes from every state that keeps the invariant. */
  lemma {:induction false} DrainSettles(s: State)
    requires Inv(s)
    ensures Inv(Drain(s)) && Quiet(Drain(s)) && Drain(s).desired == s.desired
    ensures s.socket.Some? ==> Drain(s).socket == Some(ModesOf(s.desired))
    decreases |s.jobs| + |s.replay| + |s.heals|
  {
    if s.jobs != [] {
      SendKeepsInv(s, SendJob);
      DrainSettles(Next(s, SendJob));
    } else if s.replay != [] {
      SendKeepsInv(s, SendReplay);
      DrainSettles(Next(s, SendReplay));
    } else if s.heals != [] {
      SendKeepsInv(s, SendHeal);
      DrainSettles(Next(s, SendHeal));
    } else {
      QuietMeansRight(s);
    }
  }

  /** The key has the mode that `w` gives it, or will be given it by a replay or a self-heal. */
  predicate StillSays(s: State, w: Wishes, k: Key) {
    s.socket.Some? && (Promised(s.replay, k) || Promised(s.heals, k) || (s.jobs == [] && At(s.socket.value, k) == Wanted(w, k)))
  }

  lemma SendStillSays(s: State, e: Step, w: Wishes, k: Key)
    requires OnlySubs(s.replay, w) && IsHeal(s.heals, w) && StillSays(s, w, k)
    requires (e.SendJob? && s.jobs != []) || (e.SendReplay? && s.jobs == [] && s.replay != []) || (e.SendHeal? && s.jobs == [] && s.heals != [])
    ensures StillSays(Next(s, e), w, k) && OnlySubs(Next(s, e).replay, w) && IsHeal(Next(s, e).heals, w)
  {
    var queue := Queue(s, e);
    ExecuteAt(s.socket.value, queue[0], k);
    if !e.SendJob? {
      if Promised(queue, k) && !(queue[0].Sub? && k in queue[0].keys) { TailPromise(queue, k); }
      if queue[0].Sub? { assert Agrees(queue[0], w); }
    }
  }

  /** What a replay or a self-heal has still to say of a key, it says last. */
  lemma {:induction false} LastWord(s: State, w: Wishes, k: Key)
    requires OnlySubs(s.replay, w) && IsHeal(s.heals, w) && StillSays(s, w, k)
    ensures Drain(s).socket.Some? && At(Drain(s).socket.value, k) == Wanted(w, k)
    decreases |s.jobs| + |s.replay| + |s.heals|
  {
    if !Quiet(s) {
      var e := if s.jobs != [] then SendJob else if s.replay != [] then SendReplay else SendHeal;
      SendStillSays(s, e, w, k);
      LastWord(Next(s, e), w, k);
    }
  }

  /** A subscription on its way that disagrees with `will`. */
  lemma Disagreement(messages: seq<Message>, was: Wishes, will: Wishes) returns (k: Key)
    requires IsHeal(messages, was) && !IsHeal(messages, will)
    ensures Promised(messages, k) && Wanted(was, k) != Wanted(will, k)
  {
    var rest := if OnlySubs(messages, was) then messages else messages[1..];
    assert OnlySubs(rest, was) && !OnlySubs(rest, will);
    var i :| 0 <= i < |rest| && !Agrees(rest[i], will);
    assert Agrees(rest[i], was);
    k :| k in rest[i].keys && Wanted(will, k) != Some(rest[i].mode);
    assert messages[if OnlySubs(messages, was) then i else i + 1] == rest[i];
  }

  // ---- every order in which the queues can empty ------------------------------------------------------

  predicate OnlySends(steps: seq<Step>) {
    forall i :: 0 <= i < |steps| ==> steps[i].SendJob? || steps[i].SendReplay? || steps[i].SendHeal?
  }

  /** However jobs, replay and self-heal interleave, once all of it is sent the modes are the wanted ones. */
  ghost predicate AlwaysSettles(s: State) {
    forall steps :: OnlySends(steps) && Quiet(Run(s, steps)) ==> Run(s, steps).socket == Some(ModesOf(s.desired))
  }

  lemma {:induction false} SendsSettle(s: State, steps: seq<Step>)
    requires Inv(s) && s.socket.Some? && OnlySends(steps) && Quiet(Run(s, steps))
    ensures Run(s, steps).socket == Some(ModesOf(s.desired))
    decreases |steps|
  {
    if steps == [] {
      QuietMeansRight(s);
    } else {
      StepKeepsInv(s, steps[0]);
      SendsSettle(Next(s, steps[0]), steps[1..]);
    }
  }

  /** The order of `Drain`. */
  lemma {:induction false} DrainIsAnOrder(s: State) returns (steps: seq<Step>)
    ensures OnlySends(steps) && Run(s, steps) == Drain(s) && Quiet(Drain(s)) && Drain(s).desired == s.desired
    decreases |s.jobs| + |s.replay| + |s.heals|
  {
    if Quiet(s) {
      steps := [];
    } else {
      var e := if s.jobs != [] then SendJob else if s.replay != [] then SendReplay else SendHeal;
      var rest := DrainIsAnOrder(Next(s, e));
      steps := [e] + rest;
      assert steps[1..] == rest;
    }
  }

  /** A replacement leaves the socket right in whatever order everything is then sent, exactly when it
      does not overtake a replay or a self-heal that disagrees with it. */
  lemma SettlesIffNoHazard(s: State, d30: set<Key>, full: set<Key>, ltpc: set<Key>)
    requires Inv(s) && s.socket.Some?
    ensures AlwaysSettles(Next(s, Replace(d30, full, ltpc))) <==> !Hazard(s, Replace(d30, full, ltpc))
  {
    var e := Replace(d30, full, ltpc);
    var s' := Next(s, e);
    if !Hazard(s, e) {
      StepKeepsInv(s, e);
      forall steps | OnlySends(steps) && Quiet(Run(s', steps)) ensures Run(s', steps).socket == Some(ModesOf(s'.desired)) {
        SendsSettle(s', steps);
      }
    } else {
      HazardDrainsWrong(s, d30, full, ltpc);
      var steps := DrainIsAnOrder(s');
      assert Run(s', steps).socket != Some(ModesOf(s'.desired));
    }
  }

  lemma HazardDrainsWrong(s: State, d30: set<Key>, full: set<Key>, ltpc: set<Key>)
    requires Inv(s) && s.socket.Some? && Hazard(s, Replace(d30, full, ltpc))
    ensures Drain(Next(s, Replace(d30, full, ltpc))).socket != Some(ModesOf(Cleaned(d30, full, ltpc)))
  {
    var wishes := Cleaned(d30, full, ltpc);
    var k: Key;
    if IsHeal(s.heals, wishes) {
      assert !OnlySubs(s.replay, wishes);
      NoUnsub(s.replay, s.desired, wishes);
      k := Disagreement(s.replay, s.desired, wishes);
    } else {
      k := Disagreement(s.heals, s.desired, wishes);
    }
    LastWord(Next(s, Replace(d30, full, ltpc)), s.desired, k);
    ModesAt(wishes, k);
  }

  lemma NoUnsub(messages: seq<Message>, was: Wishes, will: Wishes)
    requires OnlySubs(messages, was)
    ensures IsHeal(messages, will) ==> OnlySubs(messages, will)
  {
  }
}
