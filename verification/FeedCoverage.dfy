/** Sessions and wire together: what the subscription manager wants is what it hands to the feed client,
    message by message, so what a live session asked for is what the upstream socket serves. */
module FeedCoverage {
  import opened Trading
  import opened FeedWire
  import FeedRefinement
  import FeedSessions

  datatype Both = Both(hub: FeedSessions.State, wire: State)

  datatype BothStep = OnHub(hubStep: FeedSessions.Step) | OnWire(wireStep: Step)

  /** A connection that replaces nothing and a request that is refused need no lock. */
  predicate NeedsNoLock(hub: FeedSessions.State, e: FeedSessions.Step) {
    FeedSessions.Next(hub, e) == hub || (e.Join? && e.instance !in hub.byInstance)
  }

  function AskFor(w: Wishes): Step { Replace(w.d30, w.full, w.ltpc) }

  /** A change of what is wanted waits for the manager's lock, which is held until the last message of
      the replacement before it was sent; only the manager replaces. */
  predicate Happens(b: Both, e: BothStep) {
    match e
    case OnHub(step) => b.wire.jobs == [] || NeedsNoLock(b.hub, step)
    case OnWire(step) => !step.Replace?
  }

  function NextBoth(b: Both, e: BothStep): Both {
    if !Happens(b, e) then b
    else match e
      case OnHub(step) =>
        var hub := FeedSessions.Next(b.hub, step);
        Both(hub, Next(b.wire, AskFor(hub.desired)))
      case OnWire(step) => Both(b.hub, Next(b.wire, step))
  }

  function RunBoth(b: Both, steps: seq<BothStep>): Both
    decreases |steps|
  {
    if steps == [] then b else RunBoth(NextBoth(b, steps[0]), steps[1..])
  }

  const NOBODY := Both(FeedSessions.INITIAL, INITIAL)

  /** What happens on the wire in one step. */
  function WireStep(b: Both, e: BothStep): Step {
    match e case OnHub(step) => AskFor(FeedSessions.Next(b.hub, step).desired) case OnWire(step) => step
  }

  ghost predicate Inv(b: Both) {
    && FeedSessions.Inv(b.hub) && FeedRefinement.Inv(b.wire)
    && ModesOf(b.wire.desired) == ModesOf(b.hub.desired)
    && WithinCap(b.wire)
  }

  ghost predicate Calm(b: Both, steps: seq<BothStep>)
    decreases |steps|
  {
    steps == [] || ((Happens(b, steps[0]) ==> !Disturbs(b.wire, WireStep(b, steps[0]))) && Calm(NextBoth(b, steps[0]), steps[1..]))
  }

  /** A replacement overtakes a replay or self-heal that disagrees with it, or a self-heal begins while
      the unsubscription of a replacement still waits to be sent, with too many D30 keys on their way. */
  predicate Disturbs(s: State, e: Step) {
    FeedRefinement.Hazard(s, e) || (e.Heal? && Unsubscribes(s) && Peak(Next(s, e)) > FeedSessions.D30_CAP)
  }

  // ---- the cap on the socket ---------------------------------------------------------------------------

  predicate Unsubscribes(s: State) { s.jobs != [] && s.jobs[0].Unsub? }

  function UpInD30(s: State): set<Key> {
    if s.socket.None? then {} else set k | k in s.socket.value && s.socket.value[k] == D30
  }

  /** The keys a queue will put into D30. */
  function ComingInD30(messages: seq<Message>): set<Key> {
    if messages == [] then {} else (if messages[0] == Sub(D30, messages[0].keys) then messages[0].keys else {}) + ComingInD30(messages[1..])
  }

  /** In D30 upstream, or about to be without the replacement's doing. */
  function Taken(s: State): set<Key> { UpInD30(s) + ComingInD30(s.replay) + ComingInD30(s.heals) }

  /** The most D30 keys there are at any time while replay and self-heal go out, in whatever order, and
      the replacement waits. */
  function Peak(s: State): nat
    decreases |s.replay| + |s.heals|
  {
    var after := if s.replay == [] then 0 else Peak(Next(s, SendReplay));
    var other := if s.heals == [] then 0 else Peak(Next(s, SendHeal));
    Max(|UpInD30(s)|, Max(after, other))
  }

  /** Nothing is upstream in a mode that is not wanted, but for what is about to be unsubscribed. */
  ghost predicate Sound(s: State) {
    forall k :: s.socket.Some? && k in s.socket.value ==>
      Wanted(s.desired, k) == Some(s.socket.value[k]) || (Unsubscribes(s) && k in s.jobs[0].keys)
  }

  ghost predicate WithinCap(s: State) {
    && |s.desired.d30| <= FeedSessions.D30_CAP
    && Sound(s)
    && (Unsubscribes(s) ==> Peak(s) <= FeedSessions.D30_CAP)
  }

  lemma SendTakesNoMore(s: State, e: Step)
    requires (e.SendReplay? || e.SendHeal?) && FeedRefinement.Queue(s, e) != []
    ensures Taken(Next(s, e)) <= Taken(s) && |Taken(Next(s, e))| <= |Taken(s)|
  {
    var s', queue := Next(s, e), FeedRefinement.Queue(s, e);
    forall k | k in Taken(s') ensures k in Taken(s) {
      if k in UpInD30(s') { FeedRefinement.ExecuteAt(s.socket.value, queue[0], k); }
    }
    FeedSessions.SubsetSize(Taken(s'), Taken(s));
  }

  lemma UpIsTaken(s: State)
    ensures |UpInD30(s)| <= |Taken(s)|
  {
    FeedSessions.SubsetSize(UpInD30(s), Taken(s));
  }

  lemma {:induction false} PeakBelowTaken(s: State)
    ensures |UpInD30(s)| <= Peak(s) <= |Taken(s)|
    decreases |s.replay| + |s.heals|, 1
  {
    UpIsTaken(s);
    if s.replay != [] { BranchBelowTaken(s, SendReplay); }
    if s.heals != [] { BranchBelowTaken(s, SendHeal); }
    PeakIsBounded(s, |Taken(s)|);
  }

  lemma PeakIsBounded(s: State, most: nat)
    requires |UpInD30(s)| <= most
    requires (s.replay != [] ==> Peak(Next(s, SendReplay)) <= most) && (s.heals != [] ==> Peak(Next(s, SendHeal)) <= most)
    ensures |UpInD30(s)| <= Peak(s) <= most
  {
  }

  lemma {:induction false} BranchBelowTaken(s: State, e: Step)
    requires (e.SendReplay? || e.SendHeal?) && FeedRefinement.Queue(s, e) != []
    ensures Peak(Next(s, e)) <= |Taken(s)|
    decreases |s.replay| + |s.heals|, 0
  {
    PeakBelowTaken(Next(s, e));
    SendTakesNoMore(s, e);
  }

  lemma {:induction false} ComingIsWanted(messages: seq<Message>, w: Wishes)
    requires IsHeal(messages, w)
    ensures ComingInD30(messages) <= w.d30
  {
    if messages != [] {
      if OnlySubs(messages, w) {
        assert OnlySubs(messages[1..], w);
        if messages[0] == Sub(D30, messages[0].keys) { assert Agrees(messages[0], w); }
      }
      ComingIsWanted(messages[1..], w);
    }
  }

  /** Without an unsubscription waiting, everything taken is wanted. */
  lemma TakenIsWanted(s: State)
    requires FeedRefinement.Inv(s) && Sound(s) && !Unsubscribes(s)
    ensures Taken(s) <= s.desired.d30
  {
    ComingIsWanted(s.replay, s.desired);
    ComingIsWanted(s.heals, s.desired);
  }

  lemma SendWithinCap(s: State, e: Step)
    requires FeedRefinement.Inv(s) && WithinCap(s) && FeedRefinement.Queue(s, e) != []
    ensures WithinCap(Next(s, e))
  {
    SendIsSound(s, e);
    assert Unsubscribes(Next(s, e)) ==> Peak(Next(s, e)) <= Peak(s);
  }

  lemma SendIsSound(s: State, e: Step)
    requires FeedRefinement.Inv(s) && Sound(s) && FeedRefinement.Queue(s, e) != []
    ensures Sound(Next(s, e))
    ensures Unsubscribes(Next(s, e)) ==> Unsubscribes(s) && !e.SendJob?
  {
    var s', queue := Next(s, e), FeedRefinement.Queue(s, e);
    forall k | s'.socket.Some? && k in s'.socket.value
      ensures Wanted(s'.desired, k) == Some(s'.socket.value[k]) || (Unsubscribes(s') && k in s'.jobs[0].keys)
    {
      FeedRefinement.ExecuteAt(s.socket.value, queue[0], k);
      if queue[0].Sub? && k in queue[0].keys { assert Agrees(queue[0], s.desired); }
    }
  }

  lemma ReplaceIsSound(s: State, w: Wishes)
    requires Sound(s) && s.jobs == [] && Disjoint(w)
    ensures Sound(Next(s, AskFor(w)))
  {
    var s' := Next(s, AskFor(w));
    assert Cleaned(w.d30, w.full, w.ltpc) == w;
    if s' != s {
      forall k | s.socket.Some? && k in s.socket.value
        ensures Wanted(w, k) == Some(s.socket.value[k]) || (Unsubscribes(s') && k in s'.jobs[0].keys)
      {
        assert Wanted(s.desired, k) == Some(s.socket.value[k]);
        if Wanted(w, k) != Wanted(s.desired, k) {
          assert k in Changed(s.desired, w);
          assert s'.jobs[0] == Unsub(Changed(s.desired, w));
        }
      }
    }
  }

  lemma ReplaceWithinCap(s: State, w: Wishes)
    requires FeedRefinement.Inv(s) && WithinCap(s) && Disjoint(w) && |w.d30| <= FeedSessions.D30_CAP
    ensures WithinCap(Next(s, AskFor(w)))
  {
    var s' := Next(s, AskFor(w));
    assert Cleaned(w.d30, w.full, w.ltpc) == w;
    if s' != s {
      ReplaceIsSound(s, w);
      TakenIsWanted(s);
      FeedSessions.SubsetSize(Taken(s), s.desired.d30);
      PeakBelowTaken(s');
      assert Taken(s') == Taken(s);
    }
  }

  lemma WireWithinCap(s: State, e: Step)
    requires FeedRefinement.Inv(s) && WithinCap(s) && !Disturbs(s, e)
    requires e.Replace? ==> Disjoint(Wishes(e.d30, e.full, e.ltpc)) && |e.d30| <= FeedSessions.D30_CAP
    ensures WithinCap(Next(s, e))
  {
    match e
    case Replace(d30, full, ltpc) => ReplaceWithinCap(s, Wishes(d30, full, ltpc));
    case Heal(_) =>
    case Drop =>
      ComingIsWanted(s.heals, s.desired);
      FeedSessions.SubsetSize(Taken(Next(s, e)), s.desired.d30);
      PeakBelowTaken(Next(s, e));
    case Connect => if s.socket.None? { ConnectWithinCap(s); }
    case _ => if FeedRefinement.Queue(s, e) != [] { SendWithinCap(s, e); }
  }

  lemma ConnectWithinCap(s: State)
    requires FeedRefinement.Inv(s) && WithinCap(s) && s.socket.None?
    ensures WithinCap(Next(s, Connect))
  {
    FeedRefinement.ReplayOk(s.desired);
    ComingIsWanted(Replay(s.desired), s.desired);
    ComingIsWanted(s.heals, s.desired);
    FeedSessions.SubsetSize(Taken(Next(s, Connect)), s.desired.d30);
    PeakBelowTaken(Next(s, Connect));
  }

  // ---- every run -----------------------------------------------------------------------------------------

  /** A replacement asks for `w`, at once or not at all if `w` is wanted already. */
  lemma AskedForIsWanted(s: State, w: Wishes)
    requires Disjoint(w) && (s.jobs == [] || ModesOf(w) == ModesOf(s.desired))
    ensures ModesOf(Next(s, AskFor(w)).desired) == ModesOf(w)
  {
    assert Cleaned(w.d30, w.full, w.ltpc) == w;
  }

  lemma HubWishes(hub: FeedSessions.State)
    requires FeedSessions.Inv(hub)
    ensures Disjoint(hub.desired) && |hub.desired.d30| <= FeedSessions.D30_CAP
  {
  }

  lemma NoLockNoChange(hub: FeedSessions.State, e: FeedSessions.Step)
    requires NeedsNoLock(hub, e)
    ensures FeedSessions.Next(hub, e).desired == hub.desired
  {
  }

  lemma WireKeepsInv(s: State, e: Step)
    requires FeedRefinement.Inv(s) && WithinCap(s) && !Disturbs(s, e)
    requires e.Replace? ==> Disjoint(Wishes(e.d30, e.full, e.ltpc)) && |e.d30| <= FeedSessions.D30_CAP
    ensures FeedRefinement.Inv(Next(s, e)) && WithinCap(Next(s, e))
    ensures !e.Replace? ==> Next(s, e).desired == s.desired
  {
    FeedRefinement.StepKeepsInv(s, e);
    WireWithinCap(s, e);
  }

  lemma StepKeepsBoth(b: Both, e: BothStep)
    requires Inv(b) && (Happens(b, e) ==> !Disturbs(b.wire, WireStep(b, e)))
    ensures Inv(NextBoth(b, e))
  {
    if Happens(b, e) {
      if e.OnHub? {
        var hub := FeedSessions.Next(b.hub, e.hubStep);
        FeedSessions.StepKeepsInv(b.hub, e.hubStep);
        HubWishes(hub);
        WireKeepsInv(b.wire, AskFor(hub.desired));
        if b.wire.jobs != [] { NoLockNoChange(b.hub, e.hubStep); }
        AskedForIsWanted(b.wire, hub.desired);
      } else {
        WireKeepsInv(b.wire, e.wireStep);
      }
    }
  }

  lemma {:induction false} RunKeepsBoth(b: Both, steps: seq<BothStep>)
    requires Inv(b) && Calm(b, steps)
    ensures Inv(RunBoth(b, steps))
    decreases |steps|
  {
    if steps != [] {
      StepKeepsBoth(b, steps[0]);
      RunKeepsBoth(NextBoth(b, steps[0]), steps[1..]);
    }
  }

  lemma StartKeepsBoth()
    ensures Inv(NOBODY)
  {
    FeedSessions.InitialInv();
  }

  /** The socket serves the sessions: in every calm run of connections, subscriptions, drops, reconnects
      and self-heals, whenever nothing is on its way, a connected socket has exactly the modes that the
      live requests, tracking, positions and lots add up to; so every key a live session asked for
      comes in at least the mode it asked for. */
  lemma SocketServesSessions(steps: seq<BothStep>)
    requires Calm(NOBODY, steps) && Quiet(RunBoth(NOBODY, steps).wire) && RunBoth(NOBODY, steps).wire.socket.Some?
    ensures var Both(hub, wire) := RunBoth(NOBODY, steps);
            && wire.socket.value == ModesOf(FeedSessions.Unions(hub.wants, hub.tracked, hub.positions, hub.engine))
            && forall id, k :: id in hub.sessions ==>
                 FeedSessions.Rank(At(wire.socket.value, k)) >= FeedSessions.Rank(FeedSessions.Asked(hub.sessions[id], k))
  {
    StartKeepsBoth();
    RunKeepsBoth(NOBODY, steps);
    var Both(hub, wire) := RunBoth(NOBODY, steps);
    FeedRefinement.QuietMeansRight(wire);
    forall id, k | id in hub.sessions
      ensures FeedSessions.Rank(At(wire.socket.value, k)) >= FeedSessions.Rank(FeedSessions.Asked(hub.sessions[id], k))
    {
      FeedSessions.SessionCovered(hub, id, k);
      FeedRefinement.ModesAt(hub.desired, k);
    }
  }

  /** At no moment of a calm run, in the middle of a replacement, a replay or a self-heal, are more than
      45 instruments subscribed upstream in D30. */
  lemma NeverOverTheCap(steps: seq<BothStep>)
    requires Calm(NOBODY, steps)
    ensures |UpInD30(RunBoth(NOBODY, steps).wire)| <= 45
  {
    StartKeepsBoth();
    RunKeepsBoth(NOBODY, steps);
    InvMeansWithinCap(RunBoth(NOBODY, steps).wire);
  }

  lemma InvMeansWithinCap(s: State)
    requires FeedRefinement.Inv(s) && WithinCap(s)
    ensures |UpInD30(s)| <= FeedSessions.D30_CAP
  {
    PeakBelowTaken(s);
    if !Unsubscribes(s) {
      TakenIsWanted(s);
      FeedSessions.SubsetSize(UpInD30(s), s.desired.d30);
    }
  }

  // ---- exactly when a self-heal can exceed it ----------------------------------------------------------

  /** Some calm continuation has more D30 keys upstream than the cap. */
  ghost predicate CanExceed(b: Both) {
    exists steps :: Calm(b, steps) && |UpInD30(RunBoth(b, steps).wire)| > FeedSessions.D30_CAP
  }

  lemma SendIsCalm(b: Both, e: Step, rest: seq<BothStep>)
    requires (e.SendReplay? || e.SendHeal?) && Calm(NextBoth(b, OnWire(e)), rest)
    ensures Calm(b, [OnWire(e)] + rest) && RunBoth(b, [OnWire(e)] + rest) == RunBoth(NextBoth(b, OnWire(e)), rest)
  {
    var steps := [OnWire(e)] + rest;
    assert steps[0] == OnWire(e) && steps[1..] == rest;
    SendDoesNotDisturb(b.wire, e);
    assert WireStep(b, steps[0]) == e;
  }

  lemma SendDoesNotDisturb(s: State, e: Step)
    requires e.SendReplay? || e.SendHeal?
    ensures !Disturbs(s, e)
  {
  }

  /** The peak is reached by sending. */
  lemma {:induction false} PeakIsReached(b: Both) returns (steps: seq<BothStep>)
    ensures Calm(b, steps) && |UpInD30(RunBoth(b, steps).wire)| == Peak(b.wire)
    decreases |b.wire.replay| + |b.wire.heals|
  {
    var s := b.wire;
    if Peak(s) == |UpInD30(s)| {
      steps := [];
    } else {
      var e := if s.replay != [] && Peak(s) == Peak(Next(s, SendReplay)) then SendReplay else SendHeal;
      var rest := PeakIsReached(NextBoth(b, OnWire(e)));
      SendIsCalm(b, e, rest);
      steps := [OnWire(e)] + rest;
    }
  }

  /** A self-heal is a disturbance exactly when, after it, some continuation without a further disturbance
      takes the socket over the cap. */
  lemma HealDisturbsIffOverTheCap(b: Both, messages: seq<Message>)
    requires Inv(b)
    ensures Disturbs(b.wire, Heal(messages)) <==> CanExceed(NextBoth(b, OnWire(Heal(messages))))
  {
    var e := OnWire(Heal(messages));
    if Disturbs(b.wire, Heal(messages)) {
      var steps := PeakIsReached(NextBoth(b, e));
      assert Calm(NextBoth(b, e), steps);
    } else {
      StepKeepsBoth(b, e);
      forall steps | Calm(NextBoth(b, e), steps) ensures |UpInD30(RunBoth(NextBoth(b, e), steps).wire)| <= FeedSessions.D30_CAP {
        RunKeepsBoth(NextBoth(b, e), steps);
        InvMeansWithinCap(RunBoth(NextBoth(b, e), steps).wire);
      }
    }
  }

  /** For a D30 reset with no replay on its way the peak is what is in D30 upstream and what is wanted
      there, taken together; a nudge that only asks for D30 keys likewise. */
  lemma ResetPeak(s: State, up: map<Key, Mode>)
    requires FeedRefinement.Inv(s) && s.socket == Some(up) && s.replay == [] && s.heals == [] && s.desired.d30 != {}
    ensures Peak(Next(s, Heal([Unsub(s.desired.d30), Sub(D30, s.desired.d30)]))) == |UpInD30(s) + s.desired.d30|
  {
    var d := s.desired.d30;
    var s1 := s.(heals := [Unsub(d), Sub(D30, d)]);
    var s2 := s.(heals := [Sub(D30, d)], socket := Some(Execute(up, Unsub(d))));
    ResetBegins(s, up);
    forall k ensures k in UpInD30(s2) <==> k in UpInD30(s) - d { FeedRefinement.ExecuteAt(up, Unsub(d), k); }
    assert UpInD30(s2) == UpInD30(s) - d;
    LastSubPeak(s2, Execute(up, Unsub(d)), d);
    assert UpInD30(s) - d + d == UpInD30(s) + d;
    assert Peak(s1) == Max(|UpInD30(s)|, Peak(s2));
    FeedSessions.SubsetSize(UpInD30(s), UpInD30(s) + d);
  }

  lemma ResetBegins(s: State, up: map<Key, Mode>)
    requires s.socket == Some(up) && s.heals == []
    ensures var d := s.desired.d30;
            var s1 := s.(heals := [Unsub(d), Sub(D30, d)]);
            && Next(s, Heal([Unsub(d), Sub(D30, d)])) == s1
            && Next(s1, SendHeal) == s.(heals := [Sub(D30, d)], socket := Some(Execute(up, Unsub(d))))
  {
    var d := s.desired.d30;
    var messages := [Unsub(d), Sub(D30, d)];
    assert messages[1..] == [Sub(D30, d)];
    forall k | k in d ensures Promised(messages[1..], k) { assert messages[1..][0].Sub?; }
    assert IsHeal(messages, s.desired);
  }

  lemma LastSubPeak(s: State, up: map<Key, Mode>, keys: set<Key>)
    requires s.socket == Some(up) && s.replay == [] && s.heals == [Sub(D30, keys)]
    ensures Peak(s) == |UpInD30(s) + keys|
  {
    var s' := Next(s, SendHeal);
    assert s'.heals == [] && s'.replay == [];
    forall k ensures k in UpInD30(s') <==> k in UpInD30(s) + keys { FeedRefinement.ExecuteAt(up, Sub(D30, keys), k); }
    assert UpInD30(s') == UpInD30(s) + keys;
    FeedSessions.SubsetSize(UpInD30(s), UpInD30(s) + keys);
  }

  lemma D30NudgePeak(s: State, up: map<Key, Mode>, keys: set<Key>)
    requires s.socket == Some(up) && s.replay == [] && s.heals == [] && keys <= s.desired.d30
    ensures Peak(Next(s, Heal([Sub(D30, keys)]))) == |UpInD30(s) + keys|
  {
    assert Agrees(Sub(D30, keys), s.desired);
    assert Next(s, Heal([Sub(D30, keys)])) == s.(heals := [Sub(D30, keys)]);
    LastSubPeak(s.(heals := [Sub(D30, keys)]), up, keys);
  }

  /** The D30 keys `a` are subscribed, with `x` in full mode, on a connected socket. */
  function Subscribe(a: set<Key>, x: Key): seq<Step> { [Connect, Replace(a, {x}, {}), SendJob, SendJob] }

  /** Then other D30 keys are wanted, `x` among them, and a self-heal asks for `x`. */
  function SwitchAndHeal(b: set<Key>, x: Key): seq<Step> { [Replace(b, {}, {}), Heal([Sub(D30, {x})]), SendHeal] }

  /** A run that a self-heal takes over the cap: it asks for its key before the old D30 keys were
      unsubscribed. */
  lemma HealOverTheCap(a: set<Key>, b: set<Key>, x: Key)
    requires |a| == FeedSessions.D30_CAP && |b| == FeedSessions.D30_CAP && a !! b && x in b
    ensures |UpInD30(Run(Run(INITIAL, Subscribe(a, x)), SwitchAndHeal(b, x)))| == FeedSessions.D30_CAP + 1
  {
    Subscribed(a, x);
    SwitchThenHeal(Run(INITIAL, Subscribe(a, x)), a, b, x);
  }

  lemma Subscribed(a: set<Key>, x: Key)
    requires a != {} && x !in a
    ensures Run(INITIAL, Subscribe(a, x)) == State(Wishes(a, {x}, {}), Some(ModesOf(Wishes(a, {x}, {}))), [], [], [])
  {
    var was := Wishes(a, {x}, {});
    var s1 := State(NO_WISHES, Some(map[]), [], [], []);
    assert Cleaned(a, {x}, {}) == was;
    assert x in ModesOf(was) && x !in ModesOf(NO_WISHES);
    assert Replay(NO_WISHES) == [];
    FeedRefinement.DiffRefinesReplacement(NO_WISHES, was);
    assert ModesOf(NO_WISHES) == map[];
    FirstDiff(was);
    var s2 := Next(s1, Replace(a, {x}, {}));
    assert s2 == State(was, Some(map[]), [], Diff(NO_WISHES, was), []);
    TwoJobs(s2, was);
    OneStepOn(INITIAL, Connect, [Replace(a, {x}, {}), SendJob, SendJob]);
    OneStepOn(s1, Replace(a, {x}, {}), [SendJob, SendJob]);
    OneStepOn(s2, SendJob, [SendJob]);
    OneStepOn(Next(s2, SendJob), SendJob, []);
  }

  lemma OneStepOn(s: State, e: Step, rest: seq<Step>)
    ensures Run(s, [e] + rest) == Run(Next(s, e), rest)
  {
    assert ([e] + rest)[1..] == rest;
  }

  lemma FirstDiff(w: Wishes)
    requires Disjoint(w) && w.d30 != {} && w.full != {} && w.ltpc == {}
    ensures Diff(NO_WISHES, w) == [Sub(D30, w.d30), Sub(FULL, w.full)]
  {
    assert Changed(NO_WISHES, w) == {};
    assert Added(NO_WISHES, w, D30) == w.d30 && Added(NO_WISHES, w, FULL) == w.full && Added(NO_WISHES, w, LTPC) == {};
  }

  lemma TwoJobs(s: State, w: Wishes)
    requires s == State(w, Some(map[]), [], [Sub(D30, w.d30), Sub(FULL, w.full)], [])
    requires ExecuteAll(map[], s.jobs) == ModesOf(w)
    ensures Next(Next(s, SendJob), SendJob) == State(w, Some(ModesOf(w)), [], [], [])
  {
    var rest := s.jobs[1..];
    assert rest == [Sub(FULL, w.full)] && rest[1..] == [];
    var up := Execute(map[], s.jobs[0]);
    assert ExecuteAll(up, rest) == Execute(up, rest[0]);
  }

  lemma SwitchThenHeal(s: State, a: set<Key>, b: set<Key>, x: Key)
    requires |a| == |b| == FeedSessions.D30_CAP && a !! b && x in b
    requires s == State(Wishes(a, {x}, {}), Some(ModesOf(Wishes(a, {x}, {}))), [], [], [])
    ensures |UpInD30(Run(s, SwitchAndHeal(b, x)))| == FeedSessions.D30_CAP + 1
  {
    var heal := Heal([Sub(D30, {x})]);
    var s1 := Switched(s, a, b, x);
    OneStepOn(s, Replace(b, {}, {}), [heal, SendHeal]);
    OneStepOn(s1, heal, [SendHeal]);
    OneStepOn(Next(s1, heal), SendHeal, []);
    HealAdds(Next(s1, heal), a, x);
  }

  lemma Switched(s: State, a: set<Key>, b: set<Key>, x: Key) returns (s1: State)
    requires x in b && x !in a && s.desired == Wishes(a, {x}, {}) && s.jobs == [] && s.heals == []
    ensures s1 == Next(s, Replace(b, {}, {})) && s1.socket == s.socket
    ensures Next(s1, Heal([Sub(D30, {x})])) == s1.(heals := [Sub(D30, {x})])
  {
    var will := Wishes(b, {}, {});
    assert Cleaned(b, {}, {}) == will;
    FeedRefinement.ModesAt(will, x);
    FeedRefinement.ModesAt(s.desired, x);
    s1 := Next(s, Replace(b, {}, {}));
    assert s1.desired == will;
    assert Agrees(Sub(D30, {x}), will);
    assert OnlySubs([Sub(D30, {x})], will);
  }

  lemma HealAdds(s: State, a: set<Key>, x: Key)
    requires s.heals == [Sub(D30, {x})] && x !in a && s.socket == Some(ModesOf(Wishes(a, {x}, {})))
    ensures UpInD30(Next(s, SendHeal)) == a + {x}
  {
    var was := Wishes(a, {x}, {});
    forall k ensures k in UpInD30(Next(s, SendHeal)) <==> k in a + {x} {
      FeedRefinement.ExecuteAt(ModesOf(was), Sub(D30, {x}), k);
      FeedRefinement.ModesAt(was, k);
    }
  }
}
