/** App sessions and what they want: the union of every live session's keys under a D30 cap, and one
    session per app instance. */
module FeedSessions {
  import opened Trading
  import opened FeedWire

  const D30_CAP := 45

  datatype Session = Session(instance: Id, generation: int, revision: int, d30: set<Key>, full: set<Key>, ltpc: set<Key>)

  /** `wants` is what the subscription manager holds per session: D30, full and LTPC keys. */
  datatype State = State(
    sessions: map<Id, Session>,
    byInstance: map<Id, Id>,
    wants: map<Id, Wishes>,
    positions: set<Key>,
    engine: set<Key>,
    tracked: set<Key>,
    desired: Wishes
  )

  datatype Step =
    | Join(session: Id, instance: Id, generation: int)
    | Disconnect(session: Id)
    | Subscribe(session: Id, revision: Option<int>, d30: set<Key>, full: set<Key>, ltpc: set<Key>)
    | SetPositions(keys: set<Key>)
    | SetEngine(keys: set<Key>)
    | Refresh(tracked: set<Key>)

  // ---- unions ------------------------------------------------------------------------------------

  function D30Union(wants: map<Id, Wishes>): set<Key> { set id, k | id in wants && k in wants[id].d30 :: k }

  function FullUnion(wants: map<Id, Wishes>): set<Key> { set id, k | id in wants && k in wants[id].full :: k }

  function LtpcUnion(wants: map<Id, Wishes>): set<Key> { set id, k | id in wants && k in wants[id].ltpc :: k }

  /** What `_apply` hands to the feed client. */
  function Unions(wants: map<Id, Wishes>, tracked: set<Key>, positions: set<Key>, engine: set<Key>): Wishes {
    var d30 := D30Union(wants);
    var full := tracked + FullUnion(wants) - d30;
    Wishes(d30, full, positions + engine + LtpcUnion(wants) - (full + d30))
  }

  function Apply(s: State): State { s.(desired := Unions(s.wants, s.tracked, s.positions, s.engine)) }

  // ---- handlers ----------------------------------------------------------------------------------

  function Projected(s: State, session: Id, d30: set<Key>): set<Key> { d30 + D30Union(s.wants - {session}) }

  /** A request over the cap is refused. */
  predicate Fits(s: State, session: Id, d30: set<Key>) { |Projected(s, session, d30)| <= D30_CAP }

  function SetClient(s: State, session: Id, d30: set<Key>, full: set<Key>, ltpc: set<Key>): State {
    Apply(s.(wants := s.wants[session := Wishes(d30, full - d30, ltpc)]))
  }

  function RevisionOf(session: Session, revision: Option<int>): int {
    if revision.Some? then revision.value else session.revision + 1
  }

  predicate Accepts(s: State, id: Id, revision: Option<int>, d30: set<Key>) {
    && (id in s.sessions ==> RevisionOf(s.sessions[id], revision) > s.sessions[id].revision)
    && Fits(s, id, d30)
  }

  /** `_handle_subscribe`. A message of a session that is no longer registered still reaches the
      subscription manager. */
  function SubscribeStep(s: State, id: Id, revision: Option<int>, d30: set<Key>, full: set<Key>, ltpc: set<Key>): State {
    if !Accepts(s, id, revision, d30) then s
    else if id !in s.sessions then SetClient(s, id, d30, full, ltpc)
    else Heed(SetClient(s, id, d30, full, ltpc), id, RevisionOf(s.sessions[id], revision), d30, full, ltpc)
  }

  function Heed(s: State, id: Id, revision: int, d30: set<Key>, full: set<Key>, ltpc: set<Key>): State
    requires id in s.sessions
  {
    s.(sessions := s.sessions[id := s.sessions[id].(revision := revision, d30 := d30, full := full, ltpc := ltpc)])
  }

  function DisconnectStep(s: State, id: Id): State {
    if id !in s.sessions then s
    else
      var instance := s.sessions[id].instance;
      Apply(s.(sessions := s.sessions - {id},
               byInstance := if At(s.byInstance, instance) == Some(id) then s.byInstance - {instance} else s.byInstance,
               wants := s.wants - {id}))
  }

  /** A connection of a known instance must be newer than the live one, which it then replaces. */
  function ConnectStep(s: State, id: Id, instance: Id, generation: int): State {
    if id in s.sessions then s
    else if instance in s.byInstance && s.byInstance[instance] in s.sessions then
      if generation <= s.sessions[s.byInstance[instance]].generation then s
      else Register(DisconnectStep(s, s.byInstance[instance]), id, instance, generation)
    else Register(s, id, instance, generation)
  }

  function Register(s: State, id: Id, instance: Id, generation: int): State {
    s.(sessions := s.sessions[id := Session(instance, generation, -1, {}, {}, {})], byInstance := s.byInstance[instance := id])
  }

  function Next(s: State, e: Step): State {
    match e
    case Join(id, instance, generation) => ConnectStep(s, id, instance, generation)
    case Disconnect(id) => DisconnectStep(s, id)
    case Subscribe(id, revision, d30, full, ltpc) => SubscribeStep(s, id, revision, d30, full, ltpc)
    case SetPositions(keys) => Apply(s.(positions := keys))
    case SetEngine(keys) => Apply(s.(engine := keys))
    case Refresh(keys) => Apply(s.(tracked := keys))
  }

  function Run(s: State, steps: seq<Step>): State
    decreases |steps|
  {
    if steps == [] then s else Run(Next(s, steps[0]), steps[1..])
  }

  const INITIAL := State.State(map[], map[], map[], {}, {}, {}, NO_WISHES)

  // ---- in every run -------------------------------------------------------------------------------

  ghost predicate Inv(s: State) {
    && s.desired == Unions(s.wants, s.tracked, s.positions, s.engine)
    && WithinCap(s.wants)
    && OneEach(s.sessions, s.byInstance)
    && AllHeard(s.sessions, s.wants)
  }

  predicate WithinCap(wants: map<Id, Wishes>) { |D30Union(wants)| <= D30_CAP }

  /** Live sessions and their instances match one to one. */
  ghost predicate OneEach(sessions: map<Id, Session>, byInstance: map<Id, Id>) {
    && (forall id :: id in sessions ==> At(byInstance, sessions[id].instance) == Some(id))
    && (forall i :: i in byInstance ==> byInstance[i] in sessions && sessions[byInstance[i]].instance == i)
  }

  /** The manager holds what each session last asked for. */
  ghost predicate AllHeard(sessions: map<Id, Session>, wants: map<Id, Wishes>) {
    forall id :: id in sessions ==> Heard(sessions[id], At(wants, id))
  }

  predicate Heard(mine: Session, held: Option<Wishes>) {
    if held.Some? then mine.d30 <= held.value.d30 && mine.full - mine.d30 <= held.value.full && mine.ltpc <= held.value.ltpc
    else mine.d30 == {} && mine.full == {} && mine.ltpc == {}
  }

  lemma OneFewer(sessions: map<Id, Session>, byInstance: map<Id, Id>, id: Id)
    requires OneEach(sessions, byInstance) && id in sessions
    ensures At(byInstance, sessions[id].instance) == Some(id)
    ensures OneEach(sessions - {id}, byInstance - {sessions[id].instance})
  {
  }

  lemma OneMore(sessions: map<Id, Session>, byInstance: map<Id, Id>, id: Id, session: Session)
    requires OneEach(sessions, byInstance) && id !in sessions && session.instance !in byInstance
    ensures OneEach(sessions[id := session], byInstance[session.instance := id])
  {
  }

  lemma OneChanged(sessions: map<Id, Session>, byInstance: map<Id, Id>, id: Id, session: Session)
    requires OneEach(sessions, byInstance) && id in sessions && sessions[id].instance == session.instance
    ensures OneEach(sessions[id := session], byInstance)
  {
  }

  lemma SmallerUnion(wants: map<Id, Wishes>, id: Id)
    ensures |D30Union(wants - {id})| <= |D30Union(wants)|
  {
    SubsetSize(D30Union(wants - {id}), D30Union(wants));
  }

  lemma {:induction false} SubsetSize<T>(a: set<T>, b: set<T>)
    requires a <= b
    ensures |a| <= |b|
    decreases |a|
  {
    if a != {} {
      var x :| x in a;
      SubsetSize(a - {x}, b - {x});
    }
  }

  lemma ProjectedIsUnion(s: State, id: Id, w: Wishes)
    ensures D30Union(s.wants[id := w]) == Projected(s, id, w.d30)
  {
    var wants := s.wants[id := w];
    forall k ensures k in D30Union(wants) <==> k in Projected(s, id, w.d30) {
      if k in w.d30 { assert k in wants[id].d30; }
      if k in D30Union(s.wants - {id}) {
        var other :| other in s.wants - {id} && k in s.wants[other].d30;
        assert other in wants && k in wants[other].d30;
      }
      if k in D30Union(wants) {
        var other :| other in wants && k in wants[other].d30;
        assert other != id ==> other in s.wants - {id} && k in (s.wants - {id})[other].d30;
      }
    }
  }

  lemma SubscribeKeepsInv(s: State, id: Id, revision: Option<int>, d30: set<Key>, full: set<Key>, ltpc: set<Key>)
    requires Inv(s)
    ensures Inv(SubscribeStep(s, id, revision, d30, full, ltpc))
  {
    if Accepts(s, id, revision, d30) {
      ProjectedIsUnion(s, id, Wishes(d30, full - d30, ltpc));
      AllHeardBesides(s.sessions, s.wants, id, Wishes(d30, full - d30, ltpc));
      if id in s.sessions { HeedKeepsInv(s, id, RevisionOf(s.sessions[id], revision), d30, full, ltpc); }
    }
  }

  lemma HeedKeepsInv(s: State, id: Id, revision: int, d30: set<Key>, full: set<Key>, ltpc: set<Key>)
    requires Inv(s) && id in s.sessions && WithinCap(s.wants[id := Wishes(d30, full - d30, ltpc)])
    ensures Inv(Heed(SetClient(s, id, d30, full, ltpc), id, revision, d30, full, ltpc))
  {
    var now := s.sessions[id].(revision := revision, d30 := d30, full := full, ltpc := ltpc);
    OneChanged(s.sessions, s.byInstance, id, now);
    AllHeardBesides(s.sessions, s.wants, id, Wishes(d30, full - d30, ltpc));
  }

  lemma AllHeardBesides(sessions: map<Id, Session>, wants: map<Id, Wishes>, id: Id, w: Wishes)
    requires AllHeard(sessions, wants)
    ensures id !in sessions ==> AllHeard(sessions, wants[id := w])
    ensures forall now: Session {:trigger sessions[id := now]} :: Heard(now, Some(w)) ==> AllHeard(sessions[id := now], wants[id := w])
  {
  }

  lemma DisconnectKeepsInv(s: State, id: Id)
    requires Inv(s)
    ensures Inv(DisconnectStep(s, id))
    ensures id in s.sessions ==> DisconnectStep(s, id).byInstance == s.byInstance - {s.sessions[id].instance}
  {
    if id in s.sessions {
      SmallerUnion(s.wants, id);
      OneFewer(s.sessions, s.byInstance, id);
      assert AllHeard(s.sessions - {id}, s.wants - {id});
    }
  }

  lemma RegisterKeepsInv(s: State, id: Id, instance: Id, generation: int)
    requires Inv(s) && id !in s.sessions && instance !in s.byInstance
    ensures Inv(Register(s, id, instance, generation))
  {
    var session := Session(instance, generation, -1, {}, {}, {});
    OneMore(s.sessions, s.byInstance, id, session);
    assert session.full - session.d30 == {};
    assert AllHeard(s.sessions[id := session], s.wants);
  }

  lemma ConnectKeepsInv(s: State, id: Id, instance: Id, generation: int)
    requires Inv(s)
    ensures Inv(ConnectStep(s, id, instance, generation))
  {
    if id !in s.sessions {
      if instance in s.byInstance {
        DisconnectKeepsInv(s, s.byInstance[instance]);
        var s1 := DisconnectStep(s, s.byInstance[instance]);
        if generation > s.sessions[s.byInstance[instance]].generation { RegisterKeepsInv(s1, id, instance, generation); }
      } else {
        RegisterKeepsInv(s, id, instance, generation);
      }
    }
  }

  lemma StepKeepsInv(s: State, e: Step)
    requires Inv(s)
    ensures Inv(Next(s, e))
  {
    match e
    case Join(id, instance, generation) => ConnectKeepsInv(s, id, instance, generation);
    case Disconnect(id) => DisconnectKeepsInv(s, id);
    case Subscribe(id, revision, d30, full, ltpc) => SubscribeKeepsInv(s, id, revision, d30, full, ltpc);
    case SetPositions(_) => 
    case SetEngine(_) => 
    case Refresh(_) => 
  }

  lemma {:induction false} RunKeepsInv(s: State, steps: seq<Step>)
    requires Inv(s)
    ensures Inv(Run(s, steps))
    decreases |steps|
  {
    if steps != [] {
      StepKeepsInv(s, steps[0]);
      RunKeepsInv(Next(s, steps[0]), steps[1..]);
    }
  }

  lemma InitialInv()
    ensures Inv(INITIAL)
  {
  }

  /** Rank of a mode: a better mode carries all a lesser one does. */
  function Rank(m: Option<Mode>): nat {
    match m case None => 0 case Some(LTPC) => 1 case Some(FULL) => 2 case Some(D30) => 3
  }

  /** The best mode a session asked for a key in. */
  function Asked(session: Session, k: Key): Option<Mode> {
    if k in session.d30 then Some(D30) else if k in session.full then Some(FULL) else if k in session.ltpc then Some(LTPC) else None
  }

  /** Coverage and cap: in every reachable state every key a live session would be sent ticks of is
      wanted upstream in at least the mode it asked for, the D30 union is within the cap, the three
      sets are disjoint, and an app instance has at most one session. */
  lemma LiveSessionsAreCovered(steps: seq<Step>)
    ensures var s := Run(INITIAL, steps);
            && Disjoint(s.desired) && |s.desired.d30| <= D30_CAP
            && (forall id, k :: id in s.sessions ==> Rank(Wanted(s.desired, k)) >= Rank(Asked(s.sessions[id], k)))
            && (forall id, other :: id in s.sessions && other in s.sessions && s.sessions[id].instance == s.sessions[other].instance ==> id == other)
  {
    InitialInv();
    RunKeepsInv(INITIAL, steps);
    var s := Run(INITIAL, steps);
    forall id, k | id in s.sessions ensures Rank(Wanted(s.desired, k)) >= Rank(Asked(s.sessions[id], k)) { SessionCovered(s, id, k); }
    forall id, other | id in s.sessions && other in s.sessions && s.sessions[id].instance == s.sessions[other].instance ensures id == other {
      assert At(s.byInstance, s.sessions[id].instance) == Some(id);
    }
  }

  lemma SessionCovered(s: State, id: Id, k: Key)
    requires Inv(s) && id in s.sessions
    ensures Rank(Wanted(s.desired, k)) >= Rank(Asked(s.sessions[id], k))
  {
    assert Heard(s.sessions[id], At(s.wants, id));
    RankOfUnions(s.wants, s.tracked, s.positions, s.engine, k);
    if id in s.wants && k in s.wants[id].d30 { assert k in D30Union(s.wants); }
    if id in s.wants && k in s.wants[id].full { assert k in FullUnion(s.wants); }
    if id in s.wants && k in s.wants[id].ltpc { assert k in LtpcUnion(s.wants); }
  }

  // ---- removed sessions ----------------------------------------------------------------------------

  /** The manager holds the requests of live sessions and nothing else. */
  ghost predicate OnlyLive(sessions: map<Id, Session>, wants: map<Id, Wishes>) {
    && wants.Keys <= sessions.Keys
    && (forall id :: id in wants ==> wants[id] == Wishes(sessions[id].d30, sessions[id].full - sessions[id].d30, sessions[id].ltpc))
    && (forall id :: id in sessions && id !in wants ==> sessions[id].d30 == {} && sessions[id].full == {} && sessions[id].ltpc == {})
  }

  /** A subscription of a session that is no longer registered, small enough to be accepted. */
  predicate Leaks(s: State, e: Step) { e.Subscribe? && e.session !in s.sessions && Fits(s, e.session, e.d30) }

  lemma SubscribeKeepsOnlyLive(s: State, e: Step)
    requires OnlyLive(s.sessions, s.wants) && e.Subscribe?
    ensures OnlyLive(Next(s, e).sessions, Next(s, e).wants) <==> !Leaks(s, e)
  {
    var w := Wishes(e.d30, e.full - e.d30, e.ltpc);
    if e.session in s.sessions {
      var now := s.sessions[e.session].(revision := RevisionOf(s.sessions[e.session], e.revision), d30 := e.d30, full := e.full, ltpc := e.ltpc);
      assert OnlyLive(s.sessions[e.session := now], s.wants[e.session := w]);
    } else {
      assert e.session in s.wants[e.session := w];
    }
  }

  lemma DisconnectKeepsOnlyLive(s: State, id: Id)
    requires OnlyLive(s.sessions, s.wants)
    ensures OnlyLive(DisconnectStep(s, id).sessions, DisconnectStep(s, id).wants)
  {
  }

  lemma ConnectKeepsOnlyLive(s: State, id: Id, instance: Id, generation: int)
    requires OnlyLive(s.sessions, s.wants)
    ensures OnlyLive(ConnectStep(s, id, instance, generation).sessions, ConnectStep(s, id, instance, generation).wants)
  {
  }

  /** A step leaves only live requests exactly when it is no leak. */
  lemma StepKeepsOnlyLive(s: State, e: Step)
    requires OnlyLive(s.sessions, s.wants)
    ensures OnlyLive(Next(s, e).sessions, Next(s, e).wants) <==> !Leaks(s, e)
  {
    match e
    case Join(id, instance, generation) => ConnectKeepsOnlyLive(s, id, instance, generation);
    case Disconnect(id) => DisconnectKeepsOnlyLive(s, id);
    case Subscribe(_, _, _, _, _) => SubscribeKeepsOnlyLive(s, e);
    case _ =>
  }

  ghost predicate NoLeaks(s: State, steps: seq<Step>)
    decreases |steps|
  {
    steps == [] || (!Leaks(s, steps[0]) && NoLeaks(Next(s, steps[0]), steps[1..]))
  }

  lemma {:induction false} RunKeepsOnlyLive(s: State, steps: seq<Step>)
    requires OnlyLive(s.sessions, s.wants) && NoLeaks(s, steps)
    ensures OnlyLive(Run(s, steps).sessions, Run(s, steps).wants)
    decreases |steps|
  {
    if steps != [] {
      StepKeepsOnlyLive(s, steps[0]);
      RunKeepsOnlyLive(Next(s, steps[0]), steps[1..]);
    }
  }

  predicate AskedBySome(sessions: map<Id, Session>, k: Key, at: nat) {
    exists id :: id in sessions && Rank(Asked(sessions[id], k)) >= at
  }

  lemma UnionsAsked(sessions: map<Id, Session>, wants: map<Id, Wishes>, k: Key)
    requires OnlyLive(sessions, wants)
    ensures k in D30Union(wants) <==> AskedBySome(sessions, k, 3)
    ensures k in D30Union(wants) || k in FullUnion(wants) <==> AskedBySome(sessions, k, 2)
    ensures k in D30Union(wants) || k in FullUnion(wants) || k in LtpcUnion(wants) <==> AskedBySome(sessions, k, 1)
  {
    forall id | id in sessions
      ensures (id in wants && k in wants[id].d30) <==> Rank(Asked(sessions[id], k)) >= 3
      ensures (id in wants && (k in wants[id].d30 || k in wants[id].full)) <==> Rank(Asked(sessions[id], k)) >= 2
      ensures (id in wants && (k in wants[id].d30 || k in wants[id].full || k in wants[id].ltpc)) <==> Rank(Asked(sessions[id], k)) >= 1
    {}
    if k in D30Union(wants) { var id :| id in wants && k in wants[id].d30; assert Rank(Asked(sessions[id], k)) >= 3; }
    if k in FullUnion(wants) { var id :| id in wants && k in wants[id].full; assert Rank(Asked(sessions[id], k)) >= 2; }
    if k in LtpcUnion(wants) { var id :| id in wants && k in wants[id].ltpc; assert Rank(Asked(sessions[id], k)) >= 1; }
  }

  lemma RankOfUnions(wants: map<Id, Wishes>, tracked: set<Key>, positions: set<Key>, engine: set<Key>, k: Key)
    ensures var r := Rank(Wanted(Unions(wants, tracked, positions, engine), k));
            && (r >= 3 <==> k in D30Union(wants))
            && (r >= 2 <==> k in D30Union(wants) || k in FullUnion(wants) || k in tracked)
            && (r >= 1 <==> k in D30Union(wants) || k in FullUnion(wants) || k in LtpcUnion(wants) || k in tracked + positions + engine)
  {
  }

  /** Removed sessions contribute nothing: as long as no message of one is still handled, a key is
      wanted upstream in exactly the best mode that a live session asks for, or tracking (full) or an
      open position or lot (LTPC) calls for. */
  lemma RemovedSessionsContributeNothing(steps: seq<Step>, k: Key)
    requires NoLeaks(INITIAL, steps)
    ensures var s := Run(INITIAL, steps);
            && (Rank(Wanted(s.desired, k)) >= 3 <==> AskedBySome(s.sessions, k, 3))
            && (Rank(Wanted(s.desired, k)) >= 2 <==> AskedBySome(s.sessions, k, 2) || k in s.tracked)
            && (Rank(Wanted(s.desired, k)) >= 1 <==> AskedBySome(s.sessions, k, 1) || k in s.tracked + s.positions + s.engine)
  {
    InitialInv();
    RunKeepsInv(INITIAL, steps);
    RunKeepsOnlyLive(INITIAL, steps);
    var s := Run(INITIAL, steps);
    UnionsAsked(s.sessions, s.wants, k);
    RankOfUnions(s.wants, s.tracked, s.positions, s.engine, k);
  }

  /** A message of a removed session does leave something behind when it asks for anything new. */
  lemma RemovedSessionLeaks(s: State, id: Id, k: Key)
    requires Inv(s) && id !in s.sessions && Wanted(s.desired, k).None? && |s.desired.d30| < D30_CAP
    ensures Leaks(s, Subscribe(id, None, {k}, {}, {}))
    ensures Wanted(Next(s, Subscribe(id, None, {k}, {}, {})).desired, k) == Some(D30)
  {
    SmallerUnion(s.wants, id);
    var s' := SetClient(s, id, {k}, {}, {});
    UnionSize({k}, D30Union(s.wants - {id}));
    assert k in s'.wants[id].d30;
    assert k in D30Union(s'.wants);
  }

  lemma UnionSize<T>(a: set<T>, b: set<T>)
    ensures |a + b| <= |a| + |b|
  {
  }

  // ---- one step at a time ---------------------------------------------------------------------------

  /** A subscription is accepted exactly when it is newer than the last one and leaves the D30 union
      within the cap; otherwise nothing at all changes. */
  lemma RejectedChangesNothing(s: State, id: Id, revision: Option<int>, d30: set<Key>, full: set<Key>, ltpc: set<Key>)
    requires Inv(s) && id in s.sessions
    ensures var s' := Next(s, Subscribe(id, revision, d30, full, ltpc));
            if (revision.Some? ==> revision.value > s.sessions[id].revision) && WithinCap(s.wants[id := Wishes(d30, full - d30, ltpc)])
            then id in s'.sessions && s'.sessions[id].revision > s.sessions[id].revision && Asks(s'.sessions[id], d30, full, ltpc)
                 && s'.sessions - {id} == s.sessions - {id}
            else s' == s
  {
    AcceptsWithinCap(s, id, revision, d30, Wishes(d30, full - d30, ltpc));
    if Accepts(s, id, revision, d30) {
      HeedTouchesOne(SetClient(s, id, d30, full, ltpc), id, RevisionOf(s.sessions[id], revision), d30, full, ltpc);
    }
  }

  lemma AcceptsWithinCap(s: State, id: Id, revision: Option<int>, d30: set<Key>, w: Wishes)
    requires id in s.sessions && w.d30 == d30
    ensures Accepts(s, id, revision, d30)
            <==> (revision.Some? ==> revision.value > s.sessions[id].revision) && WithinCap(s.wants[id := w])
  {
    ProjectedIsUnion(s, id, w);
  }

  lemma HeedTouchesOne(s: State, id: Id, revision: int, d30: set<Key>, full: set<Key>, ltpc: set<Key>)
    requires id in s.sessions
    ensures var s' := Heed(s, id, revision, d30, full, ltpc);
            id in s'.sessions && s'.sessions[id].revision == revision && Asks(s'.sessions[id], d30, full, ltpc)
            && s'.sessions - {id} == s.sessions - {id}
  {
  }

  predicate Asks(session: Session, d30: set<Key>, full: set<Key>, ltpc: set<Key>) {
    session.d30 == d30 && session.full == full && session.ltpc == ltpc
  }

  /** The instance has a session in every state of the run. */
  predicate StaysConnected(s: State, steps: seq<Step>, instance: Id)
    decreases |steps|
  {
    instance in s.byInstance && (steps == [] || StaysConnected(Next(s, steps[0]), steps[1..], instance))
  }

  function Generation(s: State, instance: Id): int {
    if instance in s.byInstance && s.byInstance[instance] in s.sessions then s.sessions[s.byInstance[instance]].generation else 0
  }

  /** The instance's session is the same one with the same generation, or a newer one. */
  predicate SameOrNewer(s: State, s': State, instance: Id) {
    instance in s.byInstance && instance in s'.byInstance ==>
      if s'.byInstance[instance] == s.byInstance[instance] then Generation(s', instance) == Generation(s, instance)
      else Generation(s', instance) > Generation(s, instance)
  }

  lemma ConnectGeneration(s: State, id: Id, other: Id, generation: int, instance: Id)
    requires Inv(s)
    ensures SameOrNewer(s, ConnectStep(s, id, other, generation), instance)
  {
    if id !in s.sessions && other in s.byInstance {
      OneFewer(s.sessions, s.byInstance, s.byInstance[other]);
      DisconnectGeneration(s, s.byInstance[other], instance);
    }
  }

  lemma DisconnectGeneration(s: State, id: Id, instance: Id)
    requires Inv(s)
    ensures SameOrNewer(s, DisconnectStep(s, id), instance)
  {
    if id in s.sessions { OneFewer(s.sessions, s.byInstance, id); }
  }

  lemma StepGeneration(s: State, e: Step, instance: Id)
    requires Inv(s)
    ensures SameOrNewer(s, Next(s, e), instance)
  {
    match e
    case Join(id, other, generation) => ConnectGeneration(s, id, other, generation, instance);
    case Disconnect(id) => DisconnectGeneration(s, id, instance);
    case Subscribe(id, revision, d30, full, ltpc) =>
      if Accepts(s, id, revision, d30) && id in s.sessions {
        HeedGeneration(SetClient(s, id, d30, full, ltpc), id, RevisionOf(s.sessions[id], revision), d30, full, ltpc, instance);
      }
    case SetPositions(_) =>
    case SetEngine(_) =>
    case Refresh(_) =>
  }

  lemma HeedGeneration(s: State, id: Id, revision: int, d30: set<Key>, full: set<Key>, ltpc: set<Key>, instance: Id)
    requires id in s.sessions
    ensures SameOrNewer(s, Heed(s, id, revision, d30, full, ltpc), instance)
  {
  }

  /** While an instance stays connected its generation never goes down, and a new session of it always
      has a greater one. */
  lemma {:induction false} GenerationsGrow(s: State, steps: seq<Step>, instance: Id)
    requires Inv(s) && StaysConnected(s, steps, instance)
    ensures instance in Run(s, steps).byInstance && Generation(Run(s, steps), instance) >= Generation(s, instance)
    ensures Run(s, steps).byInstance[instance] != s.byInstance[instance] ==> Generation(Run(s, steps), instance) > Generation(s, instance)
    decreases |steps|
  {
    if steps != [] {
      StepGeneration(s, steps[0], instance);
      StepKeepsInv(s, steps[0]);
      GenerationsGrow(Next(s, steps[0]), steps[1..], instance);
    }
  }

  /** Once it has disconnected any generation is accepted again, a lower one too. */
  lemma GenerationForgotten(s: State, instance: Id, id: Id, generation: int)
    requires Inv(s) && instance in s.byInstance && id !in s.sessions
    ensures var s' := Next(Next(s, Disconnect(s.byInstance[instance])), Join(id, instance, generation));
            instance in s'.byInstance && s'.byInstance[instance] == id && Generation(s', instance) == generation
  {
  }
}
