/** Where the wanted keys come from, said from the history of a run. */
module SessionLaws {
  import opened Trading
  import FeedWire
  import opened FeedSessions

  // ---- what was set last --------------------------------------------------------------------------------

  function LastPositions(steps: seq<Step>): set<Key> {
    if steps == [] then {} else if steps[|steps| - 1].SetPositions? then steps[|steps| - 1].keys else LastPositions(steps[..|steps| - 1])
  }

  function LastEngine(steps: seq<Step>): set<Key> {
    if steps == [] then {} else if steps[|steps| - 1].SetEngine? then steps[|steps| - 1].keys else LastEngine(steps[..|steps| - 1])
  }

  function LastTracked(steps: seq<Step>): set<Key> {
    if steps == [] then {} else if steps[|steps| - 1].Refresh? then steps[|steps| - 1].tracked else LastTracked(steps[..|steps| - 1])
  }

  lemma {:induction false} RunMore(s: State, steps: seq<Step>, e: Step)
    ensures Run(s, steps + [e]) == Next(Run(s, steps), e)
    decreases |steps|
  {
    if steps == [] {
      assert ([e])[1..] == [];
    } else {
      assert (steps + [e])[1..] == steps[1..] + [e];
      RunMore(Next(s, steps[0]), steps[1..], e);
    }
  }

  lemma OthersLeaveSources(s: State, e: Step)
    ensures !e.SetPositions? ==> Next(s, e).positions == s.positions
    ensures !e.SetEngine? ==> Next(s, e).engine == s.engine
    ensures !e.Refresh? ==> Next(s, e).tracked == s.tracked
  {
  }

  /** Open positions, lots and tracked instruments are those set last. */
  lemma {:induction false} SourcesAreTheLastSet(steps: seq<Step>)
    ensures var s := Run(INITIAL, steps); s.positions == LastPositions(steps) && s.engine == LastEngine(steps) && s.tracked == LastTracked(steps)
  {
    if steps != [] {
      var front, e := steps[..|steps| - 1], steps[|steps| - 1];
      assert steps == front + [e];
      SourcesAreTheLastSet(front);
      RunMore(INITIAL, front, e);
      OthersLeaveSources(Run(INITIAL, front), e);
    }
  }

  /** In every run the instruments of the positions and lots set last are wanted, in whatever mode, and
      those tracked last in full mode or D30. */
  lemma SourcesAreWanted(steps: seq<Step>, k: Key)
    ensures var mode := FeedWire.Wanted(Run(INITIAL, steps).desired, k);
            && (k in LastPositions(steps) || k in LastEngine(steps) ==> mode.Some?)
            && (k in LastTracked(steps) ==> mode in {Some(FeedWire.FULL), Some(FeedWire.D30)})
  {
    InitialInv();
    RunKeepsInv(INITIAL, steps);
    SourcesAreTheLastSet(steps);
    var s := Run(INITIAL, steps);
    RankOfUnions(s.wants, s.tracked, s.positions, s.engine, k);
  }

  // ---- what was asked for last ----------------------------------------------------------------------------

  /** The subscription the manager accepted last from a session, since it was last removed. */
  function LastAccepted(steps: seq<Step>, id: Id): Option<Step> {
    if steps == [] then None
    else
      var before, s, e := LastAccepted(steps[..|steps| - 1], id), Run(INITIAL, steps[..|steps| - 1]), steps[|steps| - 1];
      if id in s.sessions && id !in Next(s, e).sessions then None
      else if e.Subscribe? && e.session == id && Accepts(s, id, e.revision, e.d30) then Some(e)
      else before
  }

  /** What the manager holds of a live session is what it asked for in its last accepted message: D30
      first, full for the rest of the full keys. */
  ghost predicate HoldsLast(s: State, id: Id, last: Option<Step>) {
    if last.None? then id !in s.wants
    else last.value.Subscribe? && At(s.wants, id) == Some(FeedWire.Wishes(last.value.d30, last.value.full - last.value.d30, last.value.ltpc))
  }

  lemma RemovedAreForgotten(s: State, e: Step, id: Id)
    requires id in s.sessions && id !in Next(s, e).sessions
    ensures id !in Next(s, e).wants
  {
  }

  lemma OthersKeepWants(s: State, e: Step, id: Id)
    requires OneEach(s.sessions, s.byInstance) && !(id in s.sessions && id !in Next(s, e).sessions)
    requires !(e.Subscribe? && e.session == id && Accepts(s, id, e.revision, e.d30))
    ensures At(Next(s, e).wants, id) == At(s.wants, id)
  {
    match e
    case Join(joining, instance, generation) => JoiningKeepsWants(s, joining, instance, generation, id);
    case Subscribe(_, _, _, _, _) => SubscribingKeepsWants(s, e, id);
    case Disconnect(leaving) => LeavingKeepsWants(s, leaving, id);
    case _ => SettingKeepsWants(s, e);
  }

  lemma SettingKeepsWants(s: State, e: Step)
    requires e.SetPositions? || e.SetEngine? || e.Refresh?
    ensures Next(s, e).wants == s.wants
  {
  }

  lemma JoiningKeepsWants(s: State, joining: Id, instance: Id, generation: int, id: Id)
    requires OneEach(s.sessions, s.byInstance) && !(id in s.sessions && id !in ConnectStep(s, joining, instance, generation).sessions)
    ensures At(ConnectStep(s, joining, instance, generation).wants, id) == At(s.wants, id)
  {
    if instance in s.byInstance { LeavingKeepsWants(s, s.byInstance[instance], id); }
  }

  lemma LeavingKeepsWants(s: State, leaving: Id, id: Id)
    ensures leaving != id ==> At(DisconnectStep(s, leaving).wants, id) == At(s.wants, id)
    ensures DisconnectStep(s, leaving).sessions == s.sessions - {leaving}
    ensures leaving !in s.sessions ==> DisconnectStep(s, leaving) == s
  {
  }

  lemma SubscribingKeepsWants(s: State, e: Step, id: Id)
    requires e.Subscribe? && !(e.session == id && Accepts(s, id, e.revision, e.d30))
    ensures At(Next(s, e).wants, id) == At(s.wants, id)
  {
  }

  lemma AcceptedIsHeld(s: State, e: Step, id: Id)
    requires e.Subscribe? && e.session == id && Accepts(s, id, e.revision, e.d30)
    ensures HoldsLast(Next(s, e), id, Some(e))
  {
  }

  lemma {:induction false} ManagerHoldsWhatWasAskedLast(steps: seq<Step>, id: Id)
    ensures HoldsLast(Run(INITIAL, steps), id, LastAccepted(steps, id))
  {
    if steps != [] {
      var front, e := steps[..|steps| - 1], steps[|steps| - 1];
      assert steps == front + [e];
      ManagerHoldsWhatWasAskedLast(front, id);
      RunMore(INITIAL, front, e);
      InitialInv();
      RunKeepsInv(INITIAL, front);
      var s := Run(INITIAL, front);
      if id in s.sessions && id !in Next(s, e).sessions {
        RemovedAreForgotten(s, e, id);
      } else if e.Subscribe? && e.session == id && Accepts(s, id, e.revision, e.d30) {
        AcceptedIsHeld(s, e, id);
      } else {
        OthersKeepWants(s, e, id);
      }
    }
  }

  // ---- what is accepted ------------------------------------------------------------------------------------

  /** The keys that are in D30 when a session asks for `d30`: those, and those other sessions ask for. */
  ghost predicate InD30Then(s: State, id: Id, d30: set<Key>, k: Key) {
    k in d30 || exists other :: other in s.wants && other != id && k in s.wants[other].d30
  }

  lemma ProjectedAre(s: State, id: Id, d30: set<Key>, k: Key)
    ensures k in Projected(s, id, d30) <==> InD30Then(s, id, d30, k)
  {
    if other :| other in s.wants && other != id && k in s.wants[other].d30 { assert other in s.wants - {id} && k in (s.wants - {id})[other].d30; }
  }

  /** A live session's message is heeded exactly when its revision is newer than the last, a message without
      one counting as the next, and at most forty-five D30 keys are then wanted by all sessions together. */
  lemma HeededIff(s: State, id: Id, revision: Option<int>, d30: set<Key>, full: set<Key>, ltpc: set<Key>, union: set<Key>)
    requires id in s.sessions && forall k :: k in union <==> InD30Then(s, id, d30, k)
    ensures var s', last := Next(s, Subscribe(id, revision, d30, full, ltpc)), s.sessions[id].revision;
            if (revision.Some? ==> revision.value > last) && |union| <= 45
            then id in s'.sessions && s'.sessions[id].revision == (if revision.Some? then revision.value else last + 1)
            else s' == s
  {
    forall k ensures k in union <==> k in Projected(s, id, d30) { ProjectedAre(s, id, d30, k); }
    assert union == Projected(s, id, d30);
  }

  /** A new session starts before revision zero: its first message may carry zero, but no negative number. */
  lemma FirstRevision(s: State, id: Id, instance: Id, generation: int, revision: int)
    requires FeedSessions.Inv(s) && id !in s.sessions && id in Next(s, Join(id, instance, generation)).sessions
    ensures var s1 := Next(s, Join(id, instance, generation));
            s1.sessions[id].revision < 0 && (revision >= 0 <==> revision > s1.sessions[id].revision)
  {
  }
}
