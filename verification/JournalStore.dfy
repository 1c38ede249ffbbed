/** Rebuilding the trades of one trading date from its fills, while keeping the trades somebody has
    written notes on. */
module JournalStore {
  import opened Trading
  import opened JournalMatcher

  /** A trade row: the numbers and the date it was written with, and whether it needs review. Its id is
      its fingerprint. */
  datatype Row = Row(trip: RoundTrip, date: int, review: bool)

  /** The tables: fills of every date in the order of time and id, trades, their links, their notes. */
  datatype Db = Db(
    fills: seq<Fill>,
    trades: map<Fingerprint, Row>,
    links: map<Fingerprint, set<Allocation>>,
    notes: set<Fingerprint>
  )

  // ---- fills -------------------------------------------------------------------------------------

  predicate Before(f: Fill, g: Fill) { f.at < g.at || (f.at == g.at && f.id < g.id) }

  function Inserted(fills: seq<Fill>, f: Fill): seq<Fill> {
    if fills == [] || !Before(f, fills[|fills| - 1]) then fills + [f]
    else Inserted(fills[..|fills| - 1], f) + [fills[|fills| - 1]]
  }

  function Without(fills: seq<Fill>, id: nat): seq<Fill> {
    if fills == [] then []
    else Without(fills[..|fills| - 1], id) + (var f := fills[|fills| - 1]; if f.id == id then [] else [f])
  }

  /** `upsert_fill`: a known id gets all its columns overwritten, its date too. */
  function WithFill(fills: seq<Fill>, f: Fill): seq<Fill> { Inserted(Without(fills, f.id), f) }

  /** `fills_for_session`. */
  function Session(fills: seq<Fill>, date: int): seq<Fill> {
    if fills == [] then []
    else Session(fills[..|fills| - 1], date) + (var f := fills[|fills| - 1]; if f.date == date then [f] else [])
  }

  // ---- candidates --------------------------------------------------------------------------------

  function OfInstrument(fills: seq<Fill>, k: Key): seq<Fill> {
    if fills == [] then []
    else OfInstrument(fills[..|fills| - 1], k) + (var f := fills[|fills| - 1]; if f.instrument == k then [f] else [])
  }

  /** The instruments of a session, each once, in order of appearance. */
  function Instruments(fills: seq<Fill>): seq<Key> {
    if fills == [] then []
    else
      var before, k := Instruments(fills[..|fills| - 1]), fills[|fills| - 1].instrument;
      if k in before then before else before + [k]
  }

  function CandidatesOf(fills: seq<Fill>, instruments: seq<Key>): seq<RoundTrip> {
    if instruments == [] then []
    else CandidatesOf(fills, instruments[..|instruments| - 1])
         + TradesOf(Segments(OfInstrument(fills, instruments[|instruments| - 1])))
  }

  function Candidates(fills: seq<Fill>): seq<RoundTrip> { CandidatesOf(fills, Instruments(fills)) }

  // ---- rebuilding, as a whole ----------------------------------------------------------------------

  function FillIds(allocations: set<Allocation>): set<nat> { set a | a in allocations :: a.fill }

  function Fingerprints(trips: seq<RoundTrip>): set<Fingerprint> { set i | 0 <= i < |trips| :: trips[i].fingerprint }

  /** Annotated trades of the date that no candidate matches any more: they are kept for review. */
  function Protected(db: Db, date: int, trips: seq<RoundTrip>): set<Fingerprint> {
    set t | t in db.trades && db.trades[t].date == date && t !in Fingerprints(trips) && t in db.notes
  }

  predicate Clashes(db: Db, protected: set<Fingerprint>, t: Fingerprint) {
    exists p :: p in protected && p in db.links && FillIds(db.links[p]) * FillIds(t) != {}
  }

  /** Candidates that would share a fill with a protected trade are not written. */
  function Written(db: Db, date: int, trips: seq<RoundTrip>): set<Fingerprint> {
    set t | t in Fingerprints(trips) && !Clashes(db, Protected(db, date, trips), t)
  }

  function Find(trips: seq<RoundTrip>, t: Fingerprint): RoundTrip
    requires t in Fingerprints(trips)
  {
    if trips[0].fingerprint == t then trips[0] else assert t in Fingerprints(trips[1..]) by { FoundLater(trips, t); } Find(trips[1..], t)
  }

  lemma FoundLater(trips: seq<RoundTrip>, t: Fingerprint)
    requires t in Fingerprints(trips) && trips[0].fingerprint != t
    ensures t in Fingerprints(trips[1..])
  {
  }

  /** A trade that is already there keeps everything but its P&L and charges, its date too. */
  function Upserted(trades: map<Fingerprint, Row>, date: int, trip: RoundTrip): Row {
    if trip.fingerprint in trades then
      var was := trades[trip.fingerprint];
      was.(trip := was.trip.(gross := trip.gross, charges := trip.charges))
    else Row(trip, date, false)
  }

  function Kept(db: Db, date: int, trips: seq<RoundTrip>): set<Fingerprint> {
    set t | t in db.trades && (db.trades[t].date != date || t in Fingerprints(trips) || t in db.notes)
  }

  function RowAfter(db: Db, date: int, trips: seq<RoundTrip>, t: Fingerprint): Row
    requires t in Kept(db, date, trips) + Written(db, date, trips)
  {
    if t in Written(db, date, trips) then Upserted(db.trades, date, Find(trips, t))
    else if t in Protected(db, date, trips) then db.trades[t].(review := true)
    else db.trades[t]
  }

  function LinksAfter(db: Db, date: int, trips: seq<RoundTrip>, t: Fingerprint): set<Allocation> {
    if t in Written(db, date, trips) then t else if t in db.links then db.links[t] else {}
  }

  /** Unannotated trades of the date that are no longer matched go, with their links; annotated ones
      and those of other dates stay; every candidate that clashes with no annotated trade of the date
      is written, and linked to its fills. */
  function RebuiltWith(db: Db, date: int, trips: seq<RoundTrip>): Db {
    var keys := Kept(db, date, trips) + Written(db, date, trips);
    db.(trades := map t | t in keys :: RowAfter(db, date, trips, t), links := map t | t in keys :: LinksAfter(db, date, trips, t))
  }

  function TripsOn(db: Db, date: int): seq<RoundTrip> { Candidates(Session(db.fills, date)) }

  /** `rebuild_session`. */
  function Rebuilt(db: Db, date: int): Db { RebuiltWith(db, date, TripsOn(db, date)) }

  /** What a rebuild reports: the trades it kept for review. */
  function Conflicts(db: Db, date: int): set<Fingerprint> { Protected(db, date, TripsOn(db, date)) }

  // ---- what the rebuild relies on ---------------------------------------------------------------------

  /** Fill ids are the primary key of the fills table. */
  predicate DistinctIds(fills: seq<Fill>) { forall i, j :: 0 <= i < j < |fills| ==> fills[i].id != fills[j].id }

  function Ids(fills: seq<Fill>): set<nat> { set i | 0 <= i < |fills| :: fills[i].id }

  predicate TripsDisjoint(trips: seq<RoundTrip>) {
    && (forall i :: 0 <= i < |trips| ==> trips[i].fingerprint != {})
    && (forall i, j :: 0 <= i < j < |trips| ==> FillIds(trips[i].fingerprint) !! FillIds(trips[j].fingerprint))
  }

  predicate TripsWithin(trips: seq<RoundTrip>, ids: set<nat>) {
    forall i :: 0 <= i < |trips| ==> FillIds(trips[i].fingerprint) <= ids
  }

  lemma FingerprintIds(fills: seq<Fill>)
    requires fills != []
    ensures FillIds(FingerprintOf(fills)) == Ids(fills) && FingerprintOf(fills) != {}
  {
    var fp := FingerprintOf(fills);
    forall i | 0 <= i < |fills| ensures fills[i].id in FillIds(fp) {
      var a := Allocation(fills[i].id, RoleOf(fills[i], fills[0].side), fills[i].quantity);
      assert a in fp && a.fill == fills[i].id;
    }
    assert fills[0].id in FillIds(fp);
  }

  lemma DisjointJoin(a: seq<RoundTrip>, b: seq<RoundTrip>, ids: set<nat>, more: set<nat>)
    requires TripsDisjoint(a) && TripsDisjoint(b) && TripsWithin(a, ids) && TripsWithin(b, more) && ids !! more
    ensures TripsDisjoint(a + b) && TripsWithin(a + b, ids + more)
  {
  }

  lemma AppendIds(a: seq<Fill>, b: seq<Fill>)
    ensures Ids(a + b) == Ids(a) + Ids(b)
    ensures DistinctIds(a + b) ==> DistinctIds(a) && DistinctIds(b) && Ids(a) !! Ids(b)
  {
    var all := a + b;
    forall i | 0 <= i < |a| ensures a[i].id in Ids(all) { assert all[i] == a[i]; }
    forall i | 0 <= i < |b| ensures b[i].id in Ids(all) { assert all[|a| + i] == b[i]; }
    if DistinctIds(all) {
      assert DistinctIds(a) by { forall i, j | 0 <= i < j < |a| ensures a[i].id != a[j].id { assert all[i] == a[i] && all[j] == a[j]; } }
      forall i, j | 0 <= i < j < |b| ensures b[i].id != b[j].id { assert all[|a| + i] == b[i] && all[|a| + j] == b[j]; }
      forall i, j | 0 <= i < |a| && 0 <= j < |b| ensures a[i].id != b[j].id { assert all[i] == a[i] && all[|a| + j] == b[j]; }
    }
  }

  lemma {:induction false} SegmentTradesDisjoint(segments: seq<seq<Fill>>)
    requires DistinctIds(Flat(segments))
    ensures TripsDisjoint(TradesOf(segments)) && TripsWithin(TradesOf(segments), Ids(Flat(segments)))
  {
    if segments != [] {
      var front, last := segments[..|segments| - 1], segments[|segments| - 1];
      assert segments == front + [last];
      FlatMore(front, last);
      AppendIds(Flat(front), last);
      SegmentTradesDisjoint(front);
      var trade := if IsTrade(last) then [TradeOf(last)] else [];
      if IsTrade(last) { FingerprintIds(last); }
      DisjointJoin(TradesOf(front), trade, Ids(Flat(front)), Ids(last));
    }
  }

  function IdsOfInstruments(fills: seq<Fill>, instruments: seq<Key>): set<nat> {
    set i | 0 <= i < |fills| && fills[i].instrument in instruments :: fills[i].id
  }

  lemma OneMoreId(fills: seq<Fill>, last: Fill, instruments: seq<Key>)
    ensures IdsOfInstruments(fills + [last], instruments)
         == IdsOfInstruments(fills, instruments) + if last.instrument in instruments then {last.id} else {}
  {
    var all := fills + [last];
    forall i | 0 <= i < |fills| && fills[i].instrument in instruments ensures fills[i].id in IdsOfInstruments(all, instruments) {
      assert all[i] == fills[i];
    }
    assert all[|fills|] == last;
  }

  lemma {:induction false} InstrumentIds(fills: seq<Fill>, k: Key)
    ensures Ids(OfInstrument(fills, k)) == IdsOfInstruments(fills, [k]) <= Ids(fills)
    ensures DistinctIds(fills) ==> DistinctIds(OfInstrument(fills, k))
  {
    if fills != [] {
      var front, last := fills[..|fills| - 1], fills[|fills| - 1];
      assert fills == front + [last];
      InstrumentIds(front, k);
      OneMoreId(front, last, [k]);
      AppendIds(front, [last]);
      AppendIds(OfInstrument(front, k), if last.instrument == k then [last] else []);
      DistinctJoin(OfInstrument(front, k), front, last);
    }
  }

  lemma DistinctJoin(some: seq<Fill>, front: seq<Fill>, last: Fill)
    requires Ids(some) <= Ids(front)
    ensures DistinctIds(front + [last]) && DistinctIds(some) ==> DistinctIds(some + [last])
  {
    AppendIds(front, [last]);
    forall i | 0 <= i < |some| ensures some[i].id in Ids(front) { assert some[i].id in Ids(some); }
    assert [last][0].id in Ids([last]);
  }

  predicate DistinctKeys(keys: seq<Key>) { forall i, j :: 0 <= i < j < |keys| ==> keys[i] != keys[j] }

  lemma {:induction false} InstrumentsAreDistinct(fills: seq<Fill>)
    ensures DistinctKeys(Instruments(fills))
    ensures forall i :: 0 <= i < |fills| ==> fills[i].instrument in Instruments(fills)
  {
    if fills != [] {
      var front := fills[..|fills| - 1];
      InstrumentsAreDistinct(front);
      assert forall i :: 0 <= i < |front| ==> front[i] == fills[i];
    }
  }

  lemma InstrumentsShareNoFill(fills: seq<Fill>, instruments: seq<Key>, k: Key)
    requires DistinctIds(fills) && k !in instruments
    ensures IdsOfInstruments(fills, instruments) !! IdsOfInstruments(fills, [k])
  {
  }

  lemma {:induction false} CandidatesDisjoint(fills: seq<Fill>, instruments: seq<Key>)
    requires DistinctIds(fills) && DistinctKeys(instruments)
    ensures TripsDisjoint(CandidatesOf(fills, instruments))
    ensures TripsWithin(CandidatesOf(fills, instruments), IdsOfInstruments(fills, instruments))
  {
    if instruments != [] {
      var front, k := instruments[..|instruments| - 1], instruments[|instruments| - 1];
      CandidatesDisjoint(fills, front);
      OneInstrumentDisjoint(fills, k);
      var ids, more := IdsOfInstruments(fills, front), Ids(OfInstrument(fills, k));
      InstrumentIds(fills, k);
      InstrumentsShareNoFill(fills, front, k);
      DisjointJoin(CandidatesOf(fills, front), TradesOf(Segments(OfInstrument(fills, k))), ids, more);
      assert ids + more <= IdsOfInstruments(fills, instruments);
    }
  }

  lemma OneInstrumentDisjoint(fills: seq<Fill>, k: Key)
    requires DistinctIds(fills)
    ensures TripsDisjoint(TradesOf(Segments(OfInstrument(fills, k))))
    ensures TripsWithin(TradesOf(Segments(OfInstrument(fills, k))), Ids(OfInstrument(fills, k)))
  {
    var mine := OfInstrument(fills, k);
    InstrumentIds(fills, k);
    var rest := SegmentsMatch(mine);
    AppendIds(Flat(Segments(mine)), rest);
    SegmentTradesDisjoint(Segments(mine));
  }

  /** The candidates of a session are made of its fills and share none of them. */
  lemma SessionTripsDisjoint(fills: seq<Fill>)
    requires DistinctIds(fills)
    ensures TripsDisjoint(Candidates(fills)) && TripsWithin(Candidates(fills), Ids(fills))
  {
    InstrumentsAreDistinct(fills);
    CandidatesDisjoint(fills, Instruments(fills));
  }

  lemma {:induction false} SessionIds(fills: seq<Fill>, date: int)
    ensures Ids(Session(fills, date)) <= Ids(fills)
    ensures forall f :: f in Session(fills, date) ==> f in fills && f.date == date
    ensures DistinctIds(fills) ==> DistinctIds(Session(fills, date))
  {
    if fills != [] {
      var front, last := fills[..|fills| - 1], fills[|fills| - 1];
      assert fills == front + [last];
      SessionIds(front, date);
      AppendIds(front, [last]);
      AppendIds(Session(front, date), if last.date == date then [last] else []);
      DistinctJoin(Session(front, date), front, last);
    }
  }

  lemma TripsOnAreFine(db: Db, date: int)
    requires DistinctIds(db.fills)
    ensures TripsDisjoint(TripsOn(db, date)) && TripsWithin(TripsOn(db, date), Ids(Session(db.fills, date)))
    ensures Ids(Session(db.fills, date)) <= Ids(db.fills)
  {
    SessionIds(db.fills, date);
    SessionTripsDisjoint(Session(db.fills, date));
  }

  lemma {:induction false} WithoutIds(fills: seq<Fill>, id: nat)
    ensures Ids(Without(fills, id)) == Ids(fills) - {id}
    ensures DistinctIds(fills) ==> DistinctIds(Without(fills, id))
  {
    if fills != [] {
      var front, last := fills[..|fills| - 1], fills[|fills| - 1];
      assert fills == front + [last];
      WithoutIds(front, id);
      AppendIds(front, [last]);
      AppendIds(Without(front, id), if last.id == id then [] else [last]);
      DistinctJoin(Without(front, id), front, last);
      assert Ids([last]) == {last.id} by { assert [last][0] == last; }
    }
  }

  lemma {:induction false} InsertedIds(fills: seq<Fill>, f: Fill)
    ensures Ids(Inserted(fills, f)) == Ids(fills) + {f.id}
    ensures DistinctIds(fills) && f.id !in Ids(fills) ==> DistinctIds(Inserted(fills, f))
  {
    assert Ids([f]) == {f.id} by { assert [f][0] == f; }
    AppendIds(fills, [f]);
    if fills == [] || !Before(f, fills[|fills| - 1]) {
      DistinctAppend(fills, f);
    } else {
      var front, last := fills[..|fills| - 1], fills[|fills| - 1];
      assert fills == front + [last];
      InsertedIds(front, f);
      AppendIds(front, [last]);
      AppendIds(Inserted(front, f), [last]);
      assert Ids([last]) == {last.id} by { assert [last][0] == last; }
      DistinctAppend(Inserted(front, f), last);
    }
  }

  lemma DistinctAppend(fills: seq<Fill>, f: Fill)
    ensures DistinctIds(fills) && f.id !in Ids(fills) ==> DistinctIds(fills + [f])
  {
    forall i | 0 <= i < |fills| ensures fills[i].id in Ids(fills) {}
  }

  lemma WithFillIds(fills: seq<Fill>, f: Fill)
    requires DistinctIds(fills)
    ensures Ids(WithFill(fills, f)) == Ids(fills) + {f.id} && DistinctIds(WithFill(fills, f))
  {
    WithoutIds(fills, f.id);
    InsertedIds(Without(fills, f.id), f);
  }

  // ---- invariants over runs ---------------------------------------------------------------------------

  /** Links are those of the trades, a trade's links are the allocations it was made of, of fills that
      exist, and notes are about trades that exist. */
  ghost predicate Inv(db: Db) {
    && db.links.Keys == db.trades.Keys
    && (forall t :: t in db.trades ==> db.links[t] == t && t != {} && db.trades[t].trip.fingerprint == t && FillIds(t) <= Ids(db.fills))
    && db.notes <= db.trades.Keys
    && DistinctIds(db.fills)
  }

  lemma {:induction false} FindIsThere(trips: seq<RoundTrip>, t: Fingerprint) returns (i: nat)
    requires t in Fingerprints(trips)
    ensures i < |trips| && Find(trips, t) == trips[i] && trips[i].fingerprint == t
  {
    if trips[0].fingerprint == t {
      i := 0;
    } else {
      FoundLater(trips, t);
      i := FindIsThere(trips[1..], t);
      i := i + 1;
    }
  }

  lemma RebuildKeepsInv(db: Db, date: int, trips: seq<RoundTrip>)
    requires Inv(db) && TripsDisjoint(trips) && TripsWithin(trips, Ids(db.fills))
    ensures Inv(RebuiltWith(db, date, trips))
  {
    var db' := RebuiltWith(db, date, trips);
    forall t | t in db'.trades
      ensures db'.links[t] == t && t != {} && db'.trades[t].trip.fingerprint == t && FillIds(t) <= Ids(db.fills)
    {
      if t in Fingerprints(trips) { var i := FindIsThere(trips, t); }
    }
    forall t | t in db'.notes ensures t in db'.trades { assert t in Kept(db, date, trips); }
  }

  datatype Step = Upsert(fill: Fill) | Annotate(trade: Fingerprint) | Rebuild(date: int)

  function Next(db: Db, e: Step): Db {
    match e
    case Upsert(f) => db.(fills := WithFill(db.fills, f))
    case Annotate(t) => if t in db.trades then db.(notes := db.notes + {t}) else db
    case Rebuild(date) => Rebuilt(db, date)
  }

  function Run(db: Db, steps: seq<Step>): Db
    decreases |steps|
  {
    if steps == [] then db else Run(Next(db, steps[0]), steps[1..])
  }

  const EMPTY := Db([], map[], map[], {})

  lemma StepKeepsInv(db: Db, e: Step)
    requires Inv(db)
    ensures Inv(Next(db, e))
  {
    match e
    case Upsert(f) => WithFillIds(db.fills, f);
    case Annotate(_) =>
    case Rebuild(date) =>
      TripsOnAreFine(db, date);
      RebuildKeepsInv(db, date, TripsOn(db, date));
  }

  lemma {:induction false} RunKeepsInv(db: Db, steps: seq<Step>)
    requires Inv(db)
    ensures Inv(Run(db, steps))
    decreases |steps|
  {
    if steps != [] {
      StepKeepsInv(db, steps[0]);
      RunKeepsInv(Next(db, steps[0]), steps[1..]);
    }
  }

  lemma AnnotatedSurviveStep(db: Db, e: Step, t: Fingerprint)
    requires Inv(db) && t in db.notes
    ensures t in Next(db, e).notes && t in Next(db, e).trades && t in Next(db, e).links && Next(db, e).links[t] == db.links[t]
    ensures Next(db, e).trades[t].date == db.trades[t].date
    ensures db.trades[t].review ==> Next(db, e).trades[t].review
  {
    StepKeepsInv(db, e);
    if e.Rebuild? {
      var trips := TripsOn(db, e.date);
      assert t in Kept(db, e.date, trips);
      RebuiltAt(db, e.date, trips, t);
      if t in Written(db, e.date, trips) { var i := FindIsThere(trips, t); }
    }
  }

  /** A trade somebody wrote notes on is never deleted, dated or linked to other fills, whatever fills of
      whatever date come, change or move afterwards; and once marked for review it stays marked. */
  lemma {:induction false} AnnotatedTradesSurvive(db: Db, steps: seq<Step>, t: Fingerprint)
    requires Inv(db) && t in db.notes
    ensures t in Run(db, steps).trades && t in Run(db, steps).links && Run(db, steps).links[t] == db.links[t]
    ensures Run(db, steps).trades[t].date == db.trades[t].date
    ensures db.trades[t].review ==> Run(db, steps).trades[t].review
    decreases |steps|
  {
    if steps != [] {
      AnnotatedSurviveStep(db, steps[0], t);
      StepKeepsInv(db, steps[0]);
      AnnotatedTradesSurvive(Next(db, steps[0]), steps[1..], t);
    }
  }

  // ---- one rebuild -----------------------------------------------------------------------------------

  lemma RebuiltAt(db: Db, date: int, trips: seq<RoundTrip>, t: Fingerprint)
    requires t in Kept(db, date, trips) + Written(db, date, trips)
    ensures t in RebuiltWith(db, date, trips).trades && RebuiltWith(db, date, trips).trades[t] == RowAfter(db, date, trips, t)
    ensures t in RebuiltWith(db, date, trips).links && RebuiltWith(db, date, trips).links[t] == LinksAfter(db, date, trips, t)
  {
  }

  lemma SameProtected(db: Db, date: int, trips: seq<RoundTrip>)
    requires Inv(db) && TripsDisjoint(trips)
    ensures Protected(RebuiltWith(db, date, trips), date, trips) == Protected(db, date, trips)
    ensures Written(RebuiltWith(db, date, trips), date, trips) == Written(db, date, trips)
    ensures Kept(RebuiltWith(db, date, trips), date, trips) == RebuiltWith(db, date, trips).trades.Keys
  {
  }

  /** A rebuild of one date touches no trade of another: it stays with its links, its notes and its row,
      but for the P&L and charges of a trade that was written under another date from these very fills. */
  lemma OtherDatesStay(db: Db, date: int, t: Fingerprint)
    requires Inv(db) && t in db.trades && db.trades[t].date != date
    ensures var db' := Rebuilt(db, date);
            && t in db'.trades && t in db'.links && db'.links[t] == db.links[t] && db'.notes == db.notes
            && (t !in Fingerprints(TripsOn(db, date)) ==> db'.trades[t] == db.trades[t])
            && db'.trades[t].(trip := db.trades[t].trip) == db.trades[t]
  {
    var trips := TripsOn(db, date);
    assert t in Kept(db, date, trips);
    RebuiltAt(db, date, trips, t);
    if t in Written(db, date, trips) { var i := FindIsThere(trips, t); }
  }

  /** A second rebuild of the same fills changes nothing and reports the same conflicts. */
  lemma RebuildIsIdempotent(db: Db, date: int)
    requires Inv(db)
    ensures Rebuilt(Rebuilt(db, date), date) == Rebuilt(db, date) && Conflicts(Rebuilt(db, date), date) == Conflicts(db, date)
  {
    var trips := TripsOn(db, date);
    TripsOnAreFine(db, date);
    SameProtected(db, date, trips);
    RebuildTwice(db, date, trips);
  }

  lemma RebuildTwice(db: Db, date: int, trips: seq<RoundTrip>)
    requires Inv(db) && TripsDisjoint(trips)
    ensures RebuiltWith(RebuiltWith(db, date, trips), date, trips) == RebuiltWith(db, date, trips)
  {
    var once := RebuiltWith(db, date, trips);
    var keys := Kept(db, date, trips) + Written(db, date, trips);
    SameProtected(db, date, trips);
    forall t | t in keys
      ensures t in RebuiltWith(once, date, trips).trades && RebuiltWith(once, date, trips).trades[t] == once.trades[t]
      ensures t in RebuiltWith(once, date, trips).links && RebuiltWith(once, date, trips).links[t] == once.links[t]
    {
      SameRow(db, date, trips, t);
      RebuiltAt(once, date, trips, t);
    }
    SameRows(once, RebuiltWith(once, date, trips), keys);
  }

  lemma SameRows(db: Db, db': Db, keys: set<Fingerprint>)
    requires db'.fills == db.fills && db'.notes == db.notes
    requires db.trades.Keys == keys && db'.trades.Keys == keys && db.links.Keys == keys && db'.links.Keys == keys
    requires forall t :: t in keys ==> db'.trades[t] == db.trades[t] && db'.links[t] == db.links[t]
    ensures db' == db
  {
    assert db'.trades == db.trades && db'.links == db.links;
  }

  lemma SameRow(db: Db, date: int, trips: seq<RoundTrip>, t: Fingerprint)
    requires Inv(db) && TripsDisjoint(trips) && t in Kept(db, date, trips) + Written(db, date, trips)
    ensures t in RebuiltWith(db, date, trips).trades && t in RebuiltWith(db, date, trips).links
    ensures t in Kept(RebuiltWith(db, date, trips), date, trips) + Written(RebuiltWith(db, date, trips), date, trips)
    ensures RowAfter(RebuiltWith(db, date, trips), date, trips, t) == RebuiltWith(db, date, trips).trades[t]
    ensures LinksAfter(RebuiltWith(db, date, trips), date, trips, t) == RebuiltWith(db, date, trips).links[t]
  {
    SameProtected(db, date, trips);
    RebuiltAt(db, date, trips, t);
    if t in Written(db, date, trips) { var i := FindIsThere(trips, t); }
  }

  /** After a rebuild every round trip of the session is a trade with its P&L, charges and links, unless
      it shares a fill with an annotated trade of the date that is now marked for review. */
  lemma EveryTripIsAccountedFor(db: Db, date: int, i: nat)
    requires Inv(db) && i < |TripsOn(db, date)|
    ensures var trip, db' := TripsOn(db, date)[i], Rebuilt(db, date);
            || (trip.fingerprint in db'.trades && db'.trades[trip.fingerprint].trip.gross == trip.gross
                && db'.trades[trip.fingerprint].trip.charges == trip.charges && db'.links[trip.fingerprint] == trip.fingerprint)
            || exists p :: p in Conflicts(db, date) && p in db'.trades && db'.trades[p].review && FillIds(p) * FillIds(trip.fingerprint) != {}
  {
    var trips, db' := TripsOn(db, date), Rebuilt(db, date);
    var t := trips[i].fingerprint;
    TripsOnAreFine(db, date);
    assert t in Fingerprints(trips);
    if t in Written(db, date, trips) {
      var j := FindIsThere(trips, t);
      SameTrip(trips, i, j);
      RebuiltAt(db, date, trips, t);
    } else {
      var p :| p in Protected(db, date, trips) && p in db.links && FillIds(db.links[p]) * FillIds(t) != {};
      assert p in Kept(db, date, trips);
      RebuiltAt(db, date, trips, p);
      assert p !in Written(db, date, trips);
    }
  }

  lemma DifferentTrips(trips: seq<RoundTrip>, i: nat, j: nat)
    requires TripsDisjoint(trips) && i < j < |trips|
    ensures trips[i].fingerprint != trips[j].fingerprint
  {
    assert trips[i].fingerprint != {};
    var a :| a in trips[i].fingerprint;
    assert a.fill in FillIds(trips[i].fingerprint) && a.fill !in FillIds(trips[j].fingerprint);
  }

  lemma SameTrip(trips: seq<RoundTrip>, i: nat, j: nat)
    requires TripsDisjoint(trips) && i < |trips| && j < |trips| && trips[i].fingerprint == trips[j].fingerprint
    ensures i == j
  {
    if i < j { DifferentTrips(trips, i, j); }
    if j < i { DifferentTrips(trips, j, i); }
  }

  /** A trade row whose P&L is that of its own prices. */
  predicate Consistent(row: Row) {
    row.trip.gross == (row.trip.exitPrice - row.trip.entryPrice) * row.trip.quantity as real * Sign(row.trip.direction)
  }

  /** When a trade is matched again by the same fills, its prices stay as first written while its P&L is
      updated: the two agree afterwards exactly when the P&L did not change. */
  lemma PriceCorrectionShows(db: Db, date: int, trips: seq<RoundTrip>, t: Fingerprint)
    requires Inv(db) && t in db.trades && t in Written(db, date, trips) && Consistent(db.trades[t])
    ensures t in RebuiltWith(db, date, trips).trades
    ensures Consistent(RebuiltWith(db, date, trips).trades[t]) <==> Find(trips, t).gross == db.trades[t].trip.gross
  {
    RebuiltAt(db, date, trips, t);
    var i := FindIsThere(trips, t);
    UpsertKeepsPrices(db.trades, date, trips[i]);
  }

  lemma UpsertKeepsPrices(trades: map<Fingerprint, Row>, date: int, trip: RoundTrip)
    requires trip.fingerprint in trades && Consistent(trades[trip.fingerprint])
    ensures Consistent(Upserted(trades, date, trip)) <==> trip.gross == trades[trip.fingerprint].trip.gross
  {
  }

  // ---- later fills -------------------------------------------------------------------------------------

  /** In every instrument the new fills come after the old ones. */
  ghost predicate OnlyLater(fills: seq<Fill>, more: seq<Fill>) {
    forall k :: OfInstrument(fills, k) <= OfInstrument(more, k)
  }

  lemma {:induction false} TradesOfPrefix(a: seq<seq<Fill>>, b: seq<seq<Fill>>)
    requires a <= b
    ensures TradesOf(a) <= TradesOf(b)
    decreases |b|
  {
    if |a| < |b| {
      TradesOfPrefix(a, b[..|b| - 1]);
    } else {
      assert a == b;
    }
  }

  lemma {:induction false} CandidateFound(fills: seq<Fill>, instruments: seq<Key>, k: Key, i: nat)
    requires k in instruments && i < |TradesOf(Segments(OfInstrument(fills, k)))|
    ensures TradesOf(Segments(OfInstrument(fills, k)))[i].fingerprint in Fingerprints(CandidatesOf(fills, instruments))
  {
    var front, last := instruments[..|instruments| - 1], instruments[|instruments| - 1];
    var all, before := CandidatesOf(fills, instruments), CandidatesOf(fills, front);
    if k == last {
      assert all[|before| + i] == TradesOf(Segments(OfInstrument(fills, k)))[i];
    } else {
      CandidateFound(fills, front, k, i);
      var j :| 0 <= j < |before| && before[j].fingerprint == TradesOf(Segments(OfInstrument(fills, k)))[i].fingerprint;
      assert all[j] == before[j];
    }
  }

  lemma {:induction false} CandidateComesFrom(fills: seq<Fill>, instruments: seq<Key>, t: Fingerprint) returns (k: Key, i: nat)
    requires t in Fingerprints(CandidatesOf(fills, instruments))
    ensures k in instruments && i < |TradesOf(Segments(OfInstrument(fills, k)))|
    ensures TradesOf(Segments(OfInstrument(fills, k)))[i].fingerprint == t
  {
    var j :| 0 <= j < |CandidatesOf(fills, instruments)| && CandidatesOf(fills, instruments)[j].fingerprint == t;
    var front, last := instruments[..|instruments| - 1], instruments[|instruments| - 1];
    var before := CandidatesOf(fills, front);
    if j < |before| {
      assert before[j].fingerprint in Fingerprints(before);
      k, i := CandidateComesFrom(fills, front, t);
    } else {
      k, i := last, j - |before|;
    }
  }

  lemma {:induction false} HasFills(fills: seq<Fill>, k: Key)
    requires OfInstrument(fills, k) != []
    ensures k in Instruments(fills)
  {
    if fills[|fills| - 1].instrument != k { HasFills(fills[..|fills| - 1], k); }
  }

  /** Fills that sort last add trades and take none away. */
  lemma LaterFillsKeepTrips(fills: seq<Fill>, more: seq<Fill>)
    requires OnlyLater(fills, more)
    ensures Fingerprints(Candidates(fills)) <= Fingerprints(Candidates(more))
  {
    forall t | t in Fingerprints(Candidates(fills)) ensures t in Fingerprints(Candidates(more)) {
      var k, i := CandidateComesFrom(fills, Instruments(fills), t);
      TripStays(fills, more, k, i);
    }
  }

  lemma TripStays(fills: seq<Fill>, more: seq<Fill>, k: Key, i: nat)
    requires OfInstrument(fills, k) <= OfInstrument(more, k) && i < |TradesOf(Segments(OfInstrument(fills, k)))|
    ensures TradesOf(Segments(OfInstrument(fills, k)))[i].fingerprint in Fingerprints(Candidates(more))
  {
    var a, b := OfInstrument(fills, k), OfInstrument(more, k);
    assert b == a + b[|a|..];
    MatchIsStable(a, b[|a|..]);
    TradesOfPrefix(Segments(a), Segments(b));
    NothingMatchesNothing();
    HasFills(more, k);
    CandidateFound(more, Instruments(more), k, i);
  }

  lemma NothingMatchesNothing()
    ensures TradesOf(Segments([])) == []
  {
  }

  /** And they never bring up a conflict that the rebuild before them did not report. */
  lemma LaterFillsBringNoConflict(db: Db, date: int, more: seq<Fill>)
    requires Inv(db) && OnlyLater(Session(db.fills, date), Session(more, date))
    ensures Conflicts(Rebuilt(db, date).(fills := more), date) <= Conflicts(db, date)
  {
    LaterFillsKeepTrips(Session(db.fills, date), Session(more, date));
  }

  /** A new fill that sorts after every fill of its instrument on its date only comes later. */
  lemma NewFillIsLater(fills: seq<Fill>, f: Fill)
    requires f.id !in Ids(fills)
    requires forall g :: g in fills && g.date == f.date && g.instrument == f.instrument ==> !Before(f, g)
    ensures forall k :: OfInstrument(Session(WithFill(fills, f), f.date), k)
                     == OfInstrument(Session(fills, f.date), k) + Part(f, f.date, k)
    ensures OnlyLater(Session(fills, f.date), Session(WithFill(fills, f), f.date))
  {
    NothingWithout(fills, f.id);
    forall k ensures OfInstrument(Session(WithFill(fills, f), f.date), k)
                  == OfInstrument(Session(fills, f.date), k) + Part(f, f.date, k)
    {
      InsertedLast(fills, f, k);
    }
  }

  lemma {:induction false} NothingWithout(fills: seq<Fill>, id: nat)
    requires id !in Ids(fills)
    ensures Without(fills, id) == fills
  {
    if fills != [] {
      var front, last := fills[..|fills| - 1], fills[|fills| - 1];
      assert fills == front + [last];
      AppendIds(front, [last]);
      assert last.id in Ids([last]) by { assert [last][0] == last; }
      NothingWithout(front, id);
    }
  }

  /** The part of one more row that a session and an instrument get. */
  function Part(f: Fill, date: int, k: Key): seq<Fill> { if f.date == date && f.instrument == k then [f] else [] }

  lemma OneMoreFill(fills: seq<Fill>, last: Fill, date: int, k: Key)
    ensures OfInstrument(Session(fills + [last], date), k) == OfInstrument(Session(fills, date), k) + Part(last, date, k)
  {
    var before := Session(fills, date);
    assert (fills + [last])[..|fills|] == fills;
    assert (before + [last])[..|before|] == before;
    assert before + [] == before;
    assert OfInstrument(before, k) + [] == OfInstrument(before, k);
  }

  lemma {:induction false} InsertedLast(fills: seq<Fill>, f: Fill, k: Key)
    requires forall g :: g in fills && g.date == f.date && g.instrument == f.instrument ==> !Before(f, g)
    ensures OfInstrument(Session(Inserted(fills, f), f.date), k) == OfInstrument(Session(fills, f.date), k) + Part(f, f.date, k)
  {
    if fills == [] || !Before(f, fills[|fills| - 1]) {
      OneMoreFill(fills, f, f.date, k);
    } else {
      var front, last := fills[..|fills| - 1], fills[|fills| - 1];
      assert fills == front + [last] && last in fills;
      InsertedLast(front, f, k);
      OneMoreFill(front, last, f.date, k);
      OneMoreFill(Inserted(front, f), last, f.date, k);
      PartsCommute(OfInstrument(Session(front, f.date), k), f, last, k);
    }
  }

  lemma PartsCommute(mine: seq<Fill>, f: Fill, last: Fill, k: Key)
    requires last.date == f.date && last.instrument == f.instrument ==> !Before(f, last)
    requires Before(f, last)
    ensures mine + Part(f, f.date, k) + Part(last, f.date, k) == mine + Part(last, f.date, k) + Part(f, f.date, k)
  {
  }
}
