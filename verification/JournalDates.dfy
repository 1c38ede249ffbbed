/** One fill, one trade: across trading dates this holds exactly as long as no linked fill is moved to
    another date, because a rebuild looks at the trades of its own date only. */
module JournalDates {
  import opened Trading
  import opened JournalMatcher
  import opened JournalStore

  predicate Dated(fills: seq<Fill>, id: nat, date: int) { exists f :: f in fills && f.id == id && f.date == date }

  /** No fill is linked to two trades. */
  ghost predicate LinkedOnce(db: Db) {
    forall t, u :: t in db.links && u in db.links && t != u ==> FillIds(db.links[t]) !! FillIds(db.links[u])
  }

  /** A trade has the date of its fills. */
  ghost predicate DatesMatch(db: Db) {
    forall t, id :: t in db.trades && id in FillIds(t) ==> Dated(db.fills, id, db.trades[t].date)
  }

  ghost predicate Good(db: Db) { Inv(db) && DatesMatch(db) && LinkedOnce(db) }

  predicate Linked(db: Db, id: nat) { exists t :: t in db.links && id in FillIds(db.links[t]) }

  /** A fill that is linked to a trade arrives with a date other than the one it is stored with. */
  predicate Moves(db: Db, e: Step) { e.Upsert? && Linked(db, e.fill.id) && !Dated(db.fills, e.fill.id, e.fill.date) }

  ghost predicate NoMoves(db: Db, steps: seq<Step>)
    decreases |steps|
  {
    steps == [] || (!Moves(db, steps[0]) && NoMoves(Next(db, steps[0]), steps[1..]))
  }

  // ---- the table of fills ------------------------------------------------------------------------

  lemma {:induction false} WithoutHas(fills: seq<Fill>, id: nat, g: Fill)
    ensures g in Without(fills, id) <==> g in fills && g.id != id
  {
    if fills != [] {
      var front, last := fills[..|fills| - 1], fills[|fills| - 1];
      assert fills == front + [last];
      WithoutHas(front, id, g);
    }
  }

  lemma {:induction false} InsertedHas(fills: seq<Fill>, f: Fill, g: Fill)
    ensures g in Inserted(fills, f) <==> g in fills || g == f
  {
    if fills != [] && Before(f, fills[|fills| - 1]) {
      var front, last := fills[..|fills| - 1], fills[|fills| - 1];
      assert fills == front + [last];
      InsertedHas(front, f, g);
    }
  }

  lemma WithFillHas(fills: seq<Fill>, f: Fill, g: Fill)
    ensures g in WithFill(fills, f) <==> g == f || (g in fills && g.id != f.id)
  {
    WithoutHas(fills, f.id, g);
    InsertedHas(Without(fills, f.id), f, g);
  }

  lemma WithFillDated(fills: seq<Fill>, f: Fill, id: nat, date: int)
    ensures Dated(WithFill(fills, f), id, date) <==> if id == f.id then date == f.date else Dated(fills, id, date)
  {
    forall g ensures g in WithFill(fills, f) <==> g == f || (g in fills && g.id != f.id) { WithFillHas(fills, f, g); }
  }

  lemma DatedOnce(fills: seq<Fill>, id: nat, date: int, other: int)
    requires DistinctIds(fills) && Dated(fills, id, date) && Dated(fills, id, other)
    ensures date == other
  {
    var f :| f in fills && f.id == id && f.date == date;
    var g :| g in fills && g.id == id && g.date == other;
    var i :| 0 <= i < |fills| && fills[i] == f;
    var j :| 0 <= j < |fills| && fills[j] == g;
  }

  lemma SessionDated(fills: seq<Fill>, date: int, id: nat)
    requires id in Ids(Session(fills, date))
    ensures Dated(fills, id, date)
  {
    SessionIds(fills, date);
    var i :| 0 <= i < |Session(fills, date)| && Session(fills, date)[i].id == id;
    assert Session(fills, date)[i] in Session(fills, date);
  }

  // ---- without moves -----------------------------------------------------------------------------

  lemma CandidatesAreDated(db: Db, date: int, t: Fingerprint, id: nat)
    requires DistinctIds(db.fills) && t in Fingerprints(TripsOn(db, date)) && id in FillIds(t)
    ensures Dated(db.fills, id, date)
  {
    TripsOnAreFine(db, date);
    var i := FindIsThere(TripsOn(db, date), t);
    assert FillIds(TripsOn(db, date)[i].fingerprint) <= Ids(Session(db.fills, date));
    SessionDated(db.fills, date, id);
  }

  lemma NoClash(db: Db, date: int, t: Fingerprint, p: Fingerprint)
    requires Inv(db) && t in Written(db, date, TripsOn(db, date)) && p in Protected(db, date, TripsOn(db, date))
    ensures FillIds(t) !! FillIds(p)
  {
    assert !Clashes(db, Protected(db, date, TripsOn(db, date)), t);
    assert FillIds(db.links[p]) * FillIds(t) == {};
    forall id | id in FillIds(t) ensures id !in FillIds(p) { assert id !in FillIds(p) * FillIds(t); }
  }

  /** A candidate that is new shares no fill with any other trade after the rebuild. */
  lemma NewTradeIsApart(db: Db, date: int, t: Fingerprint, u: Fingerprint)
    requires Good(db) && t != u && t in Written(db, date, TripsOn(db, date))
    requires u in Kept(db, date, TripsOn(db, date)) + Written(db, date, TripsOn(db, date))
    ensures FillIds(t) !! FillIds(u)
  {
    var trips := TripsOn(db, date);
    TripsOnAreFine(db, date);
    if u in Fingerprints(trips) {
      var i := FindIsThere(trips, t);
      var j := FindIsThere(trips, u);
      assert if i < j then FillIds(t) !! FillIds(u) else FillIds(u) !! FillIds(t);
    } else if db.trades[u].date == date {
      NoClash(db, date, t, u);
    } else {
      forall id | id in FillIds(t) ensures id !in FillIds(u) {
        CandidatesAreDated(db, date, t, id);
        if id in FillIds(u) { DatedOnce(db.fills, id, date, db.trades[u].date); }
      }
    }
  }

  lemma RebuildKeepsGood(db: Db, date: int)
    requires Good(db)
    ensures Good(Rebuilt(db, date))
  {
    var trips, db' := TripsOn(db, date), Rebuilt(db, date);
    StepKeepsInv(db, Rebuild(date));
    forall t, id | t in db'.trades && id in FillIds(t) ensures Dated(db'.fills, id, db'.trades[t].date) {
      RebuiltAt(db, date, trips, t);
      if t in db.trades {
        assert Dated(db.fills, id, db.trades[t].date);
        if t in Written(db, date, trips) { var i := FindIsThere(trips, t); }
      } else {
        var i := FindIsThere(trips, t);
        CandidatesAreDated(db, date, t, id);
      }
    }
    forall t, u | t in db'.links && u in db'.links && t != u ensures FillIds(db'.links[t]) !! FillIds(db'.links[u]) {
      if t in db.trades && u in db.trades {
        assert FillIds(db.links[t]) !! FillIds(db.links[u]);
      } else if t !in db.trades {
        NewTradeIsApart(db, date, t, u);
      } else {
        NewTradeIsApart(db, date, u, t);
      }
    }
  }

  lemma UpsertKeepsGood(db: Db, f: Fill)
    requires Good(db) && !Moves(db, Upsert(f))
    ensures Good(Next(db, Upsert(f)))
  {
    StepKeepsInv(db, Upsert(f));
    forall t, id | t in db.trades && id in FillIds(t) ensures Dated(WithFill(db.fills, f), id, db.trades[t].date) {
      assert Dated(db.fills, id, db.trades[t].date);
      WithFillDated(db.fills, f, id, db.trades[t].date);
      if id == f.id {
        assert Linked(db, id);
        DatedOnce(db.fills, id, f.date, db.trades[t].date);
      }
    }
  }

  lemma StepKeepsGood(db: Db, e: Step)
    requires Good(db) && !Moves(db, e)
    ensures Good(Next(db, e))
  {
    match e
    case Upsert(f) => UpsertKeepsGood(db, f);
    case Annotate(_) => StepKeepsInv(db, e);
    case Rebuild(date) => RebuildKeepsGood(db, date);
  }

  lemma {:induction false} RunKeepsGood(db: Db, steps: seq<Step>)
    requires Good(db) && NoMoves(db, steps)
    ensures Good(Run(db, steps))
    decreases |steps|
  {
    if steps != [] {
      StepKeepsGood(db, steps[0]);
      RunKeepsGood(Next(db, steps[0]), steps[1..]);
    }
  }

  /** In every run of fills, notes and rebuilds of any dates in which no linked fill moves to another
      date, no fill is linked to two trades and every trade has the date of its fills. */
  lemma FillsAreLinkedOnce(steps: seq<Step>)
    requires NoMoves(EMPTY, steps)
    ensures LinkedOnce(Run(EMPTY, steps)) && DatesMatch(Run(EMPTY, steps))
  {
    RunKeepsGood(EMPTY, steps);
  }

  // ---- exactly then ------------------------------------------------------------------------------

  /** Some continuation in which nothing moves ends with a fill linked to two trades. */
  ghost predicate CanLinkTwice(db: Db) { exists steps :: NoMoves(db, steps) && !LinkedOnce(Run(db, steps)) }

  function Longest(fills: seq<Fill>): (n: nat)
    ensures forall f :: f in fills ==> |f.instrument| <= n
  {
    if fills == [] then 0
    else
      assert fills == fills[..|fills| - 1] + [fills[|fills| - 1]];
      Max(Longest(fills[..|fills| - 1]), |fills[|fills| - 1].instrument|)
  }

  function Greatest(fills: seq<Fill>): (n: nat)
    ensures forall f :: f in fills ==> f.id <= n
  {
    if fills == [] then 0
    else
      assert fills == fills[..|fills| - 1] + [fills[|fills| - 1]];
      Max(Greatest(fills[..|fills| - 1]), fills[|fills| - 1].id)
  }

  ghost predicate Unused(fills: seq<Fill>, k: Key) { forall f :: f in fills ==> f.instrument != k }

  function UnusedKey(fills: seq<Fill>): (k: Key)
    ensures Unused(fills, k)
  {
    seq(Longest(fills) + 1, _ => 'x')
  }

  lemma {:induction false} UnusedHasNothing(fills: seq<Fill>, date: int, k: Key)
    requires Unused(fills, k)
    ensures OfInstrument(Session(fills, date), k) == []
  {
    if fills != [] {
      var front, last := fills[..|fills| - 1], fills[|fills| - 1];
      assert fills == front + [last] && last in fills;
      OneMoreFill(front, last, date, k);
      UnusedHasNothing(front, date, k);
    }
  }

  /** A buy and a sell of one are one trade. */
  lemma PairIsTrade(x: Fill, y: Fill)
    requires x.side == BUY && y.side == SELL && x.quantity == 1 && y.quantity == 1
    ensures |TradesOf(Segments([x, y]))| == 1 && FillIds(TradesOf(Segments([x, y]))[0].fingerprint) == {x.id, y.id}
  {
    var both := [x, y];
    assert both[..1] == [x] && both[..2] == both && both[2..] == [] && both[..0] == [];
    assert Exposure([x]) == 1 by { assert [x][..0] == []; }
    assert Exposure(both) == 0;
    assert StaysOpen(both, 1);
    assert !IsRoundTrip(both[..1]) && IsRoundTrip(both[..2]);
    assert TripLength(both, 2) == 2 && TripLength(both, 1) == 2;
    assert Segments([]) == [];
    assert Segments(both) == [both];
    assert Quantity([x], BUY) == 1 && Quantity([x], SELL) == 0 by { assert [x][..0] == []; }
    assert Quantity(both, BUY) == 1 && Quantity(both, SELL) == 1;
    assert both[1].side == Opposite(both[0].side);
    assert IsTrade(both);
    assert [both][..0] == [];
    assert TradesOf([both]) == [TradeOf(both)];
    FingerprintIds(both);
    forall id ensures id in Ids(both) <==> id in {x.id, y.id} { assert both[0] == x && both[1] == y; }
  }

  /** A fill alone in an unused instrument. */
  lemma AloneInUnused(fills: seq<Fill>, x: Fill)
    requires Unused(fills, x.instrument)
    ensures OfInstrument(Session(WithFill(fills, x), x.date), x.instrument) == [x]
    ensures forall g :: g in WithFill(fills, x) && g.instrument == x.instrument ==> g == x
  {
    var k, rest := x.instrument, Without(fills, x.id);
    forall g | g in rest ensures g.instrument != k { WithoutHas(fills, x.id, g); }
    InsertedLast(rest, x, k);
    UnusedHasNothing(rest, x.date, k);
    forall g | g in WithFill(fills, x) && g.instrument == k ensures g == x { WithFillHas(fills, x, g); }
  }

  /** The moved fill in an unused instrument, and a fill that closes it. */
  lemma PairOfUnused(fills: seq<Fill>, x: Fill, y: Fill)
    requires x.instrument == y.instrument && Unused(fills, x.instrument) && x.at < y.at && x.date == y.date
    requires DistinctIds(fills) && y.id !in Ids(fills) && y.id != x.id
    ensures OfInstrument(Session(WithFill(WithFill(fills, x), y), x.date), x.instrument) == [x, y]
  {
    AloneInUnused(fills, x);
    WithFillIds(fills, x);
    AppendedToUnused(WithFill(fills, x), x, y);
  }

  lemma AppendedToUnused(with: seq<Fill>, x: Fill, y: Fill)
    requires x.instrument == y.instrument && x.at < y.at && x.date == y.date && y.id !in Ids(with)
    requires OfInstrument(Session(with, x.date), x.instrument) == [x]
    requires forall g :: g in with && g.instrument == x.instrument ==> g == x
    ensures OfInstrument(Session(WithFill(with, y), x.date), x.instrument) == [x, y]
  {
    NothingWithout(with, y.id);
    InsertedLast(with, y, x.instrument);
  }

  ghost predicate LinkedToNoOther(db: Db, t: Fingerprint, x: nat, y: nat) {
    forall p :: p in db.trades && p != t ==> x !in FillIds(p) && y !in FillIds(p)
  }

  lemma UpsertsKeepInv(db: Db, x: Fill, y: Fill)
    requires Inv(db)
    ensures Inv(db.(fills := WithFill(WithFill(db.fills, x), y)))
  {
    StepKeepsInv(db, Upsert(x));
    StepKeepsInv(Next(db, Upsert(x)), Upsert(y));
  }

  /** A rebuild writes the pair, whatever else it finds, unless a protected trade of the date has one of
      its fills; trades of other dates stay. */
  lemma PairIsWritten(db: Db, x: Fill, y: Fill, t: Fingerprint)
    requires Inv(db) && OfInstrument(Session(db.fills, x.date), x.instrument) == [x, y]
    requires x.side == BUY && y.side == SELL && x.quantity == 1 && y.quantity == 1
    requires t in db.trades && db.trades[t].date != x.date && x.id in FillIds(t) && y.id !in FillIds(t)
    requires LinkedToNoOther(db, t, x.id, y.id)
    ensures !LinkedOnce(Rebuilt(db, x.date))
  {
    var session, trips, db' := Session(db.fills, x.date), TripsOn(db, x.date), Rebuilt(db, x.date);
    PairIsTrade(x, y);
    HasFills(session, x.instrument);
    CandidateFound(session, Instruments(session), x.instrument, 0);
    var u := TradesOf(Segments([x, y]))[0].fingerprint;
    forall p | p in Protected(db, x.date, trips) && p in db.links ensures FillIds(db.links[p]) * FillIds(u) == {} {
      assert p != t && db.links[p] == p;
    }
    assert u in Written(db, x.date, trips);
    RebuiltAt(db, x.date, trips, u);
    OtherDatesStay(db, x.date, t);
    assert x.id in FillIds(db'.links[t]) && x.id in FillIds(db'.links[u]) && t != u;
  }

  /** Nothing but `t` is linked to `x`, and nothing at all to a fill that is not there yet. */
  lemma OthersAreNotLinked(db: Db, t: Fingerprint, x: nat, y: nat)
    requires Inv(db) && LinkedOnce(db) && t in db.links && x in FillIds(db.links[t]) && y !in Ids(db.fills)
    ensures y !in FillIds(t) && !Linked(db, y)
    ensures LinkedToNoOther(db, t, x, y)
  {
    forall p | p in db.trades && p != t ensures x !in FillIds(p) && y !in FillIds(p) {
      assert FillIds(db.links[p]) !! FillIds(db.links[t]);
    }
  }

  lemma MoveLinksTwice(db: Db, x: Fill)
    requires Good(db) && Moves(db, Upsert(x))
    ensures CanLinkTwice(Next(db, Upsert(x)))
  {
    var db1 := Next(db, Upsert(x));
    var t :| t in db.links && x.id in FillIds(db.links[t]);
    assert db.trades[t].date != x.date by { assert Dated(db.fills, x.id, db.trades[t].date); }
    var k, id := UnusedKey(db1.fills), Greatest(db1.fills) + 1;
    StepKeepsInv(db, Upsert(x));
    WithFillIds(db.fills, x);
    FreshId(db1.fills);
    OthersAreNotLinked(db, t, x.id, id);
    WithFillDated(db.fills, x, x.id, x.date);
    MovedPair(db1, t, Fill(x.id, k, BUY, 1, 0.0, 0, 0.0, x.date), Fill(id, k, SELL, 1, 0.0, 1, 0.0, x.date));
  }

  lemma MovedPair(db: Db, t: Fingerprint, x: Fill, y: Fill)
    requires Inv(db) && t in db.trades && db.trades[t].date != x.date && x.id in FillIds(t) && Dated(db.fills, x.id, x.date)
    requires y.id !in Ids(db.fills) && y.id !in FillIds(t) && !Linked(db, y.id) && y.id != x.id
    requires LinkedToNoOther(db, t, x.id, y.id)
    requires x.instrument == y.instrument && Unused(db.fills, x.instrument) && x.at < y.at && x.date == y.date
    requires x.side == BUY && y.side == SELL && x.quantity == 1 && y.quantity == 1
    ensures CanLinkTwice(db)
  {
    var db2 := db.(fills := WithFill(WithFill(db.fills, x), y));
    UpsertsKeepInv(db, x, y);
    PairOfUnused(db.fills, x, y);
    assert LinkedToNoOther(db2, t, x.id, y.id);
    PairIsWritten(db2, x, y, t);
    UpsertsThenRebuild(db, x, y);
  }

  lemma UpsertsThenRebuild(db: Db, x: Fill, y: Fill)
    requires Dated(db.fills, x.id, x.date) && !Linked(db, y.id)
    requires !LinkedOnce(Rebuilt(db.(fills := WithFill(WithFill(db.fills, x), y)), x.date))
    ensures CanLinkTwice(db)
  {
    var db1 := Next(db, Upsert(x));
    LinkedTwiceNow(Rebuilt(Next(db1, Upsert(y)), x.date));
    LinkedTwiceLater(Next(db1, Upsert(y)), Rebuild(x.date));
    assert !Linked(db1, y.id);
    LinkedTwiceLater(db1, Upsert(y));
    LinkedTwiceLater(db, Upsert(x));
  }

  lemma FreshId(fills: seq<Fill>)
    ensures Greatest(fills) + 1 !in Ids(fills)
  {
    forall i | 0 <= i < |fills| ensures fills[i].id <= Greatest(fills) { assert fills[i] in fills; }
  }

  lemma LinkedTwiceNow(db: Db)
    requires !LinkedOnce(db)
    ensures CanLinkTwice(db)
  {
    assert NoMoves(db, []) && Run(db, []) == db;
  }

  lemma LinkedTwiceLater(db: Db, e: Step)
    requires !Moves(db, e) && CanLinkTwice(Next(db, e))
    ensures CanLinkTwice(db)
  {
    var rest :| NoMoves(Next(db, e), rest) && !LinkedOnce(Run(Next(db, e), rest));
    assert ([e] + rest)[1..] == rest;
    assert NoMoves(db, [e] + rest) && Run(db, [e] + rest) == Run(Next(db, e), rest);
  }

  /** Exactly when linking once is lost: a step moves a linked fill to another date if and only if some
      continuation without any further move ends with a fill linked to two trades. */
  lemma MovesIffLinkedTwice(db: Db, e: Step)
    requires Good(db)
    ensures Moves(db, e) <==> CanLinkTwice(Next(db, e))
  {
    if Moves(db, e) {
      MoveLinksTwice(db, e.fill);
    } else {
      StepKeepsGood(db, e);
      forall steps | NoMoves(Next(db, e), steps) ensures LinkedOnce(Run(Next(db, e), steps)) { RunKeepsGood(Next(db, e), steps); }
    }
  }
}
