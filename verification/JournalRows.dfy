/** What a rebuild deletes, marks and writes, trade by trade. */
module JournalRows {
  import opened Trading
  import opened JournalMatcher
  import opened JournalStore

  /** One of the date's round trips is made of just these fills. */
  ghost predicate Matched(db: Db, date: int, t: Fingerprint) {
    exists i :: 0 <= i < |TripsOn(db, date)| && TripsOn(db, date)[i].fingerprint == t
  }

  /** Somebody wrote notes on a trade of the date that its fills no longer make. */
  ghost predicate Orphaned(db: Db, date: int, t: Fingerprint) {
    t in db.trades && db.trades[t].date == date && t in db.notes && !Matched(db, date, t)
  }

  ghost predicate SharesWithOrphan(db: Db, date: int, t: Fingerprint) {
    exists p :: Orphaned(db, date, p) && FillIds(p) * FillIds(t) != {}
  }

  lemma MatchedAre(db: Db, date: int, t: Fingerprint)
    ensures Matched(db, date, t) <==> t in Fingerprints(TripsOn(db, date))
  {
  }

  lemma OrphansAre(db: Db, date: int, t: Fingerprint)
    ensures Orphaned(db, date, t) <==> t in Conflicts(db, date)
  {
    MatchedAre(db, date, t);
  }

  lemma WrittenAre(db: Db, date: int, t: Fingerprint)
    requires Inv(db)
    ensures t in Written(db, date, TripsOn(db, date)) <==> Matched(db, date, t) && !SharesWithOrphan(db, date, t)
  {
    var protected := Protected(db, date, TripsOn(db, date));
    MatchedAre(db, date, t);
    forall p ensures Orphaned(db, date, p) <==> p in protected { OrphansAre(db, date, p); }
    if Clashes(db, protected, t) {
      var p :| p in protected && p in db.links && FillIds(db.links[p]) * FillIds(t) != {};
      assert Orphaned(db, date, p);
    }
    if p :| Orphaned(db, date, p) && FillIds(p) * FillIds(t) != {} { assert p in db.links && db.links[p] == p; }
  }

  /** A rebuild reports exactly the trades of the date that carry notes and that the fills no longer make. */
  lemma ConflictsAreOrphans(db: Db, date: int, t: Fingerprint)
    ensures t in Conflicts(db, date) <==> Orphaned(db, date, t)
  {
    OrphansAre(db, date, t);
  }

  /** It deletes exactly the trades of the date without notes that the fills no longer make, and adds exactly
      the round trips that share no fill with a reported trade. */
  lemma RebuildDeletesAndAdds(db: Db, date: int, t: Fingerprint)
    requires Inv(db)
    ensures var db' := Rebuilt(db, date);
            && (t in db.trades ==> (t !in db'.trades <==> db.trades[t].date == date && t !in db.notes && !Matched(db, date, t)))
            && (t !in db.trades ==> (t in db'.trades <==> Matched(db, date, t) && !SharesWithOrphan(db, date, t)))
  {
    MatchedAre(db, date, t);
    WrittenAre(db, date, t);
  }

  /** It marks exactly the reported trades for review and takes no mark away; what it adds is unmarked, of the
      date, and as matched. */
  lemma RebuildMarks(db: Db, date: int, t: Fingerprint)
    requires Inv(db) && t in Rebuilt(db, date).trades
    ensures var row := Rebuilt(db, date).trades[t];
            if t in db.trades then row.date == db.trades[t].date && (row.review <==> db.trades[t].review || Orphaned(db, date, t))
            else row.date == date && !row.review && exists i :: 0 <= i < |TripsOn(db, date)| && row.trip == TripsOn(db, date)[i] && row.trip.fingerprint == t
  {
    var trips := TripsOn(db, date);
    MatchedAre(db, date, t);
    WrittenAre(db, date, t);
    OrphansAre(db, date, t);
    RebuiltAt(db, date, trips, t);
    if t in Written(db, date, trips) {
      var i := FindIsThere(trips, t);
      assert trips[i].fingerprint == t;
    }
  }

  // ---- the order of fills --------------------------------------------------------------------------------

  /** By time, and by id where times are equal. */
  predicate InOrder(fills: seq<Fill>) { forall i, j :: 0 <= i < j < |fills| ==> Earlier(fills[i], fills[j]) }

  predicate Earlier(f: Fill, g: Fill) { f.at < g.at || (f.at == g.at && f.id < g.id) }

  lemma {:induction false} WithoutIsPart(fills: seq<Fill>, id: nat)
    ensures InOrder(fills) ==> InOrder(Without(fills, id))
    ensures forall f :: f in Without(fills, id) ==> f in fills && f.id != id
  {
    if fills != [] {
      var front, last := fills[..|fills| - 1], fills[|fills| - 1];
      assert fills == front + [last];
      WithoutIsPart(front, id);
      if InOrder(fills) {
        assert InOrder(front) by { forall i, j | 0 <= i < j < |front| ensures Earlier(front[i], front[j]) { assert Earlier(fills[i], fills[j]); } }
        forall f | f in front ensures Earlier(f, last) { var i :| 0 <= i < |front| && front[i] == f; assert Earlier(fills[i], fills[|fills| - 1]); }
        if last.id != id { LastInOrder(Without(front, id), last); }
      }
    }
  }

  lemma LastInOrder(fills: seq<Fill>, f: Fill)
    requires InOrder(fills) && forall g :: g in fills ==> Earlier(g, f)
    ensures InOrder(fills + [f])
  {
    var more := fills + [f];
    forall i, j | 0 <= i < j < |more| ensures Earlier(more[i], more[j]) {
      if j < |fills| { assert Earlier(fills[i], fills[j]); } else { assert fills[i] in fills; }
    }
  }

  lemma {:induction false} InsertedInOrder(fills: seq<Fill>, f: Fill)
    requires InOrder(fills) && forall g :: g in fills ==> g.id != f.id
    ensures InOrder(Inserted(fills, f)) && forall g :: g in Inserted(fills, f) ==> g in fills || g == f
  {
    if fills != [] {
      var front, last := fills[..|fills| - 1], fills[|fills| - 1];
      forall g | g in front ensures Earlier(g, last) { var i :| 0 <= i < |front| && front[i] == g; assert Earlier(fills[i], fills[|fills| - 1]); }
      if Before(f, last) {
        assert InOrder(front) by { forall i, j | 0 <= i < j < |front| ensures Earlier(front[i], front[j]) { assert Earlier(fills[i], fills[j]); } }
        assert forall g :: g in front ==> g in fills;
        InsertedInOrder(front, f);
        LastInOrder(Inserted(front, f), last);
      } else {
        assert last in fills;
        LastInOrder(fills, f);
      }
    }
  }

  /** Over every run, whatever fills come or change, the fills stay in the order of time and id. */
  lemma {:induction false} FillsStayInOrder(db: Db, steps: seq<Step>)
    requires InOrder(db.fills)
    ensures InOrder(Run(db, steps).fills)
    decreases |steps|
  {
    if steps != [] {
      if steps[0].Upsert? {
        WithoutIsPart(db.fills, steps[0].fill.id);
        InsertedInOrder(Without(db.fills, steps[0].fill.id), steps[0].fill);
      }
      FillsStayInOrder(Next(db, steps[0]), steps[1..]);
    }
  }
}
