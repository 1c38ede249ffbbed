/** The rebuild as the program runs it: rows deleted and written one after the other, in place. */
module JournalRebuild {
  import opened Trading
  import opened JournalMatcher
  import opened JournalStore

  /** The rows after the trades that no candidate matches were marked or deleted. */
  function Reviewed(db: Db, date: int, trips: seq<RoundTrip>): map<Fingerprint, Row> {
    map t | t in Kept(db, date, trips) :: if t in Protected(db, date, trips) then db.trades[t].(review := true) else db.trades[t]
  }

  function OnDate(db: Db, date: int): set<Fingerprint> { set t | t in db.trades && db.trades[t].date == date }

  /** While some rows are still `left` to look at. */
  function HalfReviewed(db: Db, date: int, trips: seq<RoundTrip>, left: set<Fingerprint>): map<Fingerprint, Row> {
    map t | t in db.trades && (t in left || t in Kept(db, date, trips)) ::
      if t in Protected(db, date, trips) - left then db.trades[t].(review := true) else db.trades[t]
  }

  function HalfLinked(db: Db, date: int, trips: seq<RoundTrip>, left: set<Fingerprint>): map<Fingerprint, set<Allocation>> {
    map t | t in db.links && (t in left || t in Kept(db, date, trips)) :: db.links[t]
  }

  /** The rows and links after the first `n` candidates. */
  function RowsWritten(trades: map<Fingerprint, Row>, date: int, trips: seq<RoundTrip>, blocked: set<Fingerprint>, n: nat): map<Fingerprint, Row>
    requires n <= |trips|
  {
    if n == 0 then trades
    else
      var before, trip := RowsWritten(trades, date, trips, blocked, n - 1), trips[n - 1];
      if trip.fingerprint in blocked then before else before[trip.fingerprint := Upserted(before, date, trip)]
  }

  function LinksWritten(links: map<Fingerprint, set<Allocation>>, trips: seq<RoundTrip>, blocked: set<Fingerprint>, n: nat)
    : map<Fingerprint, set<Allocation>>
    requires n <= |trips|
  {
    if n == 0 then links
    else
      var before, t := LinksWritten(links, trips, blocked, n - 1), trips[n - 1].fingerprint;
      if t in blocked then before else before[t := t]
  }

  /** Each candidate is written once, so the order does not matter. */
  lemma {:induction false} WrittenOnce(trades: map<Fingerprint, Row>, links: map<Fingerprint, set<Allocation>>, date: int, trips: seq<RoundTrip>,
                                       blocked: set<Fingerprint>, n: nat, t: Fingerprint)
    requires TripsDisjoint(trips) && n <= |trips|
    ensures t in RowsWritten(trades, date, trips, blocked, n) <==> t in trades || (t !in blocked && t in Fingerprints(trips[..n]))
    ensures t in LinksWritten(links, trips, blocked, n) <==> t in links || (t !in blocked && t in Fingerprints(trips[..n]))
    ensures t in RowsWritten(trades, date, trips, blocked, n) ==>
              RowsWritten(trades, date, trips, blocked, n)[t]
              == if t !in blocked && t in Fingerprints(trips[..n]) then Upserted(trades, date, Find(trips[..n], t)) else trades[t]
    ensures t in LinksWritten(links, trips, blocked, n) ==>
              LinksWritten(links, trips, blocked, n)[t] == if t !in blocked && t in Fingerprints(trips[..n]) then t else links[t]
  {
    if n > 0 {
      var fp := trips[n - 1].fingerprint;
      WrittenOnce(trades, links, date, trips, blocked, n - 1, t);
      FingerprintsMore(trips, n - 1, t);
    }
  }

  lemma FingerprintsMore(trips: seq<RoundTrip>, n: nat, t: Fingerprint)
    requires TripsDisjoint(trips) && n < |trips|
    ensures t in Fingerprints(trips[..n + 1]) <==> t in Fingerprints(trips[..n]) || t == trips[n].fingerprint
    ensures t in Fingerprints(trips[..n]) ==> t != trips[n].fingerprint && Find(trips[..n + 1], t) == Find(trips[..n], t)
    ensures t == trips[n].fingerprint ==> Find(trips[..n + 1], t) == trips[n]
  {
    if t in Fingerprints(trips[..n]) {
      var i :| 0 <= i < n && trips[..n][i].fingerprint == t;
      assert trips[..n + 1][i].fingerprint == t;
      DifferentTrips(trips, i, n);
      var a := FindIsThere(trips[..n], t);
      var b := FindIsThere(trips[..n + 1], t);
      SameTrip(trips, a, b);
    }
    if t == trips[n].fingerprint {
      assert trips[..n + 1][n].fingerprint == t;
      var b := FindIsThere(trips[..n + 1], t);
      SameTrip(trips, b, n);
    }
    if t in Fingerprints(trips[..n + 1]) {
      var i :| 0 <= i < n + 1 && trips[..n + 1][i].fingerprint == t;
      assert i < n ==> trips[..n][i].fingerprint == t;
    }
  }

  /** Going through the rows and then through the candidates comes to the rebuilt session. */
  lemma StepsRebuild(db: Db, date: int, trips: seq<RoundTrip>, blocked: set<Fingerprint>, links: map<Fingerprint, set<Allocation>>)
    requires JournalStore.Inv(db) && TripsDisjoint(trips)
    requires forall t :: t in Fingerprints(trips) ==> (t in blocked <==> Clashes(db, Protected(db, date, trips), t))
    requires links == map t | t in Kept(db, date, trips) :: db.links[t]
    ensures RowsWritten(Reviewed(db, date, trips), date, trips, blocked, |trips|) == RebuiltWith(db, date, trips).trades
    ensures LinksWritten(links, trips, blocked, |trips|) == RebuiltWith(db, date, trips).links
  {
    var rows, linked := RowsWritten(Reviewed(db, date, trips), date, trips, blocked, |trips|), LinksWritten(links, trips, blocked, |trips|);
    var after := RebuiltWith(db, date, trips);
    forall t ensures (t in rows <==> t in after.trades) && (t in rows ==> rows[t] == after.trades[t])
                     && (t in linked <==> t in after.links) && (t in linked ==> linked[t] == after.links[t])
    {
      StepsRebuildOne(db, date, trips, blocked, links, t);
      if t in Kept(db, date, trips) + Written(db, date, trips) { RebuiltAt(db, date, trips, t); }
    }
    SameMap(rows, after.trades);
    SameMap(linked, after.links);
  }

  lemma SameMap<K, V>(a: map<K, V>, b: map<K, V>)
    requires forall k :: (k in a <==> k in b) && (k in a ==> a[k] == b[k])
    ensures a == b
  {
  }

  lemma StepsRebuildOne(db: Db, date: int, trips: seq<RoundTrip>, blocked: set<Fingerprint>, links: map<Fingerprint, set<Allocation>>, t: Fingerprint)
    requires JournalStore.Inv(db) && TripsDisjoint(trips)
    requires t in Fingerprints(trips) ==> (t in blocked <==> Clashes(db, Protected(db, date, trips), t))
    requires links == map t | t in Kept(db, date, trips) :: db.links[t]
    ensures var rows, linked := RowsWritten(Reviewed(db, date, trips), date, trips, blocked, |trips|), LinksWritten(links, trips, blocked, |trips|);
            if t in Kept(db, date, trips) + Written(db, date, trips)
            then t in rows && t in linked && rows[t] == RowAfter(db, date, trips, t) && linked[t] == LinksAfter(db, date, trips, t)
            else t !in rows && t !in linked
  {
    assert trips[..|trips|] == trips;
    WrittenOnce(Reviewed(db, date, trips), links, date, trips, blocked, |trips|, t);
    if t in Kept(db, date, trips) + Written(db, date, trips) { RowIs(db, date, trips, t); }
  }

  lemma RowIs(db: Db, date: int, trips: seq<RoundTrip>, t: Fingerprint)
    requires t in Written(db, date, trips)  || t in Kept(db, date, trips)
    ensures t in Written(db, date, trips) ==> Upserted(Reviewed(db, date, trips), date, Find(trips, t)) == RowAfter(db, date, trips, t)
    ensures t !in Written(db, date, trips) ==> Reviewed(db, date, trips)[t] == RowAfter(db, date, trips, t)
  {
    if t in Written(db, date, trips) { var i := FindIsThere(trips, t); }
  }

  class Journal {
    var fills: seq<Fill>
    var trades: map<Fingerprint, Row>
    var links: map<Fingerprint, set<Allocation>>
    var notes: set<Fingerprint>

    ghost function Now(): Db
      reads this
    {
      Db(fills, trades, links, notes)
    }

    constructor ()
      ensures Now() == EMPTY
    {
      fills, trades, links, notes := [], map[], map[], {};
    }

    /** `upsert_fill`; true when the fill is new. */
    method UpsertFill(f: Fill) returns (added: bool)
      modifies `fills
      ensures Now() == JournalStore.Next(old(Now()), Upsert(f)) && added == (f.id !in Ids(old(fills)))
    {
      added := f.id !in Ids(fills);
      fills := WithFill(fills, f);
    }

    /** `save_notes`; false when there is no such trade. */
    method SaveNotes(t: Fingerprint) returns (ok: bool)
      modifies `notes
      ensures Now() == JournalStore.Next(old(Now()), Annotate(t)) && ok == (t in trades)
    {
      if t !in trades {
        return false;
      }
      notes := notes + {t};
      return true;
    }

    /** A session's fills by instrument, in order of appearance. */
    method GroupByInstrument(session: seq<Fill>) returns (order: seq<Key>, groups: map<Key, seq<Fill>>)
      ensures order == Instruments(session) && groups.Keys == set k | k in order
      ensures forall k :: k in groups ==> groups[k] == OfInstrument(session, k)
    {
      order, groups := [], map[];
      for i := 0 to |session|
        invariant order == Instruments(session[..i]) && groups.Keys == set k | k in order
        invariant forall k :: k in groups ==> groups[k] == OfInstrument(session[..i], k)
        invariant forall k :: k !in groups ==> OfInstrument(session[..i], k) == []
      {
        assert session[..i + 1][..i] == session[..i];
        var k := session[i].instrument;
        if k !in groups {
          order, groups := order + [k], groups[k := []];
        }
        groups := groups[k := groups[k] + [session[i]]];
      }
      assert session[..|session|] == session;
    }

    /** Every instrument's round trips. */
    method MatchSession(date: int) returns (candidates: seq<RoundTrip>)
      ensures candidates == TripsOn(Now(), date)
    {
      var order, groups := GroupByInstrument(Session(fills, date));
      candidates := [];
      for i := 0 to |order|
        invariant candidates == CandidatesOf(Session(fills, date), order[..i])
      {
        var trips := MatchRoundTrips(groups[order[i]]);
        candidates := candidates + trips;
        assert order[..i + 1][..i] == order[..i];
      }
      assert order[..|order|] == order;
    }

    /** The date's rows that no candidate matches: annotated ones are marked and block the candidates they
        share a fill with, the others are deleted with their links. */
    method ReviewExisting(date: int, candidates: seq<RoundTrip>) returns (conflicts: set<Fingerprint>, blocked: set<Fingerprint>)
      requires JournalStore.Inv(Now())
      modifies `trades, `links
      ensures trades == Reviewed(old(Now()), date, candidates)
      ensures links == map t | t in Kept(old(Now()), date, candidates) :: old(links)[t]
      ensures conflicts == Protected(old(Now()), date, candidates)
      ensures forall t :: t in Fingerprints(candidates) ==> (t in blocked <==> Clashes(old(Now()), conflicts, t))
    {
      ghost var db := Now();
      conflicts, blocked := {}, {};
      var left := set t | t in trades && trades[t].date == date;
      while left != {}
        invariant left <= OnDate(db, date)
        invariant conflicts == Protected(db, date, candidates) - left
        invariant trades == HalfReviewed(db, date, candidates, left)
        invariant links == HalfLinked(db, date, candidates, left)
        invariant forall t :: t in Fingerprints(candidates) ==> (t in blocked <==> Clashes(db, conflicts, t))
        decreases left
      {
        var t :| t in left;
        ReviewOneMore(db, date, candidates, left, t);
        left := left - {t};
        if t in Fingerprints(candidates) {
        } else if t in notes {
          var clashing := ClashingWith(candidates, FillIds(links[t]));
          ClashesMore(db, conflicts, t, candidates, blocked, clashing);
          blocked := blocked + clashing;
          trades := trades[t := trades[t].(review := true)];
          conflicts := conflicts + {t};
        } else {
          links := links - {t};
          trades := trades - {t};
        }
      }
      assert trades == Reviewed(db, date, candidates);
    }

    /** The candidates that share a fill with some ids. */
    method ClashingWith(candidates: seq<RoundTrip>, ids: set<nat>) returns (clashing: set<Fingerprint>)
      ensures clashing == set t | t in Fingerprints(candidates) && ids * FillIds(t) != {}
    {
      clashing := {};
      for i := 0 to |candidates|
        invariant clashing == set j | 0 <= j < i && ids * FillIds(candidates[j].fingerprint) != {} :: candidates[j].fingerprint
      {
        if ids * FillIds(candidates[i].fingerprint) != {} {
          clashing := clashing + {candidates[i].fingerprint};
        }
      }
    }

    /** Every candidate that is not blocked is written and linked. */
    method WriteCandidates(date: int, candidates: seq<RoundTrip>, blocked: set<Fingerprint>)
      modifies `trades, `links
      ensures trades == RowsWritten(old(trades), date, candidates, blocked, |candidates|)
      ensures links == LinksWritten(old(links), candidates, blocked, |candidates|)
    {
      for i := 0 to |candidates|
        invariant trades == RowsWritten(old(trades), date, candidates, blocked, i)
        invariant links == LinksWritten(old(links), candidates, blocked, i)
      {
        var t := candidates[i].fingerprint;
        if t !in blocked {
          if t in trades {
            trades := trades[t := trades[t].(trip := trades[t].trip.(gross := candidates[i].gross, charges := candidates[i].charges))];
          } else {
            trades := trades[t := Row(candidates[i], date, false)];
          }
          links := links[t := t];
        }
      }
    }

    /** `rebuild_session`: the conflicts it reports. */
    method RebuildSession(date: int) returns (conflicts: set<Fingerprint>)
      requires JournalStore.Inv(Now())
      modifies `trades, `links
      ensures Now() == Rebuilt(old(Now()), date) && JournalStore.Inv(Now())
      ensures conflicts == Conflicts(old(Now()), date)
    {
      ghost var db := Now();
      TripsOnAreFine(db, date);
      var candidates := MatchSession(date);
      var blocked;
      conflicts, blocked := ReviewExisting(date, candidates);
      StepsRebuild(db, date, candidates, blocked, links);
      WriteCandidates(date, candidates, blocked);
      RebuildKeepsInv(db, date, candidates);
    }
  }

  lemma ReviewOneMore(db: Db, date: int, trips: seq<RoundTrip>, left: set<Fingerprint>, t: Fingerprint)
    requires JournalStore.Inv(db) && t in left && left <= OnDate(db, date)
    ensures var rows := HalfReviewed(db, date, trips, left);
            HalfReviewed(db, date, trips, left - {t})
            == if t in Fingerprints(trips) then rows else if t in db.notes then rows[t := rows[t].(review := true)] else rows - {t}
    ensures var linked := HalfLinked(db, date, trips, left);
            HalfLinked(db, date, trips, left - {t}) == if t in Fingerprints(trips) || t in db.notes then linked else linked - {t}
  {
  }

  lemma ClashesMore(db: Db, conflicts: set<Fingerprint>, p: Fingerprint, trips: seq<RoundTrip>, blocked: set<Fingerprint>, clashing: set<Fingerprint>)
    requires p in db.links && clashing == set t | t in Fingerprints(trips) && FillIds(db.links[p]) * FillIds(t) != {}
    requires forall t :: t in Fingerprints(trips) ==> (t in blocked <==> Clashes(db, conflicts, t))
    ensures forall t :: t in Fingerprints(trips) ==> (t in blocked + clashing <==> Clashes(db, conflicts + {p}, t))
  {
  }
}
