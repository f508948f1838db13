/** What `put_pool` may never lose: decisions, notes, first sightings and scenario
    membership, followed over a whole push by where each stored row ended up. */
module PoolMarks {
  import opened Wrappers
  import opened Pool
  import opened PoolPayload
  import opened PoolIngest

  // --- Marks ------------------------------------------------------------------------

  /** The rows that ended up in `id`. */
  ghost predicate Kin(home: map<Id, Id>, id: Id, x: Id) {
    x in home && home[x] == id
  }

  ghost predicate DecisionGathered(before: map<Id, Row>, home: map<Id, Id>, id: Id, row: Row)
    requires home.Keys <= before.Keys
  {
    if row.status == Undecided then forall x :: Kin(home, id, x) ==> before[x].status == Undecided
    else exists x :: Kin(home, id, x) && before[x].status == row.status && before[x].statusAt == row.statusAt
  }

  ghost predicate NoteGathered(before: map<Id, Row>, home: map<Id, Id>, id: Id, row: Row)
    requires home.Keys <= before.Keys
  {
    if row.note.None? then forall x :: Kin(home, id, x) ==> before[x].note.None?
    else exists x :: Kin(home, id, x) && before[x].note == row.note
  }

  ghost predicate SightingGathered(before: map<Id, Row>, home: map<Id, Id>, id: Id, row: Row)
    requires home.Keys <= before.Keys
  {
    && (forall x :: Kin(home, id, x) ==> row.firstSeen <= before[x].firstSeen)
    && (exists x :: Kin(home, id, x) && before[x].firstSeen == row.firstSeen)
  }

  /** A decided row keeps its own decision, an annotated one its own note. */
  ghost predicate OwnFirst(before: map<Id, Row>, home: map<Id, Id>, id: Id, row: Row)
    requires home.Keys <= before.Keys
  {
    Kin(home, id, id) ==>
      && (before[id].status != Undecided ==> row.status == before[id].status && row.statusAt == before[id].statusAt)
      && (before[id].note.Some? ==> row.note == before[id].note)
  }

  /** The marks on a surviving row: undecided only if all its kin were; a note if any had
      one; the earliest sighting of all; its own decision and note before any other's. */
  ghost predicate Gathered(before: map<Id, Row>, home: map<Id, Id>, id: Id, row: Row)
    requires home.Keys <= before.Keys
  {
    && DecisionGathered(before, home, id, row) && NoteGathered(before, home, id, row)
    && SightingGathered(before, home, id, row) && OwnFirst(before, home, id, row)
  }

  /** Every row live at the start has a live home, itself as long as it lives. */
  ghost predicate Homes(rows: map<Id, Row>, home: map<Id, Id>) {
    forall x :: x in home ==> x in rows && Live(rows, home[x]) && (Live(rows, x) ==> home[x] == x)
  }

  ghost predicate AllGathered(before: map<Id, Row>, rows: map<Id, Row>, home: map<Id, Id>) {
    && home.Keys <= before.Keys
    && forall id :: id in home && Live(rows, id) ==> Gathered(before, home, id, rows[id])
  }

  function Rehomed(home: map<Id, Id>, loser: Id, winner: Id): map<Id, Id> {
    map x | x in home :: if home[x] == loser then winner else home[x]
  }

  lemma AbsorbGathers(before: map<Id, Row>, home: map<Id, Id>, loser: Id, winner: Id, l: Row, w: Row)
    requires home.Keys <= before.Keys && loser != winner && Kin(home, winner, winner)
    requires Gathered(before, home, loser, l) && Gathered(before, home, winner, w)
    ensures Gathered(before, Rehomed(home, loser, winner), winner, Absorbed(w, l))
  {
  }

  // Rows the merge has nothing to do with keep their kin.
  lemma OthersStayGathered(before: map<Id, Row>, home: map<Id, Id>, loser: Id, winner: Id, id: Id, row: Row)
    requires home.Keys <= before.Keys && id != loser && id != winner && Gathered(before, home, id, row)
    ensures Gathered(before, Rehomed(home, loser, winner), id, row)
  {
  }

  /** The rows around one merge. */
  ghost predicate OneMerged(rows: map<Id, Row>, rows': map<Id, Row>, loser: Id, winner: Id) {
    && rows'.Keys == rows.Keys && loser != winner
    && Live(rows, loser) && Live(rows, winner) && !Live(rows', loser)
    && Live(rows', winner) && rows'[winner] == Absorbed(rows[winner], rows[loser])
    && forall x :: x in rows && x != winner && x != loser ==> rows'[x] == rows[x]
  }

  lemma MergesOne(w: Work, loser: Id, winner: Id, now: Time)
    requires Live(w.season.rows, loser) && Live(w.season.rows, winner) && loser != winner
    ensures OneMerged(w.season.rows, MergeOne(w, loser, winner, now).season.rows, loser, winner)
    ensures MergeOne(w, loser, winner, now).home == Rehomed(w.home, loser, winner)
  {
  }

  lemma MergeKeepsHomes(rows: map<Id, Row>, rows': map<Id, Row>, home: map<Id, Id>, loser: Id, winner: Id)
    requires Homes(rows, home) && OneMerged(rows, rows', loser, winner)
    ensures Homes(rows', Rehomed(home, loser, winner))
  {
  }

  lemma MergeKeepsGathered(before: map<Id, Row>, rows: map<Id, Row>, rows': map<Id, Row>, home: map<Id, Id>,
                           loser: Id, winner: Id)
    requires AllGathered(before, rows, home) && Homes(rows, home) && OneMerged(rows, rows', loser, winner)
    requires loser in home && winner in home
    ensures AllGathered(before, rows', Rehomed(home, loser, winner))
  {
    AbsorbGathers(before, home, loser, winner, rows[loser], rows[winner]);
    hide Gathered, Absorbed;
    var home' := Rehomed(home, loser, winner);
    forall id | id in home' && Live(rows', id) ensures Gathered(before, home', id, rows'[id]) {
      if id != winner {
        OthersStayGathered(before, home, loser, winner, id, rows[id]);
      }
    }
  }

  lemma MergeGathers(before: map<Id, Row>, w: Work, loser: Id, winner: Id, now: Time)
    requires AllGathered(before, w.season.rows, w.home) && Homes(w.season.rows, w.home)
    requires Live(w.season.rows, loser) && Live(w.season.rows, winner) && loser != winner
    requires loser in w.home && winner in w.home
    ensures var w' := MergeOne(w, loser, winner, now);
            && AllGathered(before, w'.season.rows, w'.home) && Homes(w'.season.rows, w'.home)
            && w'.home.Keys == w.home.Keys
            && (forall x :: Live(w.season.rows, x) && x != loser ==> Live(w'.season.rows, x))
  {
    MergesOne(w, loser, winner, now);
    hide MergeOne, AllGathered, Homes, Absorbed;
    var rows, rows' := w.season.rows, MergeOne(w, loser, winner, now).season.rows;
    MergeKeepsHomes(rows, rows', w.home, loser, winner);
    MergeKeepsGathered(before, rows, rows', w.home, loser, winner);
  }

  lemma {:induction false} MergeAllGathers(before: map<Id, Row>, w: Work, losers: seq<Id>, winner: Id, now: Time)
    requires AllGathered(before, w.season.rows, w.home) && Homes(w.season.rows, w.home)
    requires Mergeable(w, losers, winner) && Live(w.season.rows, winner) && winner in w.home
    requires forall l :: l in losers ==> Live(w.season.rows, l) && l in w.home
    ensures var w' := MergeAll(w, losers, winner, now);
            AllGathered(before, w'.season.rows, w'.home) && Homes(w'.season.rows, w'.home) && Live(w'.season.rows, winner)
    decreases |losers|
  {
    if losers != [] {
      MergeOneEffect(w, losers, winner, now);
      MergeGathers(before, w, losers[0], winner, now);
      hide MergeOne, MergedInto, AllGathered, Homes;
      MergeAllGathers(before, MergeOne(w, losers[0], winner, now), losers[1..], winner, now);
    }
  }

  predicate SameButKey(a: Row, b: Row) {
    && a.deletedAt == b.deletedAt && a.status == b.status && a.statusAt == b.statusAt
    && a.note == b.note && a.firstSeen == b.firstSeen
  }

  // A row's marks are what counts: key, content and dates may change.
  lemma MarksAreEnough(before: map<Id, Row>, rows: map<Id, Row>, rows': map<Id, Row>, home: map<Id, Id>)
    requires AllGathered(before, rows, home) && Homes(rows, home)
    requires forall x :: x in rows ==> x in rows' && SameButKey(rows'[x], rows[x])
    ensures AllGathered(before, rows', home) && Homes(rows', home)
  {
    forall id | id in home && Live(rows', id) ensures Gathered(before, home, id, rows'[id]) {
      assert Gathered(before, home, id, rows[id]);
    }
  }

  /** Homes are rows that were there from the start. */
  predicate Inside(home: map<Id, Id>) {
    home.Values <= home.Keys
  }

  /** Where every row live at the start ended up, and with which marks. */
  ghost predicate Following(before: map<Id, Row>, w: Work) {
    && AllGathered(before, w.season.rows, w.home) && Homes(w.season.rows, w.home) && Inside(w.home)
    && w.home.Keys == LiveIds(before)
  }

  lemma {:induction false} MergesInside(w: Work, losers: seq<Id>, winner: Id, now: Time)
    requires Mergeable(w, losers, winner) && Inside(w.home) && winner in w.home
    ensures Inside(MergeAll(w, losers, winner, now).home)
    ensures MergeAll(w, losers, winner, now).home.Keys == w.home.Keys
  {
    MergeAllHome(w, losers, winner, now);
    var home' := MergeAll(w, losers, winner, now).home;
    forall v | v in home'.Values ensures v in home' {
      var x :| x in home' && home'[x] == v;
      assert w.home[x] in w.home.Values;
    }
  }

  lemma CreatedGathers(before: map<Id, Row>, w: Work, n: Naming, item: Item, now: Time, hint: nat)
    requires Following(before, w)
    ensures Following(before, Created(w, n, item, now, hint))
  {
    MarksAreEnough(before, w.season.rows, Created(w, n, item, now, hint).season.rows, w.home);
  }

  lemma RekeyedGathers(before: map<Id, Row>, w: Work, id: Id, key: string)
    requires Following(before, w) && id in w.season.rows
    ensures Following(before, Rekeyed(w, id, key))
    ensures forall x :: Live(Rekeyed(w, id, key).season.rows, x) <==> Live(w.season.rows, x)
  {
    MarksAreEnough(before, w.season.rows, Rekeyed(w, id, key).season.rows, w.home);
  }

  lemma RefreshedGathers(before: map<Id, Row>, w: Work, id: Id, item: Item, now: Time)
    requires Following(before, w) && id in w.season.rows
    ensures Following(before, Refreshed(w, id, item, now))
  {
    hide Merged;
    MarksAreEnough(before, w.season.rows, Refreshed(w, id, item, now).season.rows, w.home);
  }

  // The rows a turn merges are live, and were there from the start.
  lemma {:induction false} ChosenAreKnown(n: Naming, w: Work, item: Item, id: Id, losers: seq<Id>)
    requires Awaited(n, w, item) && Chosen(n, w, item, id, losers)
    ensures forall l :: l in losers ==> Live(w.season.rows, l) && l in w.home
    ensures id in w.season.rows ==> Live(w.season.rows, id) && id in w.home
  {
  }

  lemma TurnGathers(n: Naming, before: map<Id, Row>, w: Work, item: Item, now: Time, hint: nat)
    requires KeysLive(w) && Awaited(n, w, item) && Following(before, w)
    ensures Following(before, Ingested(w, n, item, now, hint))
  {
    var id, w1, losers := TurnCases(n, w, item, now, hint);
    ChosenAreKnown(n, w, item, id, losers);
    hide Ingested, Following, Created, Refreshed, MergeAll, Chosen, Awaited, Rekeyed;
    if id !in w.season.rows {
      CreatedGathers(before, w, n, item, now, hint);
    } else {
      RekeyedGathers(before, w, id, item.key);
      RekeyedHome(w, id, item.key);
      FoldGathers(before, w1, losers, id, now);
      MergeAllRows(w1, losers, id, now);
      RefreshedGathers(before, MergeAll(w1, losers, id, now), id, item, now);
    }
  }

  lemma RekeyedHome(w: Work, id: Id, key: string)
    requires id in w.season.rows
    ensures Rekeyed(w, id, key).home == w.home && Rekeyed(w, id, key).season.scenarios == w.season.scenarios
  {
  }

  lemma {:induction false} FoldGathers(before: map<Id, Row>, w: Work, losers: seq<Id>, winner: Id, now: Time)
    requires Following(before, w)
    requires Mergeable(w, losers, winner) && Live(w.season.rows, winner) && winner in w.home
    requires forall l :: l in losers ==> Live(w.season.rows, l) && l in w.home
    ensures Following(before, MergeAll(w, losers, winner, now))
  {
    MergesInside(w, losers, winner, now);
    MergeAllGathers(before, w, losers, winner, now);
  }

  lemma {:induction false} LoopGathers(n: Naming, before: map<Id, Row>, w: Work, all: seq<Item>, k: nat, now: Time, hint: nat)
    requires k <= |all| && Tidy(n, w, all[k..]) && Separate(n, all) && Following(before, w)
    ensures Following(before, IngestAll(w, n, all[k..], now, hint))
    decreases |all| - k
  {
    SliceSeparate(n, all, k);
    hide Separate, Ingested, Following, TurnDone, Chosen, Awaited;
    if k < |all| {
      var id, losers := TurnKeepsTidy(n, w, all[k..], now, hint);
      TurnGathers(n, before, w, all[k], now, hint);
      LoopGathers(n, before, Ingested(w, n, all[k], now, hint), all, k + 1, now, hint);
    }
  }

  /** Over every push, whatever was merged, rekeyed or refreshed: every stored row that was
      live and not vetoed has a live home, and the home's marks are those of all the rows
      that ended there. */
  lemma {:induction false} PushLosesNoMark(n: Naming, s: Season, order: seq<Id>, items: seq<Item>, veto: seq<string>, now: Time,
                                           hint: nat)
    requires ScanOrder(s.rows, order)
    ensures Following(Purged(s.rows, veto, now), PutPool(n, s, order, items, veto, now, hint).0)
  {
    var payload, before, w0 := Payload(n, items, veto), Purged(s.rows, veto, now), PurgedWork(n, s, order, veto, now);
    PurgedStartsTidy(n, s, order, items, veto, now);
    PurgeKeepsOrder(s.rows, order, veto, now);
    assert payload[0..] == payload;
    StartsGathered(before, w0);
    hide Separate, Payload, Purged, Tidy, Following;
    LoopGathers(n, before, w0, payload, 0, now, hint);
  }

  lemma StartsGathered(before: map<Id, Row>, w: Work)
    requires w.season.rows == before && w.home.Keys == LiveIds(before) && forall x :: x in w.home ==> w.home[x] == x
    ensures Following(before, w)
  {
  }
}
