/** The loop of `put_pool`, over every payload, every stored pool and every order the
    database returns it in: what each turn does, and what both indexes keep true although
    they are changed inside the loop and never rebuilt. */
module PoolIngest {
  import opened Wrappers
  import opened Pool
  import opened PoolPayload

  // --- Lists of rows ------------------------------------------------------------------------

  lemma {:induction false} LiveOnlyDistinct(rows: map<Id, Row>, ids: seq<Id>)
    requires Distinct(ids)
    ensures Distinct(LiveOnly(rows, ids))
    decreases |ids|
  {
    if ids != [] {
      LiveOnlyDistinct(rows, ids[1..]);
    }
  }

  lemma {:induction false} ExceptDistinct(ids: seq<Id>, id: Id)
    requires Distinct(ids)
    ensures Distinct(Except(ids, id)) && |Except(ids, id)| == |ids| - if id in ids then 1 else 0
    decreases |ids|
  {
    if ids != [] {
      ExceptDistinct(ids[1..], id);
      assert id in ids <==> id == ids[0] || id in ids[1..];
      if ids[0] != id {
      } else {
        assert [] + Except(ids[1..], id) == Except(ids[1..], id);
      }
    }
  }

  // --- Merging ----------------------------------------------------------------------------------

  ghost predicate Mergeable(w: Work, losers: seq<Id>, winner: Id) {
    && Distinct(losers) && winner !in losers && winner in w.season.rows
    && forall i :: 0 <= i < |losers| ==> losers[i] in w.season.rows
  }

  lemma {:induction false} MergeOneEffect(w: Work, losers: seq<Id>, winner: Id, now: Time)
    requires Mergeable(w, losers, winner) && losers != []
    ensures var w1 := MergeOne(w, losers[0], winner, now);
            var rows, rows1 := w.season.rows, w1.season.rows;
            && Mergeable(w1, losers[1..], winner) && losers[0] !in losers[1..]
            && rows1.Keys == rows.Keys
            && rows1[losers[0]] == rows[losers[0]].(deletedAt := Some(now), version := rows[losers[0]].version + 1)
            && rows1[winner] == Absorbed(rows[winner], rows[losers[0]])
            && (forall x :: x in rows && x != winner && x != losers[0] ==> rows1[x] == rows[x])
    ensures var w1 := MergeOne(w, losers[0], winner, now);
            && w1.byKey == w.byKey - {w.season.rows[losers[0]].key} && w1.byIdentity == w.byIdentity
            && w1.counts == w.counts.(merged := w.counts.merged + 1)
            && w1.home == map x | x in w.home :: if w.home[x] == losers[0] then winner else w.home[x]
    ensures forall x :: x in losers <==> x == losers[0] || x in losers[1..]
  {
  }

  /** Marks aside, merging changes nothing about the winner. */
  predicate SameCandidate(a: Row, b: Row) {
    a.key == b.key && a.content == b.content && a.hashed == b.hashed && a.lastSeen == b.lastSeen && a.deletedAt == b.deletedAt
  }

  function Retired(row: Row, now: Time): Row {
    row.(deletedAt := Some(now), version := row.version + 1)
  }

  /** The losers are retired, the winner is the same candidate with other marks. */
  ghost predicate FoldedIn(rows: map<Id, Row>, rows': map<Id, Row>, losers: seq<Id>, winner: Id, now: Time) {
    && rows'.Keys == rows.Keys && winner in rows
    && (forall x :: x in losers ==> x in rows && rows'[x] == Retired(rows[x], now))
    && (forall x :: x in rows && x != winner && x !in losers ==> rows'[x] == rows[x])
    && SameCandidate(rows'[winner], rows[winner])
    && (losers == [] ==> rows' == rows)
  }

  lemma {:induction false} MergeAllRows(w: Work, losers: seq<Id>, winner: Id, now: Time)
    requires Mergeable(w, losers, winner)
    ensures FoldedIn(w.season.rows, MergeAll(w, losers, winner, now).season.rows, losers, winner, now)
    decreases |losers|
  {
    if losers != [] {
      MergeOneEffect(w, losers, winner, now);
      var w1 := MergeOne(w, losers[0], winner, now);
      MergeAllRows(w1, losers[1..], winner, now);
      hide Absorbed, MergeOne, MergedInto, FoldedIn, SameCandidate;
      FoldedMore(w.season.rows, w1.season.rows, MergeAll(w, losers, winner, now).season.rows, losers, winner, now);
    }
  }

  lemma {:induction false} FoldedMore(rows: map<Id, Row>, rows1: map<Id, Row>, rows': map<Id, Row>, losers: seq<Id>,
                                      winner: Id, now: Time)
    requires losers != [] && losers[0] in rows && winner in rows && winner != losers[0] && losers[0] !in losers[1..]
    requires forall x :: x in losers <==> x == losers[0] || x in losers[1..]
    requires rows1.Keys == rows.Keys && rows1[losers[0]] == Retired(rows[losers[0]], now)
    requires SameCandidate(rows1[winner], rows[winner]) && winner !in losers
    requires forall x :: x in rows && x != winner && x != losers[0] ==> rows1[x] == rows[x]
    requires FoldedIn(rows1, rows', losers[1..], winner, now)
    ensures FoldedIn(rows, rows', losers, winner, now)
  {
  }

  function KeysOf(rows: map<Id, Row>, ids: seq<Id>): set<string> {
    set id | id in ids && id in rows :: rows[id].key
  }

  lemma {:induction false} MergeAllIndexes(w: Work, losers: seq<Id>, winner: Id, now: Time)
    requires Mergeable(w, losers, winner)
    ensures var w' := MergeAll(w, losers, winner, now);
            && w'.byIdentity == w.byIdentity
            && w'.byKey == w.byKey - KeysOf(w.season.rows, losers)
            && w'.counts == w.counts.(merged := w.counts.merged + |losers|)
    decreases |losers|
  {
    if losers == [] {
      assert w.byKey - KeysOf(w.season.rows, losers) == w.byKey;
    } else {
      MergeOneEffect(w, losers, winner, now);
      var w1 := MergeOne(w, losers[0], winner, now);
      MergeAllIndexes(w1, losers[1..], winner, now);
      hide MergeOne, MergedInto;
      assert w.byKey - {w.season.rows[losers[0]].key} - KeysOf(w1.season.rows, losers[1..]) == w.byKey - KeysOf(w.season.rows, losers);
    }
  }

  lemma {:induction false} MergeAllHome(w: Work, losers: seq<Id>, winner: Id, now: Time)
    requires Mergeable(w, losers, winner)
    ensures MergeAll(w, losers, winner, now).home == map x | x in w.home :: if w.home[x] in losers then winner else w.home[x]
    decreases |losers|
  {
    if losers != [] {
      MergeOneEffect(w, losers, winner, now);
      hide MergeOne, MergedInto;
      MergeAllHome(MergeOne(w, losers[0], winner, now), losers[1..], winner, now);
    }
  }

  lemma {:induction false} MergeAllVersion(w: Work, losers: seq<Id>, winner: Id, now: Time)
    requires Mergeable(w, losers, winner)
    ensures MergeAll(w, losers, winner, now).season.rows[winner].version == w.season.rows[winner].version + |losers|
    decreases |losers|
  {
    if losers != [] {
      MergeOneEffect(w, losers, winner, now);
      var w1 := MergeOne(w, losers[0], winner, now);
      assert w1.season.rows[winner].version == w.season.rows[winner].version + 1;
      hide MergeOne, MergedInto, Absorbed;
      MergeAllVersion(w1, losers[1..], winner, now);
    }
  }

  function Rehoused(home: map<Id, Id>, losers: seq<Id>, id: Id): map<Id, Id> {
    map x | x in home :: if home[x] in losers then id else home[x]
  }

  // --- Between two turns --------------------------------------------------------------------

  /** The rows stored under an identity, in the order they were met. */
  function GroupOf(w: Work, identity: Option<Identity>): seq<Id> {
    if identity.Some? && identity.value in w.byIdentity then w.byIdentity[identity.value] else []
  }

  /** No key but its own leads to the row. */
  ghost predicate Unaliased(w: Work, x: Id) {
    x in w.season.rows && forall k :: k in w.byKey && w.byKey[k] == x ==> w.season.rows[x].key == k
  }

  /** What the turn of an item relies on: its key leads to a row that was there from the
      start, if to any, and so do the rows of its identity, which have no other key. */
  ghost predicate Awaited(n: Naming, w: Work, item: Item) {
    && (item.key in w.byKey ==> w.byKey[item.key] in w.home)
    && Distinct(GroupOf(w, Named(n, item)))
    && forall x :: x in GroupOf(w, Named(n, item)) ==> x in w.home && Unaliased(w, x)
  }

  ghost predicate GroupsApart(w: Work, i: Option<Identity>, j: Option<Identity>) {
    forall x :: x in GroupOf(w, i) ==> x !in GroupOf(w, j)
  }

  ghost predicate KeysLive(w: Work) {
    w.home.Keys <= w.season.rows.Keys && forall k :: k in w.byKey ==> Live(w.season.rows, w.byKey[k])
  }

  /** Between two turns of the loop, with the items of `ahead` still to come. */
  ghost predicate Tidy(n: Naming, w: Work, ahead: seq<Item>) {
    && KeysLive(w)
    && (forall j :: 0 <= j < |ahead| ==> Awaited(n, w, ahead[j]))
    && (forall i, j :: 0 <= i < j < |ahead| ==> GroupsApart(w, Named(n, ahead[i]), Named(n, ahead[j])))
  }

  // --- One turn ---------------------------------------------------------------------------------

  function NewRow(item: Item, now: Time): Row {
    Row(item.key, Dumped(item), Dumped(item), Undecided, None, None, now, now, 1, None)
  }

  function Bump(was: Row, row: Row): nat {
    if row.hashed != was.hashed then 1 else 0
  }

  /** The row took the item up: merged into its content unless the hash says nothing is
      new, one version for each row folded in and one for a new hash. */
  ghost predicate TookUp(was: Row, row: Row, item: Item, key: string, now: Time, joined: nat) {
    && row.deletedAt.None? && row.key == key && row.lastSeen == now
    && row.hashed == Merged(was.content, item)
    && row.content == (if was.hashed == Merged(was.content, item) then was.content else Merged(was.content, item))
    && row.version == was.version + joined + Bump(was, row)
    && (joined == 0 ==> SameMarks(row, was))
  }

  predicate SameMarks(a: Row, b: Row) {
    a.status == b.status && a.statusAt == b.statusAt && a.note == b.note && a.firstSeen == b.firstSeen
  }

  /** What one turn did: `id` is the row the item came to, `losers` the rows folded into it. */
  ghost predicate TurnDone(n: Naming, w: Work, w': Work, item: Item, now: Time, id: Id, losers: seq<Id>) {
    && TurnRows(w.season.rows, w'.season.rows, item, KeyTaken(w, item, id), now, id, losers)
    && TurnIndexes(n, w, w', item, id, losers)
    && Counted(w, w', item, id, losers) && (losers == [] ==> w'.season.scenarios == w.season.scenarios)
  }

  /** Which rows: by its key, else among those of its identity, else a new one. */
  ghost predicate Chosen(n: Naming, w: Work, item: Item, id: Id, losers: seq<Id>) {
    var group := GroupOf(w, Named(n, item));
    && Distinct(losers) && id !in losers
    && (forall x :: x in losers <==> x in group && Live(w.season.rows, x) && x != id)
    && (if item.key in w.byKey then id == w.byKey[item.key]
        else if exists x :: x in group && Live(w.season.rows, x) then
          id in group && TwinsOf(w, Named(n, item)) != [] && id == LatestSeen(w.season.rows, TwinsOf(w, Named(n, item)))
        else id !in w.season.rows)
    && (id in w.season.rows ==> Live(w.season.rows, id) && id in w.home)
    && (id !in w.season.rows ==> losers == [])
  }

  /** The key of the row from now on: an item that found it by a key changes nothing. */
  function KeyTaken(w: Work, item: Item, id: Id): string {
    if item.key in w.byKey && id in w.season.rows then w.season.rows[id].key else item.key
  }

  ghost predicate TurnRows(rows: map<Id, Row>, rows': map<Id, Row>, item: Item, key: string, now: Time, id: Id,
                           losers: seq<Id>)
  {
    && rows'.Keys == rows.Keys + {id}
    && (forall l :: l in losers ==> l in rows && rows'[l] == Retired(rows[l], now))
    && (forall x :: x in rows && x != id && x !in losers ==> rows'[x] == rows[x])
    && (if id in rows then TookUp(rows[id], rows'[id], item, key, now, |losers|) else rows'[id] == NewRow(item, now))
  }

  ghost predicate TurnIndexes(n: Naming, w: Work, w': Work, item: Item, id: Id, losers: seq<Id>) {
    && w'.byKey == w.byKey[item.key := id] - KeysOf(w.season.rows, losers)
    && w'.byIdentity == (if id in w.season.rows then w.byIdentity else Grouped(w.byIdentity, Named(n, item), id))
    && w'.home == Rehoused(w.home, losers, id)
  }

  /** The counters say what happened: one of created, updated and unchanged; rekeyed when
      an existing row took on the key; merged once per loser. */
  ghost predicate Counted(w: Work, w': Work, item: Item, id: Id, losers: seq<Id>) {
    && w'.counts.created == w.counts.created + (if id in w.season.rows then 0 else 1)
    && w'.counts.rekeyed == w.counts.rekeyed + (if id in w.season.rows && item.key !in w.byKey then 1 else 0)
    && w'.counts.merged == w.counts.merged + |losers|
    && w'.counts.kept == w.counts.kept + (if id in w.season.rows && SaysNothingNew(w.season.rows[id], item) then 1 else 0)
    && w'.counts.updated == w.counts.updated + (if id in w.season.rows && !SaysNothingNew(w.season.rows[id], item) then 1 else 0)
  }

  predicate SaysNothingNew(row: Row, item: Item) {
    row.hashed == Merged(row.content, item)
  }

  lemma {:induction false} ChosenBasics(n: Naming, w: Work, item: Item, id: Id, losers: seq<Id>)
    requires Chosen(n, w, item, id, losers)
    ensures Distinct(losers) && id !in losers && (id in w.season.rows ==> Live(w.season.rows, id) && id in w.home)
    ensures forall l :: l in losers ==> Live(w.season.rows, l) && l in GroupOf(w, Named(n, item))
    ensures item.key in w.byKey ==> w.byKey[item.key] == id
    ensures item.key !in w.byKey && id in w.season.rows ==> id in GroupOf(w, Named(n, item))
    ensures item.key !in w.byKey && id !in w.season.rows ==>
              forall x :: x in GroupOf(w, Named(n, item)) ==> !Live(w.season.rows, x)
    ensures forall x :: x in GroupOf(w, Named(n, item)) && Live(w.season.rows, x) ==> x in losers || x == id
  {
    hide GroupOf, TwinsOf, LatestSeen;
  }

  lemma {:induction false} ChosenAdopts(n: Naming, w: Work, item: Item, id: Id, losers: seq<Id>)
    requires Chosen(n, w, item, id, losers) && item.key !in w.byKey && id in w.season.rows
    ensures TwinsOf(w, Named(n, item)) != [] && id == LatestSeen(w.season.rows, TwinsOf(w, Named(n, item)))
  {
    hide GroupOf, TwinsOf, LatestSeen, Distinct;
  }

  lemma TwinsAreExact(n: Naming, w: Work, item: Item)
    requires Awaited(n, w, item)
    ensures var twins := TwinsOf(w, Named(n, item));
            Distinct(twins) && forall x :: x in twins <==> x in GroupOf(w, Named(n, item)) && Live(w.season.rows, x)
  {
    LiveOnlyDistinct(w.season.rows, GroupOf(w, Named(n, item)));
  }

  /** A turn creates a row when its key and its identity lead to none; otherwise it takes
      the row under its key, or else adopts one of its identity, and folds all others of
      that identity into it. */
  lemma TurnCases(n: Naming, w: Work, item: Item, now: Time, hint: nat) returns (id: Id, w1: Work, losers: seq<Id>)
    requires KeysLive(w) && Awaited(n, w, item)
    ensures Chosen(n, w, item, id, losers)
    ensures id !in w.season.rows ==>
      id == NewId(w.season.rows.Keys, hint) && Ingested(w, n, item, now, hint) == Created(w, n, item, now, hint)
    ensures id in w.season.rows ==>
      && Mergeable(w1, losers, id) && w1 == (if item.key in w.byKey then w else Rekeyed(w, id, item.key))
      && Ingested(w, n, item, now, hint) == Refreshed(MergeAll(w1, losers, id, now), id, item, now)
  {
    hide IdentityOf, Dumped, Merged;
    TwinsAreExact(n, w, item);
    var twins := TwinsOf(w, Named(n, item));
    var (adopted, found) := Adopted(w, twins, item.key);
    w1 := adopted;
    if found.None? {
      id, losers := NewId(w.season.rows.Keys, hint), [];
      assert forall x :: x in GroupOf(w, Named(n, item)) ==> x !in twins;
    } else {
      id, losers := found.value, Except(twins, found.value);
      ExceptDistinct(twins, found.value);
    }
  }

  lemma CreatedDone(n: Naming, w: Work, item: Item, now: Time, hint: nat)
    ensures TurnDone(n, w, Created(w, n, item, now, hint), item, now, NewId(w.season.rows.Keys, hint), [])
  {
    var id := NewId(w.season.rows.Keys, hint);
    assert w.byKey[item.key := id] - KeysOf(w.season.rows, []) == w.byKey[item.key := id];
    assert w.home == Rehoused(w.home, [], id);
  }

  lemma UpdatedTakesUp(was: Row, merged: Row, item: Item, key: string, now: Time, joined: nat)
    requires was.deletedAt.None? && SameCandidate(merged, was.(key := key)) && merged.version == was.version + joined
    requires joined == 0 ==> SameMarks(merged, was)
    ensures TookUp(was, Updated(merged, item, now), item, key, now, joined)
  {
    hide Merged;
  }

  lemma {:induction false} RowsTakenUp(rows: map<Id, Row>, key: string, folded: map<Id, Row>, item: Item, now: Time, id: Id,
                                       losers: seq<Id>)
    requires Live(rows, id) && id !in losers
    requires FoldedIn(rows[id := rows[id].(key := key)], folded, losers, id, now)
    requires folded[id].version == rows[id].version + |losers|
    ensures TurnRows(rows, folded[id := Updated(folded[id], item, now)], item, key, now, id, losers)
  {
    assert |losers| == 0 ==> losers == [];
    UpdatedTakesUp(rows[id], folded[id], item, key, now, |losers|);
    hide TookUp, Updated, SameCandidate, Retired;
  }

  lemma {:induction false} FoundRows(w: Work, w1: Work, item: Item, now: Time, id: Id, losers: seq<Id>)
    requires Live(w.season.rows, id) && Mergeable(w1, losers, id)
    requires w1 == if item.key in w.byKey then w else Rekeyed(w, id, item.key)
    ensures TurnRows(w.season.rows, Refreshed(MergeAll(w1, losers, id, now), id, item, now).season.rows, item,
                     KeyTaken(w, item, id), now, id, losers)
  {
    var key := KeyTaken(w, item, id);
    assert w1.season.rows == w.season.rows[id := w.season.rows[id].(key := key)];
    hide MergeAll, Rekeyed, Updated, TurnRows, FoldedIn;
    MergeAllRows(w1, losers, id, now);
    MergeAllVersion(w1, losers, id, now);
    RowsTakenUp(w.season.rows, key, MergeAll(w1, losers, id, now).season.rows, item, now, id, losers);
  }

  lemma {:induction false} RekeyedApart(w: Work, id: Id, key: string, losers: seq<Id>)
    requires id in w.season.rows && id !in losers
    ensures KeysOf(Rekeyed(w, id, key).season.rows, losers) == KeysOf(w.season.rows, losers)
  {
  }

  lemma {:induction false} FoundIndexes(n: Naming, w: Work, w1: Work, item: Item, now: Time, id: Id, losers: seq<Id>)
    requires id in w.season.rows && Mergeable(w1, losers, id)
    requires w1 == if item.key in w.byKey then w else Rekeyed(w, id, item.key)
    requires item.key in w.byKey ==> w.byKey[item.key] == id
    ensures TurnIndexes(n, w, Refreshed(MergeAll(w1, losers, id, now), id, item, now), item, id, losers)
  {
    assert w1.byKey == w.byKey[item.key := id] && w1.byIdentity == w.byIdentity && w1.home == w.home;
    assert id !in losers;
    RekeyedApart(w, id, item.key, losers);
    hide MergeAll, Merged, KeysOf, Rekeyed, Updated, Mergeable, Live;
    MergeAllIndexes(w1, losers, id, now);
    MergeAllHome(w1, losers, id, now);
  }

  lemma {:induction false} MergingSaysNothing(w: Work, losers: seq<Id>, id: Id, now: Time, item: Item)
    requires Mergeable(w, losers, id)
    ensures SaysNothingNew(MergeAll(w, losers, id, now).season.rows[id], item) == SaysNothingNew(w.season.rows[id], item)
  {
    MergeAllRows(w, losers, id, now);
    hide MergeAll, Merged;
  }

  lemma {:induction false} FoundCounts(w: Work, w1: Work, item: Item, now: Time, id: Id, losers: seq<Id>)
    requires id in w.season.rows && Mergeable(w1, losers, id)
    requires w1 == if item.key in w.byKey then w else Rekeyed(w, id, item.key)
    ensures Counted(w, Refreshed(MergeAll(w1, losers, id, now), id, item, now), item, id, losers)
  {
    assert SaysNothingNew(w1.season.rows[id], item) == SaysNothingNew(w.season.rows[id], item);
    hide MergeAll, Merged, KeysOf, Mergeable, Updated;
    MergeAllIndexes(w1, losers, id, now);
    MergingSaysNothing(w1, losers, id, now, item);
  }

  lemma {:induction false} FoundScenarios(w: Work, w1: Work, item: Item, now: Time, id: Id, losers: seq<Id>)
    requires id in w.season.rows && Mergeable(w1, losers, id)
    requires w1 == if item.key in w.byKey then w else Rekeyed(w, id, item.key)
    ensures losers == [] ==> Refreshed(MergeAll(w1, losers, id, now), id, item, now).season.scenarios == w.season.scenarios
  {
    hide Merged, Updated;
  }

  lemma TurnIsDone(n: Naming, w: Work, item: Item, now: Time, hint: nat) returns (id: Id, losers: seq<Id>)
    requires KeysLive(w) && Awaited(n, w, item)
    ensures Chosen(n, w, item, id, losers) && TurnDone(n, w, Ingested(w, n, item, now, hint), item, now, id, losers)
  {
    var chosen, w1, ls := TurnCases(n, w, item, now, hint);
    id, losers := chosen, ls;
    if id !in w.season.rows {
      hide Ingested, TurnDone, Created;
      CreatedDone(n, w, item, now, hint);
    } else {
      hide Ingested, Refreshed, MergeAll, TurnRows, TurnIndexes, Counted, KeyTaken;
      FoundRows(w, w1, item, now, id, losers);
      FoundIndexes(n, w, w1, item, now, id, losers);
      FoundCounts(w, w1, item, now, id, losers);
      FoundScenarios(w, w1, item, now, id, losers);
    }
  }

  // --- From one turn to the next -----------------------------------------------------------------

  /** Live rows after a turn: the losers are gone, the item's row is there. */
  lemma {:induction false} TurnLives(n: Naming, w: Work, w': Work, item: Item, now: Time, id: Id, losers: seq<Id>)
    requires Chosen(n, w, item, id, losers) && TurnDone(n, w, w', item, now, id, losers)
    ensures forall x :: Live(w'.season.rows, x) <==> x == id || (Live(w.season.rows, x) && x !in losers)
    ensures w'.home.Keys == w.home.Keys && w.season.rows.Keys <= w'.season.rows.Keys
    ensures forall x :: x in w.season.rows ==>
              w'.season.rows[x].key == if x == id then KeyTaken(w, item, id) else w.season.rows[x].key
  {
    hide GroupOf, Merged, Grouped, TwinsOf, LatestSeen;
  }

  lemma {:induction false} KeysStayLive(n: Naming, w: Work, w': Work, item: Item, now: Time, id: Id, losers: seq<Id>)
    requires KeysLive(w) && Awaited(n, w, item) && Chosen(n, w, item, id, losers)
    requires TurnDone(n, w, w', item, now, id, losers)
    ensures KeysLive(w')
  {
    TurnLives(n, w, w', item, now, id, losers);
    ChosenBasics(n, w, item, id, losers);
    hide TurnRows, Counted, Chosen;
    forall k | k in w.byKey && w.byKey[k] in losers ensures k in KeysOf(w.season.rows, losers) {
      assert Unaliased(w, w.byKey[k]);
    }
  }

  // Groups of other identities are what they were.
  lemma {:induction false} GroupsStay(n: Naming, w: Work, w': Work, item: Item, id: Id, losers: seq<Id>, identity: Option<Identity>)
    requires TurnIndexes(n, w, w', item, id, losers) && (Named(n, item).Some? ==> identity != Named(n, item))
    ensures GroupOf(w', identity) == GroupOf(w, identity)
  {
  }

  // A row keeps to its own key unless the turn rekeys it.
  lemma {:induction false} StaysUnaliased(n: Naming, w: Work, w': Work, item: Item, now: Time, id: Id, losers: seq<Id>, x: Id)
    requires Unaliased(w, x) && (x == id ==> item.key in w.byKey)
    requires Chosen(n, w, item, id, losers) && TurnDone(n, w, w', item, now, id, losers)
    ensures Unaliased(w', x)
  {
    TurnLives(n, w, w', item, now, id, losers);
    assert w'.byKey == w.byKey[item.key := id] - KeysOf(w.season.rows, losers);
    assert x == id ==> w.byKey[item.key] == id;
    hide TurnDone, Chosen, KeysOf;
  }

  lemma {:induction false} KeyStaysAwaited(n: Naming, w: Work, w': Work, items: seq<Item>, id: Id, losers: seq<Id>, j: nat)
    requires 0 < j < |items| && Separate(n, items) && TurnIndexes(n, w, w', items[0], id, losers)
    ensures items[j].key in w'.byKey ==> items[j].key in w.byKey && w'.byKey[items[j].key] == w.byKey[items[j].key]
    ensures w'.home.Keys == w.home.Keys && (Named(n, items[0]).Some? ==> Named(n, items[j]) != Named(n, items[0]))
  {
    hide GroupOf, Grouped, IdentityOf, Dumped;
  }

  lemma {:induction false} StaysAwaited(n: Naming, w: Work, w': Work, items: seq<Item>, now: Time, id: Id, losers: seq<Id>, j: nat)
    requires 0 < j < |items| && Separate(n, items) && Tidy(n, w, items)
    requires Chosen(n, w, items[0], id, losers) && TurnDone(n, w, w', items[0], now, id, losers)
    ensures GroupOf(w', Named(n, items[j])) == GroupOf(w, Named(n, items[j])) && Awaited(n, w', items[j])
  {
    var item, group := items[0], GroupOf(w, Named(n, items[j]));
    KeyStaysAwaited(n, w, w', items, id, losers, j);
    hide Separate;
    GroupsStay(n, w, w', item, id, losers, Named(n, items[j]));
    assert Awaited(n, w, items[j]) && GroupsApart(w, Named(n, item), Named(n, items[j]));
    ChosenBasics(n, w, item, id, losers);
    hide TurnDone, Tidy, GroupOf, Named, Chosen, Distinct, Unaliased;
    forall x | x in group ensures x in w'.home && Unaliased(w', x) {
      StaysUnaliased(n, w, w', item, now, id, losers, x);
    }
  }

  lemma {:induction false} TurnKeepsTidy(n: Naming, w: Work, items: seq<Item>, now: Time, hint: nat)
    returns (id: Id, losers: seq<Id>)
    requires items != [] && Tidy(n, w, items) && Separate(n, items)
    ensures Chosen(n, w, items[0], id, losers)
    ensures TurnDone(n, w, Ingested(w, n, items[0], now, hint), items[0], now, id, losers)
    ensures Tidy(n, Ingested(w, n, items[0], now, hint), items[1..])
  {
    assert Awaited(n, w, items[0]);
    id, losers := TurnIsDone(n, w, items[0], now, hint);
    hide Ingested, TurnDone, Chosen, Awaited, KeysLive, Named, Separate;
    var w' := Ingested(w, n, items[0], now, hint);
    KeysStayLive(n, w, w', items[0], now, id, losers);
    forall j | 0 <= j < |items[1..]|
      ensures Awaited(n, w', items[1..][j]) && GroupOf(w', Named(n, items[1..][j])) == GroupOf(w, Named(n, items[j + 1]))
    {
      StaysAwaited(n, w, w', items, now, id, losers, j + 1);
    }
    hide GroupOf;
    forall i, j | 0 <= i < j < |items[1..]| ensures GroupsApart(w', Named(n, items[1..][i]), Named(n, items[1..][j])) {
      assert GroupsApart(w, Named(n, items[i + 1]), Named(n, items[j + 1]));
    }
  }

  lemma {:induction false} SliceSeparate(n: Naming, all: seq<Item>, k: nat)
    requires Separate(n, all) && k <= |all|
    ensures Separate(n, all[k..]) && (k < |all| ==> all[k..] != [] && all[k..][0] == all[k] && all[k..][1..] == all[k + 1..])
  {
  }

  // --- Keys and hashes ------------------------------------------------------------------------------

  /** The database's partial unique index: live rows of a season have distinct keys. */
  ghost predicate UniqueKeys(rows: map<Id, Row>) {
    forall a, b :: Live(rows, a) && Live(rows, b) && rows[a].key == rows[b].key ==> a == b
  }

  /** Every live row is found under its key. */
  ghost predicate KeysIndexed(w: Work) {
    forall x :: Live(w.season.rows, x) ==> w.season.rows[x].key in w.byKey && w.byKey[w.season.rows[x].key] == x
  }

  /** A stored hash is that of its content. */
  ghost predicate HashesTell(rows: map<Id, Row>) {
    forall x :: Live(rows, x) ==> rows[x].hashed == rows[x].content
  }

  lemma {:induction false} KeysFollow(rows: map<Id, Row>, rows': map<Id, Row>, byKey: map<string, Id>, key: string, id: Id,
                                      losers: seq<Id>)
    requires forall x :: Live(rows, x) ==> rows[x].key in byKey && byKey[rows[x].key] == x
    requires rows.Keys + {id} <= rows'.Keys
    requires forall x :: Live(rows', x) <==> x == id || (Live(rows, x) && x !in losers)
    requires forall x :: Live(rows, x) && x != id && x !in losers ==> rows'[x].key == rows[x].key
    requires rows'[id].key == key || (Live(rows, id) && key in byKey && rows'[id].key == rows[id].key)
    requires (key in byKey ==> byKey[key] == id) && id !in losers && forall l :: l in losers ==> Live(rows, l)
    ensures var byKey' := byKey[key := id] - KeysOf(rows, losers);
            forall x :: Live(rows', x) ==> rows'[x].key in byKey' && byKey'[rows'[x].key] == x
  {
    forall x | Live(rows, x) && x !in losers ensures rows[x].key !in KeysOf(rows, losers) {
      forall l | l in losers && l in rows ensures rows[l].key != rows[x].key {
        assert Live(rows, l) && byKey[rows[x].key] == x;
      }
    }
  }

  lemma {:induction false} TurnKeepsKeys(n: Naming, w: Work, w': Work, item: Item, now: Time, id: Id, losers: seq<Id>)
    requires KeysIndexed(w) && Chosen(n, w, item, id, losers) && TurnDone(n, w, w', item, now, id, losers)
    ensures KeysIndexed(w')
  {
    TurnLives(n, w, w', item, now, id, losers);
    assert id !in w.season.rows ==> w'.season.rows[id].key == item.key;
    hide TurnRows, Counted, LatestSeen, TwinsOf, GroupOf, KeysOf;
    KeysFollow(w.season.rows, w'.season.rows, w.byKey, item.key, id, losers);
  }

  lemma {:induction false} TurnKeepsHashes(n: Naming, w: Work, w': Work, item: Item, now: Time, id: Id, losers: seq<Id>)
    requires HashesTell(w.season.rows) && Chosen(n, w, item, id, losers) && TurnDone(n, w, w', item, now, id, losers)
    ensures HashesTell(w'.season.rows)
  {
    TurnLives(n, w, w', item, now, id, losers);
    hide Counted, LatestSeen, TwinsOf, GroupOf, Merged, Dumped, TurnIndexes;
  }

  lemma {:induction false} LoopKeepsKeys(n: Naming, w: Work, all: seq<Item>, k: nat, now: Time, hint: nat)
    requires k <= |all| && Tidy(n, w, all[k..]) && Separate(n, all)
    ensures KeysIndexed(w) ==> KeysIndexed(IngestAll(w, n, all[k..], now, hint))
    ensures HashesTell(w.season.rows) ==> HashesTell(IngestAll(w, n, all[k..], now, hint).season.rows)
    decreases |all| - k
  {
    SliceSeparate(n, all, k);
    hide Separate, Ingested, TurnDone, Chosen, Tidy, KeysIndexed, HashesTell;
    if k < |all| {
      var id, losers := TurnKeepsTidy(n, w, all[k..], now, hint);
      var w' := Ingested(w, n, all[k], now, hint);
      if KeysIndexed(w) { TurnKeepsKeys(n, w, w', all[k], now, id, losers); }
      if HashesTell(w.season.rows) { TurnKeepsHashes(n, w, w', all[k], now, id, losers); }
      LoopKeepsKeys(n, w', all, k + 1, now, hint);
    }
  }

  // --- Before the first turn -----------------------------------------------------------------------

  /** The schema's own rule: `season_event` is never null. */
  predicate ByTheSchema(item: Item) {
    SeasonEvent in item.sent ==> item.sent[SeasonEvent].Some?
  }

  lemma MergingIsIdempotent(c: Content, item: Item)
    requires ByTheSchema(item)
    ensures Merged(Merged(c, item), item) == Merged(c, item)
    ensures Merged(Dumped(item), item) == Dumped(item)
  {
  }

  lemma {:induction false} KeyIndexNames(rows: map<Id, Row>, ids: seq<Id>)
    requires forall i :: 0 <= i < |ids| ==> ids[i] in rows
    ensures var index := KeyIndex(rows, ids);
            && (forall k :: k in index ==> index[k] in ids && rows[index[k]].key == k)
            && (forall id :: id in ids ==> rows[id].key in index)
  {
    if ids != [] {
      var earlier := ids[..|ids| - 1];
      assert ids == earlier + [ids[|ids| - 1]];
      assert forall id :: id in ids <==> id in earlier || id == ids[|ids| - 1];
      KeyIndexNames(rows, earlier);
    }
  }

  ghost predicate GroupExact(n: Naming, rows: map<Id, Row>, ids: seq<Id>, index: map<Identity, seq<Id>>, i: Identity)
    requires forall k :: 0 <= k < |ids| ==> ids[k] in rows
  {
    var group := if i in index then index[i] else [];
    Distinct(group) && forall id :: id in group <==> id in ids && IdentityOf(n, rows[id].content) == Some(i)
  }

  lemma {:induction false} IdentityIndexNames(n: Naming, rows: map<Id, Row>, ids: seq<Id>, i: Identity)
    requires Distinct(ids) && forall k :: 0 <= k < |ids| ==> ids[k] in rows
    ensures GroupExact(n, rows, ids, IdentityIndex(n, rows, ids), i)
  {
    if ids != [] {
      var earlier, last := ids[..|ids| - 1], ids[|ids| - 1];
      IdentityIndexNames(n, rows, earlier, i);
      assert ids == earlier + [last];
      assert forall id :: id in ids <==> id in earlier || id == last;
      var index := IdentityIndex(n, rows, earlier);
      var group := if i in index then index[i] else [];
      if IdentityOf(n, rows[last].content) == Some(i) {
        assert forall id :: id in group + [last] <==> id in group || id == last;
      }
    }
  }

  lemma {:induction false} PurgeKeepsOrder(rows: map<Id, Row>, order: seq<Id>, veto: seq<string>, now: Time)
    requires ScanOrder(rows, order)
    ensures ScanOrder(Purged(rows, veto, now), LiveOnly(Purged(rows, veto, now), order))
  {
    LiveOnlyDistinct(Purged(rows, veto, now), order);
  }

  lemma {:induction false} StartsAwaited(n: Naming, s: Season, live: seq<Id>, item: Item)
    requires ScanOrder(s.rows, live) && forall i :: 0 <= i < |live| ==> live[i] in s.rows
    ensures Awaited(n, Prepared(n, s, live), item)
  {
    hide IdentityOf, IdentityIndex, KeyIndex, GroupOf, Named, Distinct;
    KeyIndexNames(s.rows, live);
    StartGroup(n, s, live, Named(n, item));
    var w := Prepared(n, s, live);
    assert forall x :: x in live <==> x in w.home;
    assert w.byKey == KeyIndex(s.rows, live) && w.season.rows == s.rows;
    assert forall k :: k in w.byKey ==> w.byKey[k] in live;
    assert forall k :: k in w.byKey ==> w.byKey[k] in w.home;
    forall x | x in GroupOf(w, Named(n, item)) ensures x in w.home && Unaliased(w, x) {
      assert Live(s.rows, x);
      assert x in live;
    }
  }

  lemma {:induction false} StartsTidy(n: Naming, s: Season, live: seq<Id>, items: seq<Item>)
    requires ScanOrder(s.rows, live) && Separate(n, items) && forall i :: 0 <= i < |live| ==> live[i] in s.rows
    ensures Tidy(n, Prepared(n, s, live), items)
    ensures UniqueKeys(s.rows) ==> KeysIndexed(Prepared(n, s, live))
  {
    hide IdentityOf, IdentityIndex, KeyIndex, Awaited;
    KeyIndexNames(s.rows, live);
    var w := Prepared(n, s, live);
    assert w.byKey == KeyIndex(s.rows, live) && w.season.rows == s.rows;
    assert forall k :: k in w.byKey ==> w.byKey[k] in live;
    assert forall x :: x in live ==> Live(s.rows, x);
    assert KeysLive(w);
    forall j | 0 <= j < |items| ensures Awaited(n, w, items[j]) { StartsAwaited(n, s, live, items[j]); }
    forall i, j | 0 <= i < j < |items| ensures GroupsApart(w, Named(n, items[i]), Named(n, items[j])) {
      StartGroup(n, s, live, Named(n, items[i]));
      StartGroup(n, s, live, Named(n, items[j]));
    }
  }

  /** Before the first turn a group holds exactly the live rows of its identity. */
  lemma {:induction false} StartGroup(n: Naming, s: Season, live: seq<Id>, identity: Option<Identity>)
    requires ScanOrder(s.rows, live) && forall i :: 0 <= i < |live| ==> live[i] in s.rows
    ensures var group := GroupOf(Prepared(n, s, live), identity);
            && Distinct(group)
            && forall x :: x in group <==> Live(s.rows, x) && identity.Some? && IdentityOf(n, s.rows[x].content) == identity
  {
    hide IdentityOf, IdentityIndex, KeyIndex;
    if identity.Some? { IdentityIndexNames(n, s.rows, live, identity.value); }
  }

  lemma {:induction false} PurgedStartsTidy(n: Naming, s: Season, order: seq<Id>, items: seq<Item>, veto: seq<string>, now: Time)
    requires ScanOrder(s.rows, order)
    ensures Tidy(n, PurgedWork(n, s, order, veto, now), Payload(n, items, veto)) && Separate(n, Payload(n, items, veto))
    ensures UniqueKeys(s.rows) ==> KeysIndexed(PurgedWork(n, s, order, veto, now))
    ensures HashesTell(s.rows) ==> HashesTell(Purged(s.rows, veto, now))
  {
    hide Vetoed, Tidy, KeysIndexed;
    PayloadIsSeparate(n, items, veto);
    PurgeKeepsOrder(s.rows, order, veto, now);
    var rows := Purged(s.rows, veto, now);
    StartsTidy(n, s.(rows := rows), LiveOnly(rows, order), Payload(n, items, veto));
  }

  /** Every push leaves the live keys distinct, so that the transaction can commit, and
      every hash that of its content. */
  lemma {:induction false} PushKeepsKeys(n: Naming, s: Season, order: seq<Id>, items: seq<Item>, veto: seq<string>,
                                         now: Time, hint: nat)
    requires ScanOrder(s.rows, order)
    ensures var rows := PutPool(n, s, order, items, veto, now, hint).0.season.rows;
            && (UniqueKeys(s.rows) ==> UniqueKeys(rows))
            && (HashesTell(s.rows) ==> HashesTell(rows))
  {
    var payload := Payload(n, items, veto);
    PurgedStartsTidy(n, s, order, items, veto, now);
    assert payload[0..] == payload;
    hide Separate, Payload, PurgedWork, Tidy, HashesTell;
    LoopKeepsKeys(n, PurgedWork(n, s, order, veto, now), payload, 0, now, hint);
  }
}
