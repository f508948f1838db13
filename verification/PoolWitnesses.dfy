/** Concrete pushes: a version that grows although nothing changed, a key that comes back
    with another page, as the skill that fills the pool asks for when one concert is listed
    by two sources, and a row that drifts to another item's page. */
module PoolWitnesses {
  import opened Wrappers
  import opened Pool
  import opened PoolPayload
  import opened PoolIngest
  import opened PoolHolds
  import opened PoolRepush

  function PageContent(url: string, day: Time): Content {
    Content(day, map[SeasonEvent := Flag(false), Lane := Text("klasika"), Title := Text("t"), Url := Text(url)])
  }

  function PageItem(key: string, url: string, day: Time): Item {
    Item(key, day, map[Lane := Some(Text("klasika")), Title := Some(Text("t")), Url := Some(Text(url))])
  }

  function PageRow(key: string, url: string, day: Time, seen: Time, version: nat): Row {
    Row(key, PageContent(url, day), PageContent(url, day), Undecided, None, None, 0, seen, version, None)
  }

  function PageSeason(key: string, seen: Time, version: nat): Season {
    Season(map[0 := PageRow(key, "u1", 0, seen, version)], map[])
  }

  // The page of "u1" is a candidate's own, that of "u2" a listing.
  function PageNaming(): Naming {
    Naming(url => if url == "u1" then Some("page") else None, time => time)
  }

  const PAGE := Identity("page", 0)

  lemma PageMerges(key: string, url: string, day: Time, was: string, wasDay: Time)
    ensures Dumped(PageItem(key, url, day)) == PageContent(url, day) == Merged(PageContent(was, wasDay), PageItem(key, url, day))
  {
    var item := PageItem(key, url, day);
    assert Merged(PageContent(was, wasDay), item).fields.Keys == PageContent(url, day).fields.Keys;
    assert Dumped(item).fields.Keys == PageContent(url, day).fields.Keys;
  }

  lemma PageNames(url: string, day: Time)
    ensures IdentityOf(PageNaming(), PageContent(url, day)) == if url == "u1" then Some(Identity("page", day)) else None
  {
    assert TextOf(PageContent(url, day), Url) == Some(url);
  }

  lemma PagesDiffer()
    ensures PageContent("u1", 0) != PageContent("u2", 0)
  {
    assert PageContent("u1", 0).fields[Url] != PageContent("u2", 0).fields[Url];
  }

  lemma {:induction false} NothingPurged(rows: map<Id, Row>, now: Time)
    ensures Purged(rows, [], now) == rows
  {
  }

  // Two items that are different candidates, the first of no page of its own.
  lemma PairPayload(n: Naming, a: Item, b: Item, i: Identity)
    requires a.key != b.key && Named(n, a) == None && Named(n, b) == Some(i)
    ensures Payload(n, [a, b], []) == [a, b]
  {
    hide Dumped, IdentityOf;
    var both := [a, b];
    assert both[1..] == [b] && [b][1..] == [];
    assert !Vetoed(Dumped(a), []) && !Vetoed(Dumped(b), []);
    assert Allowed([b], []) == [b];
    assert Allowed(both, []) == both;
    assert both[..1] == [a] && [a][..0] == [];
    assert [a][1..] == [] && ByKey([a]) == [a];
    assert Put([a], b) == [a] + Put([], b) == both;
    assert ByKey(both) == both;
    assert Winners(n, [a]) == map[];
    var winners := Winners(n, both);
    assert winners == map[i := b.key] && winners[i] == b.key;
    assert KeptOnly(n, [b], winners.Values) == [b] + KeptOnly(n, [b][1..], winners.Values);
    assert KeptOnly(n, both, winners.Values) == [a] + KeptOnly(n, [b], winners.Values);
  }

  lemma PairTurns(n: Naming, w: Work, a: Item, b: Item, now: Time, hint: nat)
    ensures IngestAll(w, n, [a, b], now, hint) == Ingested(Ingested(w, n, a, now, hint), n, b, now, hint)
  {
    hide Ingested;
    assert [a, b][1..] == [b] && [b][1..] == [];
    var w1 := Ingested(w, n, a, now, hint);
    assert IngestAll(w1, n, [b], now, hint) == IngestAll(Ingested(w1, n, b, now, hint), n, [], now, hint);
  }

  lemma PairLive(rows: map<Id, Row>)
    requires Live(rows, 0) && Live(rows, 1)
    ensures LiveOnly(rows, [0, 1]) == [0, 1]
  {
    assert LiveOnly(rows, [0, 1][1..]) == [1] by { assert LiveOnly(rows, [1][1..]) == []; }
  }

  lemma PairIndexes(n: Naming, rows: map<Id, Row>, i: Identity)
    requires rows.Keys == {0, 1} && IdentityOf(n, rows[0].content) == Some(i) == IdentityOf(n, rows[1].content)
    ensures KeyIndex(rows, [0, 1]) == map[rows[0].key := 0][rows[1].key := 1]
    ensures IdentityIndex(n, rows, [0, 1]) == map[i := [0, 1]]
  {
    hide IdentityOf;
    assert [0, 1][..1] == [0] && [0][..0] == [];
    assert KeyIndex(rows, [0]) == KeyIndex(rows, [])[rows[0].key := 0];
    assert KeyIndex(rows, [0, 1]) == KeyIndex(rows, [0])[rows[1].key := 1];
    assert IdentityIndex(n, rows, [0]) == map[i := [] + [0]];
    assert [] + [0] == [0] && [0] + [1] == [0, 1];
  }

  // --- A version that grows on its own ---------------------------------------------------------

  // Two live rows of one page and day, and an item that says what the first already holds.
  const FORKED := Season(map[0 := PageRow(KEY, "u1", 0, 0, 1), 1 := PageRow(OTHER_KEY, "u1", 0, 0, 1)], map[])
  const FORK_ITEM := PageItem(KEY, "u1", 0)

  lemma ForkContents()
    ensures Dumped(FORK_ITEM) == PageContent("u1", 0) == Merged(PageContent("u1", 0), FORK_ITEM)
    ensures Named(PageNaming(), FORK_ITEM) == Some(PAGE) == IdentityOf(PageNaming(), PageContent("u1", 0))
  {
    hide Dumped, Merged, IdentityOf, PageContent, PageItem, PageNaming;
    PageMerges(KEY, "u1", 0, "u1", 0);
    PageNames("u1", 0);
  }

  lemma ForkPayload()
    ensures Payload(PageNaming(), [FORK_ITEM], []) == [FORK_ITEM]
  {
    ForkContents();
    hide Dumped, IdentityOf, PageContent, PageNaming, Merged;
    var n, items := PageNaming(), [FORK_ITEM];
    assert Allowed(items[1..], []) == [];
    assert Allowed(items, []) == items;
    assert ByKey(items[..0]) == [];
    assert ByKey(items) == items;
    assert Winners(n, items[..0]) == map[];
    var winners := Winners(n, items);
    assert winners == map[PAGE := KEY] && winners[PAGE] == KEY;
    assert KeptOnly(n, items, winners.Values) == [FORK_ITEM] + KeptOnly(n, items[1..], winners.Values);
  }

  function ForkWork(): Work {
    Work(FORKED, map[KEY := 0, OTHER_KEY := 1], map[PAGE := [0, 1]], Counts(0, 0, 0, 0, 0), map[0 := 0, 1 := 1])
  }

  lemma ForkStart()
    ensures PurgedWork(PageNaming(), FORKED, [0, 1], [], 1) == ForkWork()
  {
    ForkContents();
    hide Dumped, Merged, IdentityOf, PageContent, PageNaming, Purged, LiveOnly, KeyIndex, IdentityIndex;
    NothingPurged(FORKED.rows, 1);
    PairLive(FORKED.rows);
    PairIndexes(PageNaming(), FORKED.rows, PAGE);
  }

  lemma ForkTurn()
    ensures var w := Ingested(ForkWork(), PageNaming(), FORK_ITEM, 1, 2);
            && w.counts == Counts(0, 0, 1, 0, 1)
            && Live(w.season.rows, 0) && w.season.rows[0].hashed == FORKED.rows[0].hashed
            && w.season.rows[0].version == FORKED.rows[0].version + 1
  {
    ForkContents();
    hide Dumped, IdentityOf, PageContent, PageNaming, Merged, LiveOnly;
    var w := ForkWork();
    PairLive(FORKED.rows);
    assert Except([0, 1], 0) == [1] by { assert Except([0, 1][1..], 0) == [1] + Except([1][1..], 0); }
    assert MergeAll(w, [1], 0, 1) == MergeOne(w, 1, 0, 1) by { assert [1][1..] == []; }
  }

  /** The content hash of a survivor is what it was, the item changes nothing, and still
      its version grows: another row was folded into it. */
  lemma MergeBumpsVersionAlone()
    ensures var (w, r) := PutPool(PageNaming(), FORKED, [0, 1], [FORK_ITEM], [], 1, 2);
            && r.counts == Counts(0, 0, 1, 0, 1)
            && Live(w.season.rows, 0) && w.season.rows[0].hashed == FORKED.rows[0].hashed
            && w.season.rows[0].version == FORKED.rows[0].version + 1
  {
    ForkPayload();
    ForkStart();
    ForkTurn();
    hide Payload, PurgedWork, Ingested, ForkWork;
    assert [FORK_ITEM][1..] == [];
    assert IngestAll(ForkWork(), PageNaming(), [FORK_ITEM], 1, 2) == Ingested(ForkWork(), PageNaming(), FORK_ITEM, 1, 2);
  }

  // --- A row that is one item's by its key and another's by its page -----------------------

  // The row's key under the other page, and the row's page under another key.
  const BY_KEY := PageItem(KEY, "u2", 0)
  const BY_NAME := PageItem(OTHER_KEY, "u1", 0)
  const BOTH := [BY_KEY, BY_NAME]

  const REUSE := Pushes(PageNaming(), PageSeason(KEY, 0, 1), [0], BOTH, 1, 1, [0], 2, 1)

  lemma PageContents()
    ensures Dumped(BY_KEY) == PageContent("u2", 0) == Merged(PageContent("u1", 0), BY_KEY)
    ensures Dumped(BY_NAME) == PageContent("u1", 0) == Merged(PageContent("u2", 0), BY_NAME) == Merged(PageContent("u1", 0), BY_NAME)
    ensures Named(PageNaming(), BY_KEY) == None && Named(PageNaming(), BY_NAME) == Some(PAGE)
    ensures IdentityOf(PageNaming(), PageContent("u1", 0)) == Some(PAGE) && PageContent("u1", 0) != PageContent("u2", 0)
  {
    hide Dumped, Merged, IdentityOf, PageContent, PageItem, PageNaming;
    PageMerges(KEY, "u2", 0, "u1", 0);
    PageMerges(OTHER_KEY, "u1", 0, "u1", 0);
    PageMerges(OTHER_KEY, "u1", 0, "u2", 0);
    PageNames("u1", 0);
    PageNames("u2", 0);
    PagesDiffer();
  }

  lemma PagePayload()
    ensures Payload(PageNaming(), BOTH, []) == BOTH
  {
    PageContents();
    hide Dumped, Payload, PageContent, PageNaming, Named;
    PairPayload(PageNaming(), BY_KEY, BY_NAME, PAGE);
  }

  function PageWork(key: string, seen: Time, version: nat): Work {
    Work(PageSeason(key, seen, version), map[key := 0], map[PAGE := [0]], Counts(0, 0, 0, 0, 0), map[0 := 0])
  }

  lemma LoneLive(rows: map<Id, Row>)
    requires Live(rows, 0)
    ensures LiveOnly(rows, [0]) == [0]
  {
    assert LiveOnly(rows, [0][1..]) == [];
  }

  lemma LoneIndexes(n: Naming, rows: map<Id, Row>)
    requires 0 in rows && IdentityOf(n, rows[0].content) == Some(PAGE)
    ensures KeyIndex(rows, [0]) == map[rows[0].key := 0] && IdentityIndex(n, rows, [0]) == map[PAGE := [0]]
  {
    hide IdentityOf;
    assert [0][..0] == [] && [] + [0] == [0];
    assert KeyIndex(rows, [0]) == KeyIndex(rows, [])[rows[0].key := 0];
    assert IdentityIndex(n, rows, [0]) == Grouped(IdentityIndex(n, rows, []), Some(PAGE), 0);
  }

  lemma PageStart(key: string, seen: Time, version: nat, now: Time)
    ensures PurgedWork(PageNaming(), PageSeason(key, seen, version), [0], [], now) == PageWork(key, seen, version)
  {
    PageContents();
    hide Dumped, Merged, IdentityOf, PageContent, PageNaming, Purged, LiveOnly, KeyIndex, IdentityIndex;
    var rows := PageSeason(key, seen, version).rows;
    NothingPurged(rows, now);
    LoneLive(rows);
    LoneIndexes(PageNaming(), rows);
  }

  // The item found by its key gives the row its own page.
  function TurnedOver(): Work {
    Work(Season(map[0 := PageRow(KEY, "u2", 0, 1, 2)], map[]), map[KEY := 0], map[PAGE := [0]], Counts(0, 1, 0, 0, 0), map[0 := 0])
  }

  lemma KeyTurn()
    ensures Ingested(PageWork(KEY, 0, 1), PageNaming(), BY_KEY, 1, 1) == TurnedOver()
  {
    PageContents();
    hide Dumped, Merged, IdentityOf, PageContent, PageNaming;
    assert TwinsOf(PageWork(KEY, 0, 1), None) == [];
  }

  // The item of the old page then finds the row where it was indexed, and takes it back.
  lemma NameTurn()
    ensures Ingested(TurnedOver(), PageNaming(), BY_NAME, 1, 1)
            == Work(PageSeason(OTHER_KEY, 1, 3), map[KEY := 0, OTHER_KEY := 0], map[PAGE := [0]], Counts(0, 2, 0, 1, 0), map[0 := 0])
  {
    PageContents();
    hide Dumped, Merged, IdentityOf, PageContent, PageNaming;
    LoneTwin(TurnedOver());
  }

  lemma LoneTwin(w: Work)
    requires Live(w.season.rows, 0) && w.byIdentity == map[PAGE := [0]]
    ensures TwinsOf(w, Some(PAGE)) == [0] && LatestSeen(w.season.rows, [0]) == 0 && Except([0], 0) == []
  {
    LoneLive(w.season.rows);
    assert [0][1..] == [];
  }

  lemma SecondTurns()
    ensures var n, w := PageNaming(), PageWork(OTHER_KEY, 1, 3);
            Ingested(Ingested(w, n, BY_KEY, 2, 1), n, BY_NAME, 2, 1).counts == Counts(1, 0, 1, 0, 0)
  {
    PageContents();
    hide Dumped, Merged, IdentityOf, PageContent, PageNaming;
    var n, w := PageNaming(), PageWork(OTHER_KEY, 1, 3);
    assert TwinsOf(w, None) == [];
    var w1 := Ingested(w, n, BY_KEY, 2, 1);
    assert w1 == Created(w, n, BY_KEY, 2, 1);
    LoneTwin(w1);
  }

  lemma ReuseFirst()
    ensures var (w, r) := PutPool(PageNaming(), PageSeason(KEY, 0, 1), [0], BOTH, [], 1, 1);
            w.season == PageSeason(OTHER_KEY, 1, 3) && r.counts == Counts(0, 2, 0, 1, 0)
  {
    PagePayload();
    PageStart(KEY, 0, 1, 1);
    hide IngestAll, Ingested, PurgedWork, Payload, PageContent, PageNaming, PageItem, PageWork;
    PairTurns(PageNaming(), PageWork(KEY, 0, 1), BY_KEY, BY_NAME, 1, 1);
    KeyTurn();
    NameTurn();
  }

  lemma ReuseSecond()
    ensures PutPool(PageNaming(), PageSeason(OTHER_KEY, 1, 3), [0], BOTH, [], 2, 1).1.counts == Counts(1, 0, 1, 0, 0)
  {
    PagePayload();
    PageStart(OTHER_KEY, 1, 3, 2);
    hide IngestAll, Ingested, PurgedWork, Payload, PageContent, PageNaming, PageItem, PageWork;
    PairTurns(PageNaming(), PageWork(OTHER_KEY, 1, 3), BY_KEY, BY_NAME, 2, 1);
    SecondTurns();
  }

  lemma ReuseIsProper()
    ensures Proper(PageNaming(), PageSeason(KEY, 0, 1), [0], BOTH)
    ensures ScanOrder(PageSeason(OTHER_KEY, 1, 3).rows, [0])
  {
  }

  lemma ReuseShares()
    ensures var c := CaseOf(PageNaming(), PageSeason(KEY, 0, 1), [0], BOTH, [], 1);
            (forall i :: 0 <= i < |c.live| ==> c.live[i] in c.rows) && !c.Harmless()
  {
    PagePayload();
    NothingPurged(PageSeason(KEY, 0, 1).rows, 1);
    hide Purged, Payload, Case.HasKey, Case.HasName, Case.Adopts, PageSeason, PageNaming;
    var c := CaseOf(PageNaming(), PageSeason(KEY, 0, 1), [0], BOTH, [], 1);
    SharedByBoth(c);
    assert c.Shared(0, 0, 1);
  }

  lemma SharedByBoth(c: Case)
    requires c.n == PageNaming() && c.items == BOTH && c.rows == PageSeason(KEY, 0, 1).rows
    ensures c.HasKey(0, 0) && c.HasName(0, 1)
  {
    PageContents();
    hide Dumped, Merged, IdentityOf, PageContent, PageNaming;
  }

  /** The first push writes both items to the one row, the later over the earlier: the row
      is back at its content two versions on, nothing was folded into it, and no row has
      the other item's key. The same payload again then creates a row. */
  lemma ReusedKeyUndoesThePush()
    ensures REUSE.s == PageSeason(KEY, 0, 1) && REUSE.First([]) == PageSeason(OTHER_KEY, 1, 3)
    ensures KeyLost(REUSE.First([]).rows, BY_KEY.key)
    ensures REUSE.Proper([]) && !CaseOf(REUSE.n, REUSE.s, REUSE.order, BOTH, [], REUSE.now).Harmless()
    ensures PutPool(REUSE.n, REUSE.s, REUSE.order, BOTH, [], REUSE.now, REUSE.hint).1.counts == Counts(0, 2, 0, 1, 0)
    ensures REUSE.Second([]).1.counts == Counts(1, 0, 1, 0, 0)
  {
    hide PutPool, PageContent, PageNaming, CaseOf, Case.Harmless, ScanOrder;
    ReuseFirst();
    ReuseSecond();
    ReuseIsProper();
    ReuseShares();
  }

  // --- A row that drifts to another item's page ---------------------------------------------

  // The row's key without a page on another day, and the row's page on that day.
  const UNPAGED := Item(KEY, 1, map[Lane := Some(Text("klasika")), Title := Some(Text("t"))])
  const MOVED := PageItem(OTHER_KEY, "u1", 1)
  const PAIR := [UNPAGED, MOVED]
  const PAGE_MOVED := Identity("page", 1)

  const DRIFT := Pushes(PageNaming(), PageSeason(KEY, 0, 1), [0], PAIR, 1, 1, [0, 1], 2, 2)

  lemma DriftContents()
    ensures Merged(PageContent("u1", 0), UNPAGED) == PageContent("u1", 1) == Merged(PageContent("u1", 1), UNPAGED)
    ensures Dumped(MOVED) == PageContent("u1", 1) == Merged(PageContent("u1", 1), MOVED)
    ensures Named(PageNaming(), UNPAGED) == None && Named(PageNaming(), MOVED) == Some(PAGE_MOVED)
    ensures IdentityOf(PageNaming(), PageContent("u1", 0)) == Some(PAGE) && PageContent("u1", 0) != PageContent("u1", 1)
    ensures IdentityOf(PageNaming(), PageContent("u1", 1)) == Some(PAGE_MOVED)
  {
    UnpagedMerges(0);
    UnpagedMerges(1);
    assert TextOf(Dumped(UNPAGED), Url) == None;
    hide Dumped, Merged, IdentityOf, PageItem, PageNaming;
    PageMerges(OTHER_KEY, "u1", 1, "u1", 1);
    PageNames("u1", 0);
    PageNames("u1", 1);
  }

  lemma UnpagedMerges(day: Time)
    ensures Merged(PageContent("u1", day), UNPAGED) == PageContent("u1", 1)
  {
    assert Merged(PageContent("u1", day), UNPAGED).fields.Keys == PageContent("u1", 1).fields.Keys;
  }

  function Drifted(rows: map<Id, Row>, byIdentity: map<Identity, seq<Id>>, counts: Counts, home: map<Id, Id>): Work {
    Work(Season(rows, map[]), map[KEY := 0, OTHER_KEY := 1], byIdentity, counts, home)
  }

  function DriftedRows(seen: Time): map<Id, Row> {
    map[0 := PageRow(KEY, "u1", 1, seen, 2),
        1 := Row(OTHER_KEY, PageContent("u1", 1), PageContent("u1", 1), Undecided, None, None, 1, seen, 1, None)]
  }

  function FirstMiddle(): Work {
    Work(Season(map[0 := PageRow(KEY, "u1", 1, 1, 2)], map[]), map[KEY := 0], map[PAGE := [0]], Counts(0, 1, 0, 0, 0), map[0 := 0])
  }

  lemma DriftDrifts()
    ensures Ingested(PageWork(KEY, 0, 1), PageNaming(), UNPAGED, 1, 1) == FirstMiddle()
  {
    DriftContents();
    hide Dumped, Merged, IdentityOf, PageContent, PageNaming;
    assert TwinsOf(PageWork(KEY, 0, 1), None) == [];
  }

  lemma DriftCreates()
    ensures Ingested(FirstMiddle(), PageNaming(), MOVED, 1, 1)
            == Drifted(DriftedRows(1), map[PAGE := [0], PAGE_MOVED := [1]], Counts(1, 1, 0, 0, 0), map[0 := 0])
  {
    DriftContents();
    hide Dumped, Merged, IdentityOf, PageContent, PageNaming;
    assert TwinsOf(FirstMiddle(), Some(PAGE_MOVED)) == [];
    assert [] + [1] == [1];
  }

  lemma DriftStart()
    ensures PurgedWork(PageNaming(), Season(DriftedRows(1), map[]), [0, 1], [], 2)
            == SecondStart()
  {
    DriftContents();
    var n, rows := PageNaming(), DriftedRows(1);
    hide Dumped, Merged, IdentityOf, PageContent, PageNaming, Purged, LiveOnly, KeyIndex, IdentityIndex;
    NothingPurged(rows, 2);
    PairLive(rows);
    PairIndexes(n, rows, PAGE_MOVED);
  }

  function SecondStart(): Work {
    Drifted(DriftedRows(1), map[PAGE_MOVED := [0, 1]], Counts(0, 0, 0, 0, 0), map[0 := 0, 1 := 1])
  }

  function SecondMiddle(): Work {
    Drifted(map[0 := PageRow(KEY, "u1", 1, 2, 2), 1 := DriftedRows(1)[1]], map[PAGE_MOVED := [0, 1]], Counts(0, 0, 1, 0, 0),
            map[0 := 0, 1 := 1])
  }

  lemma DriftKeeps()
    ensures Ingested(SecondStart(), PageNaming(), UNPAGED, 2, 2) == SecondMiddle()
  {
    DriftContents();
    hide Dumped, Merged, IdentityOf, PageContent, PageNaming;
    assert TwinsOf(SecondStart(), None) == [];
  }

  lemma DriftMerges()
    ensures var w := Ingested(SecondMiddle(), PageNaming(), MOVED, 2, 2);
            w.counts == Counts(0, 0, 2, 0, 1) && LiveIds(w.season.rows) == {1}
  {
    DriftContents();
    hide Dumped, Merged, IdentityOf, PageContent, PageNaming, LiveOnly, MergeOne;
    var w := SecondMiddle();
    PairLive(w.season.rows);
    assert Except([0, 1], 1) == [0] by { assert Except([0, 1][1..], 1) == []; }
    assert MergeAll(w, [0], 1, 2) == MergeOne(w, 0, 1, 2) by { assert [0][1..] == []; }
    LoneSurvivor(w, MergeOne(w, 0, 1, 2));
  }

  lemma LoneSurvivor(w: Work, w1: Work)
    requires w.season.rows.Keys == {0, 1} && Live(w.season.rows, 1) && w1 == MergeOne(w, 0, 1, 2)
    ensures w1.season.rows.Keys == {0, 1} && Live(w1.season.rows, 1) && !Live(w1.season.rows, 0)
    ensures SameCandidate(w1.season.rows[1], w.season.rows[1]) && w1.counts == w.counts.(merged := w.counts.merged + 1)
  {
  }

  /** No row is shared and both items are held after the first push; but the row the first
      item came to now has the second item's page and day, and the second push folds it
      into the second item's row. */
  lemma DriftUndoesThePush()
    ensures DRIFT.s == PageSeason(KEY, 0, 1) && DRIFT.First([]).rows == DriftedRows(1)
    ensures DRIFT.Proper([]) && CaseOf(DRIFT.n, DRIFT.s, DRIFT.order, PAIR, [], DRIFT.now).Harmless()
    ensures DRIFT.Second([]).1.counts == Counts(0, 0, 2, 0, 1) && LiveIds(DRIFT.Second([]).0.season.rows) == {1}
  {
    DriftFirst();
    DriftSecond();
    DriftIsProper();
    DriftShares();
    hide PutPool, PageContent, PageNaming, CaseOf, Case.Harmless, ScanOrder;
  }

  lemma DriftPayload()
    ensures Payload(PageNaming(), PAIR, []) == PAIR
  {
    DriftContents();
    hide Dumped, Payload, PageContent, PageNaming, Named;
    PairPayload(PageNaming(), UNPAGED, MOVED, PAGE_MOVED);
  }

  lemma DriftFirst()
    ensures PutPool(PageNaming(), PageSeason(KEY, 0, 1), [0], PAIR, [], 1, 1).0.season == Season(DriftedRows(1), map[])
  {
    DriftPayload();
    PageStart(KEY, 0, 1, 1);
    hide IngestAll, Ingested, PurgedWork, Payload, PageContent, PageNaming, PageItem, PageWork, DriftedRows;
    PairTurns(PageNaming(), PageWork(KEY, 0, 1), UNPAGED, MOVED, 1, 1);
    DriftDrifts();
    DriftCreates();
  }

  lemma DriftSecond()
    ensures var (w, r) := PutPool(PageNaming(), Season(DriftedRows(1), map[]), [0, 1], PAIR, [], 2, 2);
            r.counts == Counts(0, 0, 2, 0, 1) && LiveIds(w.season.rows) == {1}
  {
    DriftPayload();
    DriftStart();
    hide IngestAll, Ingested, PurgedWork, Payload, PageContent, PageNaming, PageItem, DriftedRows;
    PairTurns(PageNaming(), SecondStart(), UNPAGED, MOVED, 2, 2);
    DriftKeeps();
    DriftMerges();
  }

  lemma DriftIsProper()
    ensures Proper(PageNaming(), PageSeason(KEY, 0, 1), [0], PAIR) && ScanOrder(DriftedRows(1), [0, 1])
  {
  }

  lemma DriftShares()
    ensures var c := CaseOf(PageNaming(), PageSeason(KEY, 0, 1), [0], PAIR, [], 1);
            (forall i :: 0 <= i < |c.live| ==> c.live[i] in c.rows) && c.Harmless()
  {
    DriftPayload();
    var rows := PageSeason(KEY, 0, 1).rows;
    NothingPurged(rows, 1);
    hide Dumped, Merged, IdentityOf, PageContent, PageNaming, Purged, Payload, Case.Adopts, Case.HasKey, Case.HasName;
    var c := CaseOf(PageNaming(), PageSeason(KEY, 0, 1), [0], PAIR, [], 1);
    NoneOfThatPage(c);
  }

  lemma NoneOfThatPage(c: Case)
    requires c.n == PageNaming() && c.items == PAIR && c.rows == PageSeason(KEY, 0, 1).rows
    ensures forall x, b :: !c.HasName(x, b)
  {
    DriftContents();
    hide Dumped, Merged, IdentityOf, PageContent, PageNaming;
  }
}
