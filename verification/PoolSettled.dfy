/** When a push changes nothing but dates of last sighting, exactly: when every item of its
    payload is settled in the pool. And when a push settles its own payload. */
module PoolSettled {
  import opened Wrappers
  import opened Pool
  import opened PoolPayload
  import opened PoolIngest
  import opened PoolMarks
  import opened PoolHolds

  // --- A settled item -----------------------------------------------------------------------

  /** The row is the item's by its key, the item says nothing new, and no other row is its
      candidate by key or by identity. */
  ghost predicate SettledBy(n: Naming, rows: map<Id, Row>, item: Item, id: Id) {
    && Live(rows, id) && rows[id].key == item.key && SaysNothingNew(rows[id], item)
    && forall x :: Live(rows, x) && x != id ==>
         rows[x].key != item.key && (Named(n, item).Some? ==> IdentityOf(n, rows[x].content) != Named(n, item))
  }

  ghost predicate Settled(n: Naming, rows: map<Id, Row>, item: Item) {
    exists id :: SettledBy(n, rows, item, id)
  }

  ghost predicate AllSettled(n: Naming, rows: map<Id, Row>, items: seq<Item>) {
    forall j :: 0 <= j < |items| ==> Settled(n, rows, items[j])
  }

  /** Only dates of last sighting differ. */
  ghost predicate OnlySeen(rows: map<Id, Row>, rows': map<Id, Row>) {
    rows'.Keys == rows.Keys && forall id :: id in rows ==> rows'[id] == rows[id].(lastSeen := rows'[id].lastSeen)
  }

  /** A loop that has only seen rows so far. */
  ghost predicate OnlySaw(w0: Work, w: Work) {
    && w.byKey == w0.byKey && w.byIdentity == w0.byIdentity && w.home == w0.home
    && OnlySeen(w0.season.rows, w.season.rows) && w.season.scenarios == w0.season.scenarios
    && w.counts == w0.counts.(kept := w.counts.kept)
  }

  lemma {:induction false} SettledThroughSeeing(n: Naming, rows: map<Id, Row>, rows': map<Id, Row>, item: Item, id: Id)
    requires OnlySeen(rows, rows')
    ensures SettledBy(n, rows', item, id) <==> SettledBy(n, rows, item, id)
  {
    hide IdentityOf, Merged, Named;
    assert forall x :: Live(rows', x) <==> Live(rows, x);
  }

  /** The indexes before the first turn name what they should. */
  ghost predicate IndexesTell(n: Naming, w: Work, item: Item) {
    && KeysIndexed(w)
    && (item.key in w.byKey ==> Live(w.season.rows, w.byKey[item.key]) && w.season.rows[w.byKey[item.key]].key == item.key)
    && forall x :: x in GroupOf(w, Named(n, item)) <==>
         Live(w.season.rows, x) && Named(n, item).Some? && IdentityOf(n, w.season.rows[x].content) == Named(n, item)
  }

  lemma {:induction false} IndexesTellOn(n: Naming, w0: Work, w: Work, item: Item)
    requires IndexesTell(n, w0, item) && OnlySaw(w0, w)
    ensures IndexesTell(n, w, item)
  {
    assert forall x :: Live(w.season.rows, x) <==> Live(w0.season.rows, x);
    hide IdentityOf, Named;
  }

  lemma {:induction false} NoneInside(ids: seq<Id>)
    ensures ids != [] ==> exists x :: x in ids
  {
    if ids != [] { assert ids[0] in ids; }
  }

  /** One turn only sees exactly where the item is settled. */
  lemma {:induction false} TurnOnlySees(n: Naming, w: Work, w': Work, item: Item, now: Time, id: Id, losers: seq<Id>)
    requires IndexesTell(n, w, item) && Chosen(n, w, item, id, losers) && TurnDone(n, w, w', item, now, id, losers)
    ensures SettledBy(n, w.season.rows, item, id) <==>
              id in w.season.rows && item.key in w.byKey && losers == [] && SaysNothingNew(w.season.rows[id], item)
    ensures Settled(n, w.season.rows, item) ==> SettledBy(n, w.season.rows, item, id)
  {
    ChosenBasics(n, w, item, id, losers);
    hide TurnDone, Chosen, Merged, IdentityOf, Named, SaysNothingNew, GroupOf;
    if id in w.season.rows && item.key in w.byKey && losers == [] {
      assert forall x :: Live(w.season.rows, x) && w.season.rows[x].key == item.key ==> x == id;
    }
    if Settled(n, w.season.rows, item) {
      var y :| SettledBy(n, w.season.rows, item, y);
      assert w.byKey[item.key] == y;
      NoneInside(losers);
    }
  }

  lemma {:induction false} SettledTurnSaw(n: Naming, w: Work, w': Work, item: Item, now: Time, id: Id, losers: seq<Id>)
    requires id in w.season.rows && item.key in w.byKey && losers == [] && SaysNothingNew(w.season.rows[id], item)
    requires Chosen(n, w, item, id, losers) && TurnDone(n, w, w', item, now, id, losers)
    ensures OnlySaw(w, w') && w'.counts.kept == w.counts.kept + 1
  {
    ChosenBasics(n, w, item, id, losers);
    assert w.byKey[item.key := id] == w.byKey && KeysOf(w.season.rows, losers) == {};
    assert w.byKey - {} == w.byKey;
    assert Rehoused(w.home, losers, id) == w.home;
    hide Chosen, Merged;
  }

  // --- The loop ------------------------------------------------------------------------------

  lemma {:induction false} OnlySawTwice(w0: Work, w1: Work, w2: Work)
    requires OnlySaw(w0, w1) && OnlySaw(w1, w2)
    ensures OnlySaw(w0, w2)
  {
  }

  lemma {:induction false} SettledThen(n: Naming, w0: Work, w: Work, item: Item)
    requires OnlySaw(w0, w)
    ensures Settled(n, w.season.rows, item) <==> Settled(n, w0.season.rows, item)
  {
    forall id ensures SettledBy(n, w.season.rows, item, id) <==> SettledBy(n, w0.season.rows, item, id) {
      SettledThroughSeeing(n, w0.season.rows, w.season.rows, item, id);
    }
  }

  lemma {:induction false} SettledLoop(n: Naming, w0: Work, w: Work, all: seq<Item>, k: nat, now: Time, hint: nat)
    requires k <= |all| && Tidy(n, w, all[k..]) && Separate(n, all) && OnlySaw(w0, w)
    requires forall j :: 0 <= j < |all| ==> IndexesTell(n, w0, all[j])
    requires AllSettled(n, w0.season.rows, all)
    ensures var w' := IngestAll(w, n, all[k..], now, hint);
            OnlySaw(w0, w') && w'.counts.kept == w.counts.kept + |all| - k
    decreases |all| - k
  {
    SliceSeparate(n, all, k);
    hide Separate, Ingested, TurnDone, Chosen, Tidy, IndexesTell, OnlySaw, SettledBy, SaysNothingNew, Settled;
    if k < |all| {
      var id, losers := TurnKeepsTidy(n, w, all[k..], now, hint);
      var w' := Ingested(w, n, all[k], now, hint);
      assert IndexesTell(n, w0, all[k]) && Settled(n, w0.season.rows, all[k]);
      IndexesTellOn(n, w0, w, all[k]);
      SettledThen(n, w0, w, all[k]);
      TurnOnlySees(n, w, w', all[k], now, id, losers);
      SettledTurnSaw(n, w, w', all[k], now, id, losers);
      OnlySawTwice(w0, w, w');
      SettledLoop(n, w0, w', all, k + 1, now, hint);
    }
  }

  predicate CountsGrew(a: Counts, b: Counts) {
    a.created <= b.created && a.updated <= b.updated && a.kept <= b.kept && a.rekeyed <= b.rekeyed && a.merged <= b.merged
  }

  lemma {:induction false} LoopCountsGrow(n: Naming, w: Work, all: seq<Item>, k: nat, now: Time, hint: nat)
    requires k <= |all| && Tidy(n, w, all[k..]) && Separate(n, all)
    ensures CountsGrew(w.counts, IngestAll(w, n, all[k..], now, hint).counts)
    decreases |all| - k
  {
    SliceSeparate(n, all, k);
    hide Separate, Ingested, Chosen, Tidy, TurnRows, TurnIndexes, SaysNothingNew;
    if k < |all| {
      var id, losers := TurnKeepsTidy(n, w, all[k..], now, hint);
      LoopCountsGrow(n, Ingested(w, n, all[k], now, hint), all, k + 1, now, hint);
    }
  }

  // A turn whose counters only say "unchanged" only saw its row.
  lemma {:induction false} KeptTurn(w: Work, w': Work, item: Item, id: Id, losers: seq<Id>)
    requires Counted(w, w', item, id, losers) && w'.counts.created == w.counts.created && w'.counts.updated == w.counts.updated
    requires w'.counts.rekeyed == w.counts.rekeyed && w'.counts.merged == w.counts.merged
    ensures id in w.season.rows && item.key in w.byKey && losers == [] && SaysNothingNew(w.season.rows[id], item)
  {
  }

  lemma {:induction false} SeeingLoop(n: Naming, w0: Work, w: Work, all: seq<Item>, k: nat, now: Time, hint: nat)
    requires k <= |all| && Tidy(n, w, all[k..]) && Separate(n, all) && OnlySaw(w0, w)
    requires forall j :: 0 <= j < |all| ==> IndexesTell(n, w0, all[j])
    requires var counts := IngestAll(w, n, all[k..], now, hint).counts; counts == w.counts.(kept := counts.kept)
    ensures forall j :: k <= j < |all| ==> Settled(n, w0.season.rows, all[j])
    decreases |all| - k
  {
    SliceSeparate(n, all, k);
    hide Separate, Ingested, Chosen, Tidy, TurnRows, TurnIndexes, IndexesTell, OnlySaw, SettledBy, SaysNothingNew, Counted;
    if k < |all| {
      var id, losers := TurnKeepsTidy(n, w, all[k..], now, hint);
      var w' := Ingested(w, n, all[k], now, hint);
      LoopCountsGrow(n, w', all, k + 1, now, hint);
      CountedGrew(w, w', all[k], id, losers);
      KeptTurn(w, w', all[k], id, losers);
      hide TurnDone;
      IndexesTellOn(n, w0, w, all[k]);
      TurnOnlySees(n, w, w', all[k], now, id, losers);
      SettledThen(n, w0, w, all[k]);
      SettledTurnSaw(n, w, w', all[k], now, id, losers);
      OnlySawTwice(w0, w, w');
      assert w'.counts == w.counts.(kept := w'.counts.kept) by { SawCounts(w, w'); }
      SeeingLoop(n, w0, w', all, k + 1, now, hint);
    }
  }

  lemma {:induction false} CountedGrew(w: Work, w': Work, item: Item, id: Id, losers: seq<Id>)
    requires Counted(w, w', item, id, losers)
    ensures CountsGrew(w.counts, w'.counts)
  {
  }

  lemma SawCounts(w: Work, w': Work)
    requires OnlySaw(w, w')
    ensures w'.counts == w.counts.(kept := w'.counts.kept)
  {
  }

  // --- A whole push -----------------------------------------------------------------------------

  lemma {:induction false} StartsTelling(n: Naming, s: Season, live: seq<Id>, item: Item)
    requires ScanOrder(s.rows, live) && UniqueKeys(s.rows) && forall i :: 0 <= i < |live| ==> live[i] in s.rows
    ensures IndexesTell(n, Prepared(n, s, live), item) && OnlySaw(Prepared(n, s, live), Prepared(n, s, live))
  {
    StartsTidy(n, s, live, []);
    StartGroup(n, s, live, Named(n, item));
    KeyIndexNames(s.rows, live);
    var w := Prepared(n, s, live);
    assert w.byKey == KeyIndex(s.rows, live) && w.season.rows == s.rows;
    hide IdentityOf, IdentityIndex, KeyIndex, GroupOf, Named, Tidy, KeysIndexed;
    assert forall k :: k in w.byKey ==> w.byKey[k] in live;
  }

  /** A request that creates, updates, rekeys, merges and purges nothing; rows and scenarios
      are what they were but for `last_seen_at`. */
  ghost predicate NothingButSeen(s: Season, s': Season, r: PutResult) {
    && r.counts == Counts(0, 0, r.counts.kept, 0, 0) && r.counts.kept == r.total && r.purged == 0
    && OnlySeen(s.rows, s'.rows) && s'.scenarios == s.scenarios
  }

  /** Where the veto has nothing to purge, a push only sees rows exactly when its payload is
      settled. */
  lemma {:induction false} PushOnlySeesExactly(n: Naming, s: Season, order: seq<Id>, items: seq<Item>, veto: seq<string>,
                                               now: Time, hint: nat)
    requires ScanOrder(s.rows, order) && UniqueKeys(s.rows) && Purged(s.rows, veto, now) == s.rows
    ensures var (w, r) := PutPool(n, s, order, items, veto, now, hint);
            NothingButSeen(s, w.season, r) <==> AllSettled(n, s.rows, Payload(n, items, veto))
  {
    var payload, w0 := Payload(n, items, veto), PurgedWork(n, s, order, veto, now);
    PurgedStartsTidy(n, s, order, items, veto, now);
    PurgeKeepsOrder(s.rows, order, veto, now);
    forall j | 0 <= j < |payload| ensures IndexesTell(n, w0, payload[j]) {
      StartsTelling(n, s, LiveOnly(s.rows, order), payload[j]);
    }
    assert payload[0..] == payload;
    assert w0.season == s && w0.counts == Counts(0, 0, 0, 0, 0);
    assert OnlySaw(w0, w0);
    hide Payload, Separate, Tidy, IndexesTell, AllSettled, Purged, KeyIndex, IdentityIndex, OnlySeen;
    if AllSettled(n, s.rows, payload) {
      SettledLoop(n, w0, w0, payload, 0, now, hint);
    }
    if NothingButSeen(s, PutPool(n, s, order, items, veto, now, hint).0.season, PutPool(n, s, order, items, veto, now, hint).1) {
      SeeingLoop(n, w0, w0, payload, 0, now, hint);
      assert AllSettled(n, s.rows, payload);
    }
  }

  // --- What a push settles ----------------------------------------------------------------------

  /** An item without a page keeps the row's: on the item's day the row becomes another
      item's candidate. */
  ghost predicate Drifts(c: Case, x: Id, a: nat, e: nat) {
    && a != e && e < |c.items| && c.Owns(x, a) && c.Name(e).Some?
    && IdentityOf(c.n, Updated(c.rows[x], c.items[a], 0).content) == c.Name(e)
  }

  /** No shared row is taken from one item by another, and no row drifts to another item. */
  ghost predicate Steady(c: Case)
    requires forall i :: 0 <= i < |c.live| ==> c.live[i] in c.rows
  {
    c.Harmless() && forall x, a, e :: !Drifts(c, x, a, e)
  }

  /** A payload of one item has no row to fight over. */
  lemma LoneItemIsSteady(c: Case)
    requires |c.items| <= 1 && forall i :: 0 <= i < |c.live| ==> c.live[i] in c.rows
    ensures Steady(c)
  {
    hide Case.Owns, Case.Adopts, IdentityOf, Dumped;
    forall x, a: nat, e: nat ensures !Drifts(c, x, a, e) {
      if c.Owns(x, a) { OwnersHaveKeys(c, x, a); }
    }
  }

  lemma OwnersHaveKeys(c: Case, x: Id, a: nat)
    requires c.Owns(x, a)
    ensures c.HasKey(x, a)
  {
  }

  /** A row and an item of one identity: what they are merged into has it too. */
  lemma MergedKeepsName(n: Naming, content: Content, item: Item)
    requires IdentityOf(n, content) == Named(n, item)
    ensures IdentityOf(n, Merged(content, item)) == Named(n, item)
  {
  }

  /** Where the recipe of the keys is followed, stored and sent, every push is steady. */
  lemma CoherentIsSteady(c: Case, f: string -> Option<Identity>)
    requires c.Valid() && Coherent(c, f)
    ensures Steady(c)
  {
    forall x, a, b ensures !c.Shared(x, a, b) { CoherentSharesNone(c, f, x, a, b); }
    hide Case.HasName, Case.Adopts, IdentityOf, Merged, Case.Owns, Case.Shared;
    forall x, a: nat, e: nat ensures !Drifts(c, x, a, e) {
      if c.Owns(x, a) && a != e && e < |c.items| {
        OwnersHaveKeys(c, x, a);
        ItemsDiffer(c, e, a);
        MergedKeepsName(c.n, c.rows[x].content, c.items[a]);
      }
    }
  }

  // The identity of the row that holds an item.
  lemma HolderIsNamed(c: Case, w: Work, j: nat, x: Id, now: Time, e: nat)
    requires c.Valid() && HeldAs(c, w, j, x, now) && e < |c.items| && e != j && c.Name(e).Some?
    ensures IdentityOf(c.n, w.season.rows[x].content) == c.Name(e) <==> Drifts(c, x, j, e)
  {
    ItemsDiffer(c, e, j);
    if x in c.rows {
      assert w.season.rows[x].content == Updated(c.rows[x], c.items[j], 0).content;
      if c.HasName(x, j) { MergedName(c.n, c.rows[x].content, c.items[j]); }
    }
    hide Merged, Dumped;
  }

  lemma MergedName(n: Naming, content: Content, item: Item)
    requires Named(n, item).Some?
    ensures IdentityOf(n, Merged(content, item)) == Named(n, item)
  {
  }

  lemma {:induction false} AloneIsNamed(c: Case, w: Work, x: Id, e: nat)
    requires LeftAlone(c, w, x, |c.items|) && e < |c.items| && Live(w.season.rows, x) && c.Name(e).Some?
    ensures IdentityOf(c.n, w.season.rows[x].content) != c.Name(e)
  {
    assert !c.HasName(x, e);
  }

  lemma {:induction false} SettledWithoutDrift(c: Case, w: Work, now: Time, e: nat)
    requires c.Valid() && Accounted(c, w, |c.items|, now) && KeysIndexed(w) && e < |c.items|
    requires forall j :: 0 <= j < |c.items| ==> ByTheSchema(c.items[j])
    requires forall x, a :: !Drifts(c, x, a, e)
    ensures Settled(c.n, w.season.rows, c.items[e])
  {
    assert SomeHolds(c, w, e, now);
    var x :| HeldAs(c, w, e, x, now);
    HeldAsIsHeld(c, w, e, x, now);
    var rows := w.season.rows;
    hide HeldAs, LeftAlone, ByTheSchema, SaysNothingNew, IdentityOf;
    forall y | Live(rows, y) && y != x
      ensures rows[y].key != c.items[e].key && (c.Name(e).Some? ==> IdentityOf(c.n, rows[y].content) != c.Name(e))
    {
      assert w.byKey[rows[x].key] == x && w.byKey[rows[y].key] == y;
      if c.Name(e).Some? {
        if LeftAlone(c, w, y, |c.items|) {
          AloneIsNamed(c, w, y, e);
        } else {
          assert HoldsSome(c, w, y, |c.items|, now);
          var j: nat :| j < |c.items| && HeldAs(c, w, j, y, now);
          HeldAsIsHeld(c, w, j, y, now);
          HolderIsNamed(c, w, j, y, now, e);
        }
      }
    }
    assert SettledBy(c.n, rows, c.items[e], x);
  }

  // The row of an item by its key holds it to the end.
  lemma {:induction false} OwnersHold(c: Case, w: Work, now: Time, x: Id, a: nat)
    requires c.Valid() && Accounted(c, w, |c.items|, now) && c.Owns(x, a)
    ensures HeldAs(c, w, a, x, now)
  {
    assert SomeHolds(c, w, a, now);
    var y :| HeldAs(c, w, a, y, now);
    assert c.Owns(x, a) ==> x == y;
  }

  lemma {:induction false} DriftUnsettles(c: Case, w: Work, now: Time, x: Id, a: nat, e: nat)
    requires c.Valid() && Accounted(c, w, |c.items|, now) && Drifts(c, x, a, e)
    requires forall j :: 0 <= j < |c.items| ==> ByTheSchema(c.items[j])
    ensures !Settled(c.n, w.season.rows, c.items[e])
  {
    OwnersHold(c, w, now, x, a);
    HolderIsNamed(c, w, a, x, now, e);
    HeldAsIsHeld(c, w, a, x, now);
    ItemsDiffer(c, a, e);
    hide HeldAs, Accounted, Drifts, IdentityOf, SaysNothingNew;
  }

  lemma {:induction false} SettlesButForDrift(c: Case, w: Work, now: Time)
    requires c.Valid() && Accounted(c, w, |c.items|, now) && KeysIndexed(w)
    requires forall j :: 0 <= j < |c.items| ==> ByTheSchema(c.items[j])
    ensures AllSettled(c.n, w.season.rows, c.items) <==> forall x, a, e :: !Drifts(c, x, a, e)
  {
    hide Accounted, Drifts, ByTheSchema, KeysIndexed, Settled, Case.Valid;
    if forall x, a, e :: !Drifts(c, x, a, e) {
      forall e | 0 <= e < |c.items| ensures Settled(c.n, w.season.rows, c.items[e]) { SettledWithoutDrift(c, w, now, e); }
    } else {
      var x, a, e :| Drifts(c, x, a, e);
      DriftIsOfItems(c, x, a, e);
      DriftUnsettles(c, w, now, x, a, e);
    }
  }

  lemma DriftIsOfItems(c: Case, x: Id, a: nat, e: nat)
    requires Drifts(c, x, a, e)
    ensures e < |c.items|
  {
  }

  /** A push settles its payload exactly when it is steady: a condition on the stored rows
      and the payload, before anything is written. */
  lemma {:induction false} PushSettlesExactly(n: Naming, s: Season, order: seq<Id>, items: seq<Item>, veto: seq<string>, now: Time,
                                              hint: nat)
    requires Proper(n, s, order, items)
    ensures AllSettled(n, PutPool(n, s, order, items, veto, now, hint).0.season.rows, Payload(n, items, veto))
            <==> Steady(CaseOf(n, s, order, items, veto, now))
  {
    CaseIsValid(n, s, order, items, veto, now);
    var c, w := CaseOf(n, s, order, items, veto, now), PutPool(n, s, order, items, veto, now, hint).0;
    assert c.items == Payload(n, items, veto) && c.n == n;
    PayloadBySchema(n, items, veto);
    hide Accounted, Case.Harmless, Payload, Purged, PutPool, Case.Valid, Drifts, ByTheSchema, KeysIndexed, Settled;
    if c.Harmless() {
      HarmlessPushHolds(n, s, order, items, veto, now, hint);
      KeysAfter(n, s, order, items, veto, now, hint);
      SettlesButForDrift(c, w, now);
    } else {
      var a := HarmfulPushLoses(n, s, order, items, veto, now, hint);
      LostIsUnsettled(n, w.season.rows, c.items[a]);
    }
  }

  lemma {:induction false} LostIsUnsettled(n: Naming, rows: map<Id, Row>, item: Item)
    requires KeyLost(rows, item.key)
    ensures !Settled(n, rows, item)
  {
  }

  lemma {:induction false} KeysAfter(n: Naming, s: Season, order: seq<Id>, items: seq<Item>, veto: seq<string>, now: Time, hint: nat)
    requires ScanOrder(s.rows, order) && UniqueKeys(s.rows)
    ensures KeysIndexed(PutPool(n, s, order, items, veto, now, hint).0)
  {
    var payload := Payload(n, items, veto);
    PurgedStartsTidy(n, s, order, items, veto, now);
    assert payload[0..] == payload;
    hide Separate, Payload, PurgedWork, Tidy, KeysIndexed;
    LoopKeepsKeys(n, PurgedWork(n, s, order, veto, now), payload, 0, now, hint);
  }
}
