/** What one push does to every stored row, followed item by item: its version, its
    content and the fields an enrichment pass added. */
module PoolAccounts {
  import opened Wrappers
  import opened Pool
  import opened PoolPayload
  import opened PoolIngest
  import opened PoolMarks
  import opened PoolHolds

  // --- Over any push ------------------------------------------------------------------------

  predicate Sends(item: Item, field: Field) {
    field in item.sent && item.sent[field].Some?
  }

  /** A null clears a field, unless an enrichment pass fills it. */
  predicate Clears(item: Item, field: Field) {
    && field in item.sent && item.sent[field].None?
    && field !in {Program, Detail, EnrichedAt, Score, WhyCs, SourceType, SourceName}
  }

  lemma MergedField(c: Content, item: Item, field: Field)
    ensures field in Merged(c, item).fields <==> Sends(item, field) || (field in c.fields && !Clears(item, field))
    ensures field in Merged(c, item).fields ==>
              Merged(c, item).fields[field] == if Sends(item, field) then item.sent[field].value else c.fields[field]
  {
  }

  /** A field went only if it is no enrichment and an item sent null for it; it is another
      only if an item sent that other. */
  ghost predicate Traced(c: Content, c': Content, items: seq<Item>, field: Field) {
    && (field in c.fields && field !in c'.fields ==> exists x :: x in items && Clears(x, field))
    && (field in c'.fields && (field in c.fields ==> c'.fields[field] != c.fields[field]) ==>
          exists x :: x in items && Sends(x, field) && c'.fields[field] == x.sent[field].value)
  }

  /** The version never falls, and tells: while it stays, so does all of the row but its key
      and the date it was last seen. */
  ghost predicate Evolved(was: Row, row: Row, items: seq<Item>) {
    && was.version <= row.version
    && (row.version == was.version ==> row == was.(key := row.key, lastSeen := row.lastSeen))
    && forall field :: Traced(was.content, row.content, items, field)
  }

  lemma {:induction false} TracedThrough(a: Content, b: Content, c: Content, items: seq<Item>, field: Field)
    requires Traced(a, b, items, field) && Traced(b, c, items, field)
    ensures Traced(a, c, items, field)
  {
    hide Clears, Sends;
  }

  lemma {:induction false} EvolvedThrough(a: Row, b: Row, c: Row, items: seq<Item>)
    requires Evolved(a, b, items) && Evolved(b, c, items)
    ensures Evolved(a, c, items)
  {
    hide Traced;
    forall field ensures Traced(a.content, c.content, items, field) {
      TracedThrough(a.content, b.content, c.content, items, field);
    }
  }

  lemma {:induction false} TakingUpEvolves(was: Row, row: Row, item: Item, key: string, now: Time, joined: nat, items: seq<Item>)
    requires TookUp(was, row, item, key, now, joined) && was.deletedAt.None? && item in items
    ensures Evolved(was, row, items)
  {
    forall field ensures Traced(was.content, row.content, items, field) {
      MergedField(was.content, item, field);
    }
    hide Merged, Traced;
  }

  // Whatever row the turn came to, and whether or not it was there before.
  lemma {:induction false} TurnEvolves(n: Naming, w: Work, w': Work, all: seq<Item>, k: nat, now: Time, id: Id, losers: seq<Id>, x: Id)
    requires k < |all| && Chosen(n, w, all[k], id, losers) && TurnDone(n, w, w', all[k], now, id, losers)
    requires x in w.season.rows
    ensures x in w'.season.rows
    ensures Live(w'.season.rows, x) ==> Live(w.season.rows, x) && Evolved(w.season.rows[x], w'.season.rows[x], all)
  {
    ChosenBasics(n, w, all[k], id, losers);
    TurnLives(n, w, w', all[k], now, id, losers);
    hide Chosen, TookUp, TurnIndexes, Counted, KeyTaken;
    if x == id {
      TakingUpEvolves(w.season.rows[x], w'.season.rows[x], all[k], KeyTaken(w, all[k], id), now, |losers|, all);
    }
  }

  lemma {:induction false} LoopEvolves(n: Naming, w: Work, all: seq<Item>, k: nat, now: Time, hint: nat, x: Id)
    requires k <= |all| && Tidy(n, w, all[k..]) && Separate(n, all) && x in w.season.rows
    ensures var rows := IngestAll(w, n, all[k..], now, hint).season.rows;
            Live(rows, x) ==> Live(w.season.rows, x) && Evolved(w.season.rows[x], rows[x], all)
    decreases |all| - k
  {
    SliceSeparate(n, all, k);
    if k < |all| {
      hide Separate, Ingested, TurnDone, Chosen, Tidy, Evolved;
      var id, losers := TurnKeepsTidy(n, w, all[k..], now, hint);
      var w' := Ingested(w, n, all[k], now, hint);
      TurnEvolves(n, w, w', all, k, now, id, losers, x);
      LoopEvolves(n, w', all, k + 1, now, hint, x);
      var rows := IngestAll(w', n, all[k + 1..], now, hint).season.rows;
      if Live(rows, x) { EvolvedThrough(w.season.rows[x], w'.season.rows[x], rows[x], all); }
    }
  }

  lemma {:induction false} UnpurgedIsSame(rows: map<Id, Row>, veto: seq<string>, now: Time, x: Id)
    ensures Live(Purged(rows, veto, now), x) ==> Live(rows, x) && Purged(rows, veto, now)[x] == rows[x]
    ensures Purged(rows, veto, now).Keys == rows.Keys
  {
    hide Vetoed;
  }

  lemma {:induction false} PushEvolves(n: Naming, s: Season, order: seq<Id>, items: seq<Item>, veto: seq<string>, now: Time,
                                       hint: nat, x: Id)
    requires ScanOrder(s.rows, order) && x in s.rows
    ensures var rows := PutPool(n, s, order, items, veto, now, hint).0.season.rows;
            Live(rows, x) ==>
              && Live(Purged(s.rows, veto, now), x) && Purged(s.rows, veto, now)[x] == s.rows[x]
              && Evolved(s.rows[x], rows[x], Payload(n, items, veto))
  {
    var payload := Payload(n, items, veto);
    PurgedStartsTidy(n, s, order, items, veto, now);
    assert payload[0..] == payload;
    UnpurgedIsSame(s.rows, veto, now, x);
    hide Separate, Payload, Purged, Tidy, Evolved;
    LoopEvolves(n, PurgedWork(n, s, order, veto, now), payload, 0, now, hint, x);
  }

  /** Whatever is stored and sent: a surviving row of the same version is the same row but
      for its key and `last_seen_at`. */
  lemma {:induction false} VersionTells(n: Naming, s: Season, order: seq<Id>, items: seq<Item>, veto: seq<string>, now: Time,
                                        hint: nat, x: Id)
    requires ScanOrder(s.rows, order) && x in s.rows
    ensures var rows := PutPool(n, s, order, items, veto, now, hint).0.season.rows;
            Live(rows, x) ==>
              && s.rows[x].version <= rows[x].version
              && (rows[x].version == s.rows[x].version ==>
                    rows[x] == s.rows[x].(key := rows[x].key, lastSeen := rows[x].lastSeen))
  {
    PushEvolves(n, s, order, items, veto, now, hint, x);
    hide PutPool, Payload, Traced;
  }

  /** Whatever is stored and sent, an update is a merge: a field a surviving row had is gone
      only if it is no enrichment and an item of the payload sent null for it; it is another
      only if an item sent that other. */
  lemma {:induction false} FieldsStay(n: Naming, s: Season, order: seq<Id>, items: seq<Item>, veto: seq<string>, now: Time,
                                      hint: nat, x: Id, field: Field)
    requires ScanOrder(s.rows, order) && x in s.rows
    ensures var rows := PutPool(n, s, order, items, veto, now, hint).0.season.rows;
            Live(rows, x) ==> Traced(s.rows[x].content, rows[x].content, Payload(n, items, veto), field)
  {
    PushEvolves(n, s, order, items, veto, now, hint, x);
    hide PutPool, Payload, Traced;
  }

  // --- Over a harmless push ------------------------------------------------------------------

  /** Every live row is accounted for, left alone or holding one item, and every item by one
      row, exactly when no shared row is taken from one item by another. */
  lemma {:induction false} PushExplainsEveryRow(n: Naming, s: Season, order: seq<Id>, items: seq<Item>, veto: seq<string>,
                                                now: Time, hint: nat)
    requires Proper(n, s, order, items)
    ensures var c := CaseOf(n, s, order, items, veto, now);
            Accounted(c, PutPool(n, s, order, items, veto, now, hint).0, |c.items|, now) <==> c.Harmless()
  {
    var c, w := CaseOf(n, s, order, items, veto, now), PutPool(n, s, order, items, veto, now, hint).0;
    CaseIsValid(n, s, order, items, veto, now);
    PayloadBySchema(n, items, veto);
    hide Accounted, Case.Harmless, Case.Valid, Payload, Purged, PutPool, AllHeld, ByTheSchema, Homes;
    if c.Harmless() {
      HarmlessPushHolds(n, s, order, items, veto, now, hint);
    } else if Accounted(c, w, |c.items|, now) {
      AccountedAreHeld(c, w, now);
      PushHoldsExactly(n, s, order, items, veto, now, hint);
    }
  }

  // A row live before and after a harmless push.
  lemma {:induction false} LivesOn(n: Naming, s: Season, order: seq<Id>, items: seq<Item>, veto: seq<string>, now: Time,
                                   hint: nat, id: Id)
    requires Proper(n, s, order, items) && id in s.rows
    requires CaseOf(n, s, order, items, veto, now).Harmless()
    ensures var c, w := CaseOf(n, s, order, items, veto, now), PutPool(n, s, order, items, veto, now, hint).0;
            Live(w.season.rows, id) ==>
              && id in c.rows && c.rows[id] == s.rows[id]
              && (LeftAlone(c, w, id, |c.items|) || HoldsSome(c, w, id, |c.items|, now))
  {
    CaseIsValid(n, s, order, items, veto, now);
    HarmlessPushHolds(n, s, order, items, veto, now, hint);
    PushEvolves(n, s, order, items, veto, now, hint, id);
    hide PutPool, Payload, LeftAlone, HoldsSome, SomeHolds, Homes, Purged, Evolved, Case.Valid, Case.Harmless;
  }

  /** A surviving row's version grows by one for each row folded into it and by one if its
      content hash changed: so it grows exactly when either happened. */
  lemma {:induction false} VersionGrowsExactly(n: Naming, s: Season, order: seq<Id>, items: seq<Item>, veto: seq<string>,
                                               now: Time, hint: nat, id: Id)
    requires Proper(n, s, order, items) && id in s.rows
    requires CaseOf(n, s, order, items, veto, now).Harmless()
    ensures var w := PutPool(n, s, order, items, veto, now, hint).0;
            Live(w.season.rows, id) ==>
              var was, row, joined := s.rows[id], w.season.rows[id], Joined(w.home, id);
              && row.version == was.version + |joined| + Bump(was, row)
              && (row.version != was.version <==> row.hashed != was.hashed || joined != {})
  {
    LivesOn(n, s, order, items, veto, now, hint, id);
    hide PutPool, CaseOf, Joined, Merged, Case.Valid, Case.Harmless, Case.Owns, Case.HasName;
  }

  // What the row of an item is made of.
  lemma HeldRow(c: Case, w: Work, j: nat, x: Id, now: Time)
    requires HeldAs(c, w, j, x, now) && x in c.rows
    ensures x in w.season.rows
    ensures var was, row := c.rows[x], w.season.rows[x];
            && row.key == c.items[j].key
            && row.content == if SaysNothingNew(was, c.items[j]) then was.content else Merged(was.content, c.items[j])
  {
    hide Merged, Joined, Case.Owns, Case.HasName;
  }

  /** After a harmless push it is the item of the row's own key that cleared the field or
      sent another. */
  lemma {:induction false} FieldsStayByKey(n: Naming, s: Season, order: seq<Id>, items: seq<Item>, veto: seq<string>,
                                           now: Time, hint: nat, id: Id, field: Field)
    requires Proper(n, s, order, items) && id in s.rows
    requires CaseOf(n, s, order, items, veto, now).Harmless()
    ensures var rows := PutPool(n, s, order, items, veto, now, hint).0.season.rows;
            Live(rows, id) && rows[id].content != s.rows[id].content ==>
              exists item :: item in Payload(n, items, veto) && item.key == rows[id].key
                             && Traced(s.rows[id].content, rows[id].content, [item], field)
  {
    LivesOn(n, s, order, items, veto, now, hint, id);
    var c, w := CaseOf(n, s, order, items, veto, now), PutPool(n, s, order, items, veto, now, hint).0;
    hide PutPool, Payload, Purged, Merged, HeldAs, Case.Valid, Case.Harmless, Sends, Clears;
    if Live(w.season.rows, id) && w.season.rows[id].content != s.rows[id].content {
      var j: nat :| j < |c.items| && HeldAs(c, w, j, id, now);
      HeldRow(c, w, j, id, now);
      MergedField(s.rows[id].content, c.items[j], field);
      assert c.items[j] in c.items && c.items[j] in [c.items[j]];
    }
  }

  /** What is not carried over: an enrichment of a row folded into another is lost exactly
      when the survivor had none of its own and the item that joined them brings none. */
  lemma {:induction false} FoldedEnrichmentIsLostExactly(n: Naming, s: Season, order: seq<Id>, items: seq<Item>,
                                                         veto: seq<string>, now: Time, hint: nat,
                                                         folded: Id, field: Field) returns (joiner: Option<Item>)
    requires Proper(n, s, order, items) && field in ENRICHMENT
    requires CaseOf(n, s, order, items, veto, now).Harmless()
    requires Live(s.rows, folded) && field in s.rows[folded].content.fields
    ensures var w := PutPool(n, s, order, items, veto, now, hint).0;
            folded in w.home && w.home[folded] != folded ==>
              var id := w.home[folded];
              && id in s.rows && Live(w.season.rows, id)
              && joiner.Some? && joiner.value in Payload(n, items, veto) && w.season.rows[id].key == joiner.value.key
              && (field !in w.season.rows[id].content.fields <==>
                    field !in s.rows[id].content.fields
                    && (SaysNothingNew(s.rows[id], joiner.value) || !Sends(joiner.value, field)))
  {
    PushLosesNoMark(n, s, order, items, veto, now, hint);
    var c, w := CaseOf(n, s, order, items, veto, now), PutPool(n, s, order, items, veto, now, hint).0;
    UnpurgedKeys(s.rows, veto, now);
    hide PutPool, Payload, Purged, Merged, Sends, HeldAs, Case.Valid, Case.Harmless, HoldsSome, LeftAlone, Following, Proper, Joined;
    joiner := None;
    if folded in w.home && w.home[folded] != folded {
      var id := w.home[folded];
      HomeIsLive(c.rows, w, folded);
      LivesOn(n, s, order, items, veto, now, hint, id);
      var item := Joiner(c, w, folded, now);
      MergedField(s.rows[id].content, item, field);
      joiner := Some(item);
    }
  }

  lemma {:induction false} UnpurgedKeys(rows: map<Id, Row>, veto: seq<string>, now: Time)
    ensures Purged(rows, veto, now).Keys == rows.Keys
  {
  }

  lemma HomeIsLive(before: map<Id, Row>, w: Work, x: Id)
    requires Following(before, w) && x in w.home
    ensures w.home[x] in before && Live(w.season.rows, w.home[x])
  {
    hide AllGathered;
    assert w.home[x] in w.home.Values;
  }

  // The item that brought two rows together.
  lemma {:induction false} Joiner(c: Case, w: Work, folded: Id, now: Time) returns (item: Item)
    requires folded in w.home && w.home[folded] in c.rows && w.home[folded] != folded
    requires LeftAlone(c, w, w.home[folded], |c.items|) || HoldsSome(c, w, w.home[folded], |c.items|, now)
    ensures var id := w.home[folded];
            && item in c.items && id in w.season.rows && w.season.rows[id].key == item.key
            && w.season.rows[id].content == if SaysNothingNew(c.rows[id], item) then c.rows[id].content
                                            else Merged(c.rows[id].content, item)
  {
    var id := w.home[folded];
    assert folded in Joined(w.home, id);
    hide Joined, HeldAs, SaysNothingNew, Merged;
    var j: nat :| j < |c.items| && HeldAs(c, w, j, id, now);
    HeldRow(c, w, j, id, now);
    item := c.items[j];
  }

  // --- The payload's items -----------------------------------------------------------------

  /** One live row is the item's: the item over what the row had before. */
  ghost predicate HeldWhole(before: map<Id, Row>, rows: map<Id, Row>, item: Item, now: Time, id: Id) {
    && HeldBy(rows, item, now, id) && (forall x :: Live(rows, x) && rows[x].key == item.key ==> x == id)
    && rows[id].hashed == (if id in before then Merged(before[id].content, item) else Dumped(item))
    && (HashesTell(before) ==> rows[id].content == rows[id].hashed)
  }

  ghost predicate AllHeldWhole(before: map<Id, Row>, rows: map<Id, Row>, items: seq<Item>, now: Time) {
    forall j :: 0 <= j < |items| ==> HeldByOne(before, rows, items[j], now)
  }

  ghost predicate HeldByOne(before: map<Id, Row>, rows: map<Id, Row>, item: Item, now: Time) {
    exists id :: HeldWhole(before, rows, item, now, id)
  }

  lemma HeldAsIsWhole(c: Case, w: Work, j: nat, x: Id, now: Time, before: map<Id, Row>)
    requires HeldAs(c, w, j, x, now) && ByTheSchema(c.items[j]) && UniqueKeys(w.season.rows) && c.rows.Keys == before.Keys
    requires x in before ==> Live(before, x) && c.rows[x] == before[x]
    ensures HeldWhole(before, w.season.rows, c.items[j], now, x)
  {
    HeldAsIsHeld(c, w, j, x, now);
    hide Merged, Dumped, Joined, Case.Owns, Case.HasName, SaysNothingNew;
  }

  lemma {:induction false} ItemIsHeldWhole(n: Naming, s: Season, order: seq<Id>, items: seq<Item>, veto: seq<string>,
                                           now: Time, hint: nat, j: nat) returns (x: Id)
    requires Proper(n, s, order, items) && CaseOf(n, s, order, items, veto, now).Harmless() && j < |Payload(n, items, veto)|
    ensures HeldWhole(s.rows, PutPool(n, s, order, items, veto, now, hint).0.season.rows, Payload(n, items, veto)[j], now, x)
  {
    var c, w := CaseOf(n, s, order, items, veto, now), PutPool(n, s, order, items, veto, now, hint).0;
    CaseIsValid(n, s, order, items, veto, now);
    PayloadBySchema(n, items, veto);
    UnpurgedKeys(s.rows, veto, now);
    HarmlessPushHolds(n, s, order, items, veto, now, hint);
    PushKeepsKeys(n, s, order, items, veto, now, hint);
    hide Case.Harmless, Case.Valid, Payload, Purged, PutPool, ByTheSchema, HeldWhole, HeldAs, UniqueKeys, HoldsSome, HashesTell;
    assert SomeHolds(c, w, j, now);
    x :| HeldAs(c, w, j, x, now);
    HeldRowWas(n, s, order, items, veto, now, hint, j, x);
    HeldAsIsWhole(c, w, j, x, now, s.rows);
  }

  /** Every item of the payload is held by exactly one live row, with its content, exactly
      when no shared row is taken from one item by another. */
  lemma {:induction false} ItemsAreHeldWhole(n: Naming, s: Season, order: seq<Id>, items: seq<Item>, veto: seq<string>,
                                             now: Time, hint: nat)
    requires Proper(n, s, order, items)
    ensures var rows := PutPool(n, s, order, items, veto, now, hint).0.season.rows;
            AllHeldWhole(s.rows, rows, Payload(n, items, veto), now) <==> CaseOf(n, s, order, items, veto, now).Harmless()
  {
    var rows, payload := PutPool(n, s, order, items, veto, now, hint).0.season.rows, Payload(n, items, veto);
    hide Case.Harmless, Payload, PutPool, HeldWhole, Proper, AllHeld;
    if CaseOf(n, s, order, items, veto, now).Harmless() {
      forall j | 0 <= j < |payload| ensures HeldByOne(s.rows, rows, payload[j], now) {
        var x := ItemIsHeldWhole(n, s, order, items, veto, now, hint, j);
      }
    } else if AllHeldWhole(s.rows, rows, payload, now) {
      WholeIsHeld(s.rows, rows, payload, now);
      PushHoldsExactly(n, s, order, items, veto, now, hint);
    }
  }

  lemma {:induction false} HeldRowWas(n: Naming, s: Season, order: seq<Id>, items: seq<Item>, veto: seq<string>, now: Time,
                                      hint: nat, j: nat, x: Id)
    requires ScanOrder(s.rows, order)
    requires HeldAs(CaseOf(n, s, order, items, veto, now), PutPool(n, s, order, items, veto, now, hint).0, j, x, now)
    ensures x in s.rows ==> Live(s.rows, x) && x in Purged(s.rows, veto, now) && Purged(s.rows, veto, now)[x] == s.rows[x]
  {
    if x in s.rows { PushEvolves(n, s, order, items, veto, now, hint, x); }
    hide PutPool, Purged, Payload, TookUp, Evolved, CaseOf;
  }

  lemma {:induction false} WholeIsHeld(before: map<Id, Row>, rows: map<Id, Row>, items: seq<Item>, now: Time)
    requires AllHeldWhole(before, rows, items, now)
    ensures AllHeld(rows, items, now)
  {
    forall j | 0 <= j < |items| ensures Held(rows, items[j], now) {
      assert HeldByOne(before, rows, items[j], now);
      var id :| HeldWhole(before, rows, items[j], now, id);
      assert HeldBy(rows, items[j], now, id);
    }
  }
}
