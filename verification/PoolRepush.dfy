/** Pushing the same payload twice: when nothing happens the second time but `last_seen_at`. */
module PoolRepush {
  import opened Wrappers
  import opened Pool
  import opened PoolPayload
  import opened PoolIngest
  import opened PoolHolds
  import opened PoolSettled
  import opened PoolVeto
  import opened Texts

  // --- The veto ---------------------------------------------------------------------------

  /** Wherever a term is cut at one of its spaces, a part up to or from that space is
      itself caught. */
  predicate SplitsCaught(veto: seq<string>) {
    forall t, k :: t in veto && 0 <= k < |t| && t[k] == ' ' ==> SplitCaught(t, k, veto)
  }

  predicate SplitCaught(t: string, k: nat, veto: seq<string>)
    requires k < |t|
  {
    Caught(t[..k + 1], veto) || Caught(t[k..], veto)
  }

  lemma ContainsInLeft(a: string, b: string, term: string)
    requires Contains(a, term)
    ensures Contains(a + b, term)
  {
    var i :| 0 <= i <= |a| && StartsWith(a[i..], term);
    assert (a + b)[i..][..|term|] == a[i..][..|term|];
  }

  lemma ContainsInRight(a: string, b: string, term: string)
    requires Contains(b, term)
    ensures Contains(a + b, term)
  {
    var i :| 0 <= i <= |b| && StartsWith(b[i..], term);
    assert (a + b)[|a| + i..] == b[i..];
  }

  lemma ContainsWithin(haystack: string, i: nat, j: nat, term: string)
    requires i <= j <= |haystack| && Contains(haystack[i..j], term)
    ensures Contains(haystack, term)
  {
    var rest := haystack[i..];
    assert rest == haystack[i..j] + rest[j - i..];
    assert haystack == haystack[..i] + rest;
    ContainsInLeft(haystack[i..j], rest[j - i..], term);
    ContainsInRight(haystack[..i], rest, term);
  }

  lemma {:induction false} CaughtWithin(haystack: string, i: nat, j: nat, veto: seq<string>)
    requires i <= j <= |haystack| && Caught(haystack[i..j], veto)
    ensures Caught(haystack, veto)
  {
    var t :| t in veto && Contains(haystack[i..j], t);
    ContainsWithin(haystack, i, j, t);
  }

  /** The venue of one allowed candidate beside the source of another: a term found
      across them would have been cut at the space between. */
  lemma {:induction false} MixtureIsAllowed(a1: string, b1: string, a2: string, b2: string, veto: seq<string>)
    requires SplitsCaught(veto) && !Caught(a1 + " " + b1, veto) && !Caught(a2 + " " + b2, veto)
    ensures !Caught(a1 + " " + b2, veto)
  {
    var mixed := a1 + " " + b2;
    if Caught(mixed, veto) {
      var t :| t in veto && Contains(mixed, t);
      var i :| 0 <= i <= |mixed| && StartsWith(mixed[i..], t);
      assert mixed[i..i + |t|] == t;
      if i + |t| <= |a1| + 1 {
        LeftOfMixture(a1, b1, b2, i, i + |t|, t, veto);
      } else if i >= |a1| {
        RightOfMixture(a1, a2, b2, i, i + |t|, t, veto);
      } else {
        var k := |a1| - i;
        assert t[k] == mixed[|a1|] == ' ';
        assert SplitCaught(t, k, veto);
        if Caught(t[..k + 1], veto) {
          LeftOfMixture(a1, b1, b2, i, |a1| + 1, t[..k + 1], veto);
        } else {
          RightOfMixture(a1, a2, b2, |a1|, i + |t|, t[k..], veto);
        }
      }
    }
  }

  // What lies within the first name and the space lies in the first candidate's names.
  lemma {:induction false} LeftOfMixture(a1: string, b1: string, b2: string, i: nat, j: nat, part: string, veto: seq<string>)
    requires i <= j <= |a1| + 1 && (a1 + " " + b2)[i..j] == part && (part in veto || Caught(part, veto))
    ensures Caught(a1 + " " + b1, veto)
  {
    assert (a1 + " " + b1)[i..j] == part;
    SelfContained(part);
    CaughtWithin(a1 + " " + b1, i, j, veto);
  }

  lemma {:induction false} RightOfMixture(a1: string, a2: string, b2: string, i: nat, j: nat, part: string, veto: seq<string>)
    requires |a1| <= i <= j <= |a1| + 1 + |b2| && (a1 + " " + b2)[i..j] == part && (part in veto || Caught(part, veto))
    ensures Caught(a2 + " " + b2, veto)
  {
    var shift := |a2| - |a1|;
    assert (a2 + " " + b2)[i + shift..j + shift] == part;
    SelfContained(part);
    CaughtWithin(a2 + " " + b2, i + shift, j + shift, veto);
  }

  lemma SelfContained(term: string)
    ensures Contains(term, term)
  {
    assert term[0..] == term;
  }

  // Merging takes each name from the row or from the item.
  lemma MergedNameIsOneOfThem(c: Content, item: Item, field: Field)
    ensures NameOf(Merged(c, item), field) in {NameOf(c, field), NameOf(Dumped(item), field)}
  {
    assert TextOf(Merged(c, item), field) in {TextOf(c, field), TextOf(Dumped(item), field)};
  }

  /** Merging what is allowed into what is allowed gives something allowed. */
  lemma {:induction false} MergedIsAllowed(c: Content, item: Item, veto: seq<string>)
    requires SplitsCaught(veto) && !Vetoed(c, veto) && !Vetoed(Dumped(item), veto)
    ensures !Vetoed(Merged(c, item), veto)
  {
    MergedNameIsOneOfThem(c, item, Venue);
    MergedNameIsOneOfThem(c, item, SourceName);
    hide Caught, NameOf, Merged, Dumped, SplitsCaught;
    var d := Dumped(item);
    MixtureIsAllowed(NameOf(c, Venue), NameOf(c, SourceName), NameOf(d, Venue), NameOf(d, SourceName), veto);
    MixtureIsAllowed(NameOf(d, Venue), NameOf(d, SourceName), NameOf(c, Venue), NameOf(c, SourceName), veto);
  }

  ghost predicate AllAllowed(rows: map<Id, Row>, veto: seq<string>) {
    forall id :: Live(rows, id) ==> !Vetoed(rows[id].content, veto)
  }

  lemma {:induction false} TurnKeepsAllowed(n: Naming, w: Work, w': Work, item: Item, now: Time, id: Id, losers: seq<Id>,
                                            veto: seq<string>)
    requires SplitsCaught(veto) && AllAllowed(w.season.rows, veto) && !Vetoed(Dumped(item), veto)
    requires Chosen(n, w, item, id, losers) && TurnDone(n, w, w', item, now, id, losers)
    ensures AllAllowed(w'.season.rows, veto)
  {
    ChosenBasics(n, w, item, id, losers);
    TurnLives(n, w, w', item, now, id, losers);
    hide Chosen, Vetoed, Merged, Dumped, TurnIndexes, Counted, SplitsCaught;
    if id in w.season.rows { MergedIsAllowed(w.season.rows[id].content, item, veto); }
  }

  lemma {:induction false} LoopKeepsAllowed(n: Naming, w: Work, all: seq<Item>, k: nat, now: Time, hint: nat, veto: seq<string>)
    requires k <= |all| && Tidy(n, w, all[k..]) && Separate(n, all)
    requires forall j :: 0 <= j < |all| ==> !Vetoed(Dumped(all[j]), veto)
    requires SplitsCaught(veto) && AllAllowed(w.season.rows, veto)
    ensures AllAllowed(IngestAll(w, n, all[k..], now, hint).season.rows, veto)
    decreases |all| - k
  {
    SliceSeparate(n, all, k);
    hide Separate, Ingested, AllAllowed, Vetoed, SplitsCaught, TurnDone, Chosen, Tidy;
    if k < |all| {
      var id, losers := TurnKeepsTidy(n, w, all[k..], now, hint);
      TurnKeepsAllowed(n, w, Ingested(w, n, all[k], now, hint), all[k], now, id, losers, veto);
      LoopKeepsAllowed(n, Ingested(w, n, all[k], now, hint), all, k + 1, now, hint, veto);
    }
  }

  lemma {:induction false} PurgeOfAllowed(rows: map<Id, Row>, veto: seq<string>, now: Time)
    requires AllAllowed(rows, veto)
    ensures Purged(rows, veto, now) == rows
  {
  }

  lemma {:induction false} PurgeAllows(rows: map<Id, Row>, veto: seq<string>, now: Time)
    ensures AllAllowed(Purged(rows, veto, now), veto)
  {
    hide Vetoed;
  }

  lemma {:induction false} PushLeavesAllowed(n: Naming, s: Season, order: seq<Id>, items: seq<Item>, veto: seq<string>, now: Time,
                                             hint: nat)
    requires ScanOrder(s.rows, order) && SplitsCaught(veto)
    ensures AllAllowed(PutPool(n, s, order, items, veto, now, hint).0.season.rows, veto)
  {
    var payload := Payload(n, items, veto);
    PayloadIsSeparate(n, items, veto);
    assert forall j :: 0 <= j < |payload| ==> payload[j] in payload;
    PurgedStartsTidy(n, s, order, items, veto, now);
    assert payload[0..] == payload;
    PurgeAllows(s.rows, veto, now);
    hide Separate, Payload, Purged, Tidy, Vetoed, SplitsCaught, AllAllowed, LiveOnly, KeyIndex, IdentityIndex;
    LoopKeepsAllowed(n, PurgedWork(n, s, order, veto, now), payload, 0, now, hint, veto);
  }

  /** Under such terms no live row mentions a term after any push, in whatever case. */
  lemma {:induction false} NoMentionSurvives(n: Naming, s: Season, order: seq<Id>, items: seq<Item>, veto: seq<string>, now: Time,
                                             hint: nat)
    requires ScanOrder(s.rows, order) && Configured(veto) && SplitsCaught(veto)
    ensures var rows := PutPool(n, s, order, items, veto, now, hint).0.season.rows;
            forall id :: Live(rows, id) ==> !Mentions(rows[id].content, veto)
  {
    PushLeavesAllowed(n, s, order, items, veto, now, hint);
    forall c ensures Vetoed(c, veto) <==> Mentions(c, veto) { VetoIgnoresCase(c, veto); }
    hide PutPool, Mentions, Vetoed, SplitsCaught;
  }

  // --- The second push -----------------------------------------------------------------------

  /** Two pushes of the same payload; the database may return the rows in another order
      the second time, and the clock and the generator have moved on. */
  datatype Pushes = Pushes(n: Naming, s: Season, order: seq<Id>, items: seq<Item>, now: Time, hint: nat,
                           order2: seq<Id>, now2: Time, hint2: nat)
  {
    function First(veto: seq<string>): Season {
      PutPool(n, s, order, items, veto, now, hint).0.season
    }

    function Second(veto: seq<string>): (Work, PutResult) {
      PutPool(n, First(veto), order2, items, veto, now2, hint2)
    }

    ghost predicate Proper(veto: seq<string>) {
      PoolHolds.Proper(n, s, order, items) && ScanOrder(First(veto).rows, order2)
    }

    ghost predicate Steady(veto: seq<string>) {
      PoolSettled.Steady(CaseOf(n, s, order, items, veto, now))
    }

    ghost predicate Idempotent(veto: seq<string>) {
      NothingButSeen(First(veto), Second(veto).0.season, Second(veto).1)
    }
  }

  // Whatever is vetoed is purged, and counted.
  lemma {:induction false} PurgeOfVetoed(rows: map<Id, Row>, veto: seq<string>, now: Time, id: Id)
    requires Live(rows, id) && Vetoed(rows[id].content, veto)
    ensures |LiveIds(Purged(rows, veto, now))| < |LiveIds(rows)|
  {
    hide Vetoed;
    var left := LiveIds(Purged(rows, veto, now));
    assert left <= LiveIds(rows) - {id};
    SmallerSet(left, LiveIds(rows), id);
  }

  lemma SmallerSet(a: set<Id>, b: set<Id>, x: Id)
    requires a <= b - {x} && x in b
    ensures |a| < |b|
  {
    var rest := b - {x} - a;
    assert b == a + rest + {x};
    assert |a + rest| == |a| + |rest|;
  }

  lemma {:induction false} PurgedCount(n: Naming, s: Season, order: seq<Id>, items: seq<Item>, veto: seq<string>, now: Time,
                                       hint: nat)
    ensures PutPool(n, s, order, items, veto, now, hint).1.purged == |LiveIds(s.rows)| - |LiveIds(Purged(s.rows, veto, now))|
  {
  }

  /** Pushing again only sees what it saw exactly when the first push left nothing in the
      pool that the veto catches and settled every item: for whatever pool and payload. */
  lemma {:induction false} SecondPushExactly(p: Pushes, veto: seq<string>)
    ensures p.Proper(veto) ==>
              (p.Idempotent(veto) <==>
                 AllAllowed(p.First(veto).rows, veto) && AllSettled(p.n, p.First(veto).rows, Payload(p.n, p.items, veto)))
  {
    hide Vetoed, PutPool, OnlySeen, AllSettled, Payload;
    if p.Proper(veto) {
      var s1 := p.First(veto);
      if AllAllowed(s1.rows, veto) {
        PushKeepsKeys(p.n, p.s, p.order, p.items, veto, p.now, p.hint);
        PurgeOfAllowed(s1.rows, veto, p.now2);
        hide AllAllowed, UniqueKeys, ScanOrder, Purged;
        PushOnlySeesExactly(p.n, s1, p.order2, p.items, veto, p.now2, p.hint2);
      } else {
        var id :| Live(s1.rows, id) && Vetoed(s1.rows[id].content, veto);
        PurgeOfVetoed(s1.rows, veto, p.now2, id);
        PurgedCount(p.n, s1, p.order2, p.items, veto, p.now2, p.hint2);
      }
    }
  }

  /** Idempotence, under any list of terms whose splits are caught, in particular under any
      list of single words: the second push only sees exactly when the first is steady. */
  lemma {:induction false} SecondPushOnlySees(p: Pushes, veto: seq<string>)
    requires SplitsCaught(veto)
    ensures p.Proper(veto) ==> (p.Idempotent(veto) <==> p.Steady(veto))
  {
    if p.Proper(veto) {
      SecondPushExactly(p, veto);
      PushLeavesAllowed(p.n, p.s, p.order, p.items, veto, p.now, p.hint);
      PushSettlesExactly(p.n, p.s, p.order, p.items, veto, p.now, p.hint);
      hide SplitsCaught, AllAllowed, AllSettled, NothingButSeen, Steady, PutPool, Payload, ScanOrder, UniqueKeys;
    }
  }

  // --- Lists with a split that is not caught ---------------------------------------------

  /** A row whose source is the term's second part, and an item whose venue is its first. */
  function SplitContent(b: string): Content {
    Content(0, map[SeasonEvent := Flag(false), Lane := Text("elektronika"), Title := Text("t"), SourceName := Text(b)])
  }

  function SplitRow(b: string): Row {
    Row(KEY, SplitContent(b), SplitContent(b), Undecided, None, None, 0, 0, 1, None)
  }

  function SplitItem(a: string): Item {
    Item(KEY, 0, map[Lane := Some(Text("elektronika")), Title := Some(Text("t")), Venue := Some(Text(a))])
  }

  function SplitPushes(n: Naming, t: string, k: nat): Pushes
    requires k < |t|
  {
    Pushes(n, Season(map[0 := SplitRow(t[k + 1..])], map[]), [0], [SplitItem(t[..k])], 1, 1, [0], 2, 2)
  }

  lemma FoldedPart(t: string, i: nat, j: nat)
    requires i <= j <= |t| && Folded(t) == t
    ensures Folded(t[i..j]) == t[i..j]
  {
    assert forall m :: i <= m < j ==> Folded(t)[m] == t[m];
  }

  lemma {:induction false} SplitNames(veto: seq<string>, t: string, k: nat)
    requires Configured(veto) && t in veto && k < |t| && t[k] == ' ' && !SplitCaught(t, k, veto)
    ensures var row, item := SplitContent(t[k + 1..]), SplitItem(t[..k]);
            !Vetoed(row, veto) && !Vetoed(Dumped(item), veto) && Vetoed(Merged(row, item), veto)
  {
    var a, b := t[..k], t[k + 1..];
    FoldedPart(t, 0, k);
    FoldedPart(t, k + 1, |t|);
    var row, item := SplitContent(b), SplitItem(a);
    var merged := Merged(row, item);
    assert NameOf(row, Venue) == "" && NameOf(row, SourceName) == b;
    assert NameOf(Dumped(item), Venue) == a && NameOf(Dumped(item), SourceName) == "";
    assert NameOf(merged, Venue) == a && NameOf(merged, SourceName) == b;
    assert "" + " " + b == t[k..] && a + " " + "" == t[..k + 1] && a + " " + b == t;
    SelfContained(t);
  }

  // The item alone is the payload, whatever is in the pool.
  lemma {:induction false} SplitPayload(n: Naming, a: string, veto: seq<string>)
    requires !Vetoed(Dumped(SplitItem(a)), veto)
    ensures Payload(n, [SplitItem(a)], veto) == [SplitItem(a)]
  {
    hide Vetoed;
    var items := [SplitItem(a)];
    assert Allowed(items[1..], veto) == [];
    assert Allowed(items, veto) == items;
    assert ByKey(items[..0]) == [];
    assert ByKey(items) == items;
    assert KeptOnly(n, items[1..], Winners(n, items).Values) == [];
    assert IdentityOf(n, Dumped(items[0])).None?;
  }

  lemma SplitIndexes(n: Naming, rows: map<Id, Row>, b: string)
    requires rows == map[0 := SplitRow(b)]
    ensures KeyIndex(rows, [0]) == map[KEY := 0] && IdentityIndex(n, rows, [0]) == map[]
  {
    assert [0][..0] == [];
    assert TextOf(SplitContent(b), Url) == None;
    assert KeyIndex(rows, [0]) == KeyIndex(rows, [0][..0])[KEY := 0];
  }

  // One turn on a pool of at most the one row.
  lemma {:induction false} SplitFirst(n: Naming, a: string, b: string, veto: seq<string>, now: Time, hint: nat)
    requires !Vetoed(SplitContent(b), veto) && !Vetoed(Dumped(SplitItem(a)), veto)
    ensures var merged := Merged(SplitContent(b), SplitItem(a));
            var w := PutPool(n, Season(map[0 := SplitRow(b)], map[]), [0], [SplitItem(a)], veto, now, hint).0;
            w.season.rows.Keys == {0} && Live(w.season.rows, 0) && w.season.rows[0].key == KEY
            && w.season.rows[0].content == merged && w.season.scenarios == map[]
  {
    SplitPayload(n, a, veto);
    hide Vetoed, Merged, Payload, Dumped;
    var rows, item := map[0 := SplitRow(b)], SplitItem(a);
    assert Purged(rows, veto, now) == rows;
    var w := PurgedWork(n, Season(rows, map[]), [0], veto, now);
    assert LiveOnly(rows, [0][1..]) == [];
    assert LiveOnly(rows, [0]) == [0];
    SplitIndexes(n, rows, b);
    assert [item][1..] == [];
    assert IngestAll(w, n, [item], now, hint) == Ingested(w, n, item, now, hint);
    assert TwinsOf(w, IdentityOf(n, Dumped(item))) == [];
  }

  lemma {:induction false} SplitSecond(n: Naming, s: Season, a: string, veto: seq<string>, now: Time, hint: nat)
    requires s.rows.Keys == {0} && Live(s.rows, 0) && Vetoed(s.rows[0].content, veto) && !Vetoed(Dumped(SplitItem(a)), veto)
    ensures var r := PutPool(n, s, [0], [SplitItem(a)], veto, now, hint).1;
            r.counts == Counts(1, 0, 0, 0, 0) && r.purged == 1
  {
    SplitPayload(n, a, veto);
    hide Vetoed, Merged, Payload, Dumped;
    var item := SplitItem(a);
    var rows := Purged(s.rows, veto, now);
    assert LiveOnly(rows, [0][1..]) == [];
    assert LiveOnly(rows, [0]) == [];
    var w := PurgedWork(n, s, [0], veto, now);
    assert [item][1..] == [];
    assert IngestAll(w, n, [item], now, hint) == Ingested(w, n, item, now, hint);
    assert TwinsOf(w, IdentityOf(n, Dumped(item))) == [];
    assert LiveIds(s.rows) == {0} && LiveIds(rows) == {};
  }

  /** Any split that is not caught shows in two pushes: the first folds the term together
      out of an allowed row and an allowed item, the second purges the row the first has
      just updated and creates another. */
  lemma {:induction false} UncaughtSplitUndoesThePush(n: Naming, veto: seq<string>, t: string, k: nat)
    requires Configured(veto) && t in veto && k < |t| && t[k] == ' ' && !SplitCaught(t, k, veto)
    ensures var p := SplitPushes(n, t, k);
            && p.Proper(veto) && p.Steady(veto)
            && p.Second(veto).1.counts == Counts(1, 0, 0, 0, 0) && p.Second(veto).1.purged == 1
  {
    var a, b := t[..k], t[k + 1..];
    SplitNames(veto, t, k);
    var p := SplitPushes(n, t, k);
    SplitIsSteady(p, a, b, veto);
    hide Vetoed, Merged, PutPool, PoolHolds.Proper, SplitCaught, Configured, SplitContent, SplitRow, SplitItem, Dumped;
    SplitFirst(n, a, b, veto, 1, 1);
    SplitSecond(n, p.First(veto), a, veto, 2, 2);
  }

  lemma {:induction false} SplitIsSteady(p: Pushes, a: string, b: string, veto: seq<string>)
    requires p.s == Season(map[0 := SplitRow(b)], map[]) && p.order == [0] && p.items == [SplitItem(a)]
    requires !Vetoed(Dumped(SplitItem(a)), veto)
    ensures Proper(p.n, p.s, p.order, p.items) && p.Steady(veto)
  {
    SplitPayload(p.n, a, veto);
    hide Vetoed, Payload, Purged;
    LoneItemIsSteady(CaseOf(p.n, p.s, p.order, p.items, veto, p.now));
  }

  ghost predicate EveryRepushOnlySees(veto: seq<string>) {
    forall p: Pushes :: p.Proper(veto) && p.Steady(veto) ==> p.Idempotent(veto)
  }

  /** Under a list of terms every steady push is idempotent exactly when the list's splits
      are caught. */
  lemma {:induction false} RepushIsSafeExactly(veto: seq<string>)
    requires Configured(veto)
    ensures EveryRepushOnlySees(veto) <==> SplitsCaught(veto)
  {
    if SplitsCaught(veto) {
      forall p: Pushes | p.Proper(veto) && p.Steady(veto) ensures p.Idempotent(veto) { SecondPushOnlySees(p, veto); }
    } else {
      var t, k :| t in veto && 0 <= k < |t| && t[k] == ' ' && !SplitCaught(t, k, veto);
      var n := Naming(_ => None, _ => 0);
      UncaughtSplitUndoesThePush(n, veto, t, k);
      assert !SplitPushes(n, t, k).Idempotent(veto);
    }
  }

  lemma LetterMissing(haystack: string, term: string, q: nat)
    requires q < |term| && term[q] !in haystack
    ensures !Contains(haystack, term)
  {
    forall i | 0 <= i <= |haystack| ensures !StartsWith(haystack[i..], term) {
      if i + |term| <= |haystack| {
        assert haystack[i..][..|term|][q] == haystack[i + q];
      }
    }
  }

  lemma {:induction false} CrossClubSplits(veto: seq<string>)
    requires veto == ["cross club", "ankali", "roxy"]
    ensures Configured(veto) && veto[0] in veto && !SplitCaught(veto[0], 5, veto)
  {
    CrossClubConfigured(veto);
    CrossClubParts(veto[0]);
    hide Contains, Folded, Configured;
  }

  lemma {:induction false} CrossClubConfigured(veto: seq<string>)
    requires veto == ["cross club", "ankali", "roxy"]
    ensures Configured(veto)
  {
    assert Folded(veto[0]) == veto[0] && Folded(veto[1]) == veto[1] && Folded(veto[2]) == veto[2];
  }

  lemma CrossClubParts(t: string)
    requires t == "cross club"
    ensures |t| == 10
    ensures !Contains(t[..6], t) && !Contains(t[..6], "ankali") && !Contains(t[..6], "roxy")
    ensures !Contains(t[5..], t) && !Contains(t[5..], "ankali") && !Contains(t[5..], "roxy")
  {
    assert t[..6] == "cross " && t[5..] == " club";
    hide Contains;
    LetterMissing("cross ", t, 7);
    LetterMissing("cross ", "ankali", 0);
    LetterMissing("cross ", "roxy", 2);
    LetterMissing(" club", t, 1);
    LetterMissing(" club", "ankali", 0);
    LetterMissing(" club", "roxy", 0);
  }

  /** The clubs the project vetoes: a row sourced from "club" and an item at "cross" undo
      the push. */
  lemma {:induction false} CrossClubComesBack(n: Naming, veto: seq<string>)
    requires veto == ["cross club", "ankali", "roxy"]
    ensures var p := SplitPushes(n, veto[0], 5);
            && !SplitsCaught(veto) && p.s.rows == map[0 := SplitRow("club")] && p.items == [SplitItem("cross")]
            && p.Proper(veto) && p.Steady(veto)
            && p.Second(veto).1.counts == Counts(1, 0, 0, 0, 0) && p.Second(veto).1.purged == 1
  {
    CrossClubSplits(veto);
    CutAtSpace(veto[0]);
    hide SplitCaught, Configured, PutPool, PoolHolds.Proper, SplitRow, SplitItem;
    assert veto[0][5] == ' ';
    UncaughtSplitUndoesThePush(n, veto, veto[0], 5);
  }

  lemma CutAtSpace(t: string)
    requires t == "cross club"
    ensures |t| == 10 && t[5] == ' ' && t[..5] == "cross" && t[6..] == "club"
  {
  }
}
