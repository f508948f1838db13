/** Which candidates the veto keeps out: whatever case a name is written in, sent or stored;
    and what the counters of a push count. */
module PoolVeto {
  import opened Wrappers
  import opened Texts
  import opened Pool
  import opened PoolPayload
  import opened PoolIngest

  /** The names a term is looked for in, as they were written. */
  function Names(c: Content): string {
    TextOf(c, Venue).GetOr("") + " " + TextOf(c, SourceName).GetOr("")
  }

  /** A term can be read in the candidate's names, in whatever case. */
  ghost predicate Mentions(c: Content, veto: seq<string>) {
    exists t :: t in veto && Reads(Names(c), t)
  }

  /** What the setting hands over: terms without capitals, none of them empty. */
  predicate Configured(veto: seq<string>) {
    forall t :: t in veto ==> t != "" && NoCapitals(t)
  }

  lemma FoldedIsRead(text: string, i: nat, term: string)
    requires i <= |text| && NoCapitals(term)
    ensures StartsWith(Folded(text)[i..], term) <==> ReadsAt(text, i, term)
  {
    if i + |term| <= |text| {
      var part := text[i..i + |term|];
      forall k | 0 <= k < |term| ensures Folded(text)[i..][..|term|][k] == term[k] <==> SameLetter(part[k], term[k]) {
        LetterFolds(text[i + k], term[k]);
        assert part[k] == text[i + k] && Folded(text)[i..][..|term|][k] == Folded(text)[i + k];
      }
      if ReadsAt(text, i, term) { assert Folded(text)[i..][..|term|] == term; }
      if StartsWith(Folded(text)[i..], term) {
        forall k | 0 <= k < |term| ensures SameLetter(part[k], term[k]) {
          assert Folded(text)[i..][..|term|][k] == term[k];
        }
      }
    }
  }

  lemma LetterFolds(a: char, t: char)
    requires !('A' <= t <= 'Z')
    ensures (if 'A' <= a <= 'Z' then (a as int + 32) as char else a) == t <==> SameLetter(a, t)
  {
  }

  lemma FoldingJoins(a: string, b: string)
    ensures Folded(a) + " " + Folded(b) == Folded(a + " " + b)
  {
  }

  /** The veto looks for its terms letter by letter, and the case of a letter is no
      difference. */
  lemma {:induction false} VetoIgnoresCase(c: Content, veto: seq<string>)
    requires Configured(veto)
    ensures Vetoed(c, veto) <==> Mentions(c, veto)
  {
    var names := Names(c);
    FoldingJoins(TextOf(c, Venue).GetOr(""), TextOf(c, SourceName).GetOr(""));
    assert NameOf(c, Venue) + " " + NameOf(c, SourceName) == Folded(names);
    hide Folded, NameOf, Names, SameLetters, StartsWith;
    forall t | t in veto ensures Contains(Folded(names), t) <==> Reads(names, t) {
      FoldedLength(names);
      if Contains(Folded(names), t) {
        var i :| 0 <= i <= |Folded(names)| && StartsWith(Folded(names)[i..], t);
        FoldedIsRead(names, i, t);
      }
      if Reads(names, t) {
        var i: nat :| ReadsAt(names, i, t);
        FoldedIsRead(names, i, t);
      }
    }
  }

  lemma FoldedLength(s: string)
    ensures |Folded(s)| == |s|
  {
  }

  /** Candidates whose names differ only in case are refused alike. */
  lemma {:induction false} CaseMakesNoDifference(a: Content, b: Content, veto: seq<string>)
    requires SameLetters(Names(a), Names(b))
    ensures Mentions(a, veto) <==> Mentions(b, veto)
  {
    hide Names;
    if Mentions(a, veto) {
      var t :| t in veto && Reads(Names(a), t);
      ReadAlike(Names(a), Names(b), t);
    }
    if Mentions(b, veto) {
      var t :| t in veto && Reads(Names(b), t);
      ReadAlike(Names(b), Names(a), t);
    }
  }

  lemma ReadAlike(a: string, b: string, term: string)
    requires SameLetters(a, b) && Reads(a, term)
    ensures Reads(b, term)
  {
    var i: nat :| ReadsAt(a, i, term);
    forall k | 0 <= k < |term| ensures SameLetter(b[i..i + |term|][k], term[k]) {
      assert SameLetter(a[i + k], b[i + k]);
      assert SameLetter(a[i..i + |term|][k], term[k]);
    }
    assert ReadsAt(b, i, term);
  }

  // --- The setting ------------------------------------------------------------------------------

  /** `split(",")`. */
  function Pieces(setting: string): (r: seq<string>)
    ensures r != []
  {
    if setting == "" then [""]
    else
      var earlier, c := Pieces(setting[..|setting| - 1]), setting[|setting| - 1];
      if c == ',' then earlier + [""] else earlier[|earlier| - 1 := earlier[|earlier| - 1] + [c]]
  }

  function TermsOf(pieces: seq<string>): seq<string> {
    if pieces == [] then []
    else (if Strip(pieces[0]) == "" then [] else [Folded(Strip(pieces[0]))]) + TermsOf(pieces[1..])
  }

  /** `season_venue_veto_terms`. */
  function VetoTerms(setting: string): seq<string> {
    TermsOf(Pieces(setting))
  }

  lemma {:induction false} TermsExactly(pieces: seq<string>, t: string)
    ensures t in TermsOf(pieces) <==> exists piece :: piece in pieces && Strip(piece) != "" && t == Folded(Strip(piece))
    decreases |pieces|
  {
    hide Folded, Strip;
    if pieces != [] {
      assert forall piece :: piece in pieces <==> piece == pieces[0] || piece in pieces[1..];
      TermsExactly(pieces[1..], t);
      if t in TermsOf(pieces[1..]) {
        var piece :| piece in pieces[1..] && Strip(piece) != "" && t == Folded(Strip(piece));
        assert piece in pieces;
      }
      if piece :| piece in pieces && Strip(piece) != "" && t == Folded(Strip(piece)) {
        assert piece == pieces[0] || piece in pieces[1..];
      }
    }
  }

  lemma FoldedHasNoCapitals(s: string)
    ensures NoCapitals(Folded(s)) && SameLetters(Folded(s), s) && |Folded(s)| == |s|
  {
  }

  lemma {:induction false} SettingIsConfigured(setting: string)
    ensures Configured(VetoTerms(setting))
  {
    hide Pieces, Folded, Strip, NoCapitals, SameLetters;
    forall t | t in VetoTerms(setting) ensures t != "" && NoCapitals(t) {
      TermsExactly(Pieces(setting), t);
      var piece :| piece in Pieces(setting) && Strip(piece) != "" && t == Folded(Strip(piece));
      FoldedHasNoCapitals(Strip(piece));
    }
  }

  lemma ReadTheSame(text: string, a: string, b: string)
    requires SameLetters(a, b) && Reads(text, a)
    ensures Reads(text, b)
  {
    var i: nat :| ReadsAt(text, i, a);
    forall k | 0 <= k < |b| ensures SameLetter(text[i..i + |b|][k], b[k]) {
      assert SameLetter(text[i..i + |a|][k], a[k]);
    }
    assert ReadsAt(text, i, b);
  }

  lemma {:induction false} TermIsOfAPiece(setting: string, text: string, t: string) returns (piece: string)
    requires t in VetoTerms(setting) && Reads(text, t)
    ensures piece in Pieces(setting) && Strip(piece) != "" && Reads(text, Strip(piece))
  {
    hide Pieces, Folded, Strip, Reads, SameLetters;
    TermsExactly(Pieces(setting), t);
    piece :| piece in Pieces(setting) && Strip(piece) != "" && t == Folded(Strip(piece));
    FoldedHasNoCapitals(Strip(piece));
    ReadTheSame(text, t, Strip(piece));
  }

  lemma {:induction false} PieceIsATerm(setting: string, text: string, piece: string)
    requires piece in Pieces(setting) && Strip(piece) != "" && Reads(text, Strip(piece))
    ensures Folded(Strip(piece)) in VetoTerms(setting) && Reads(text, Folded(Strip(piece)))
  {
    hide Pieces, Folded, Strip, Reads, SameLetters;
    var t := Folded(Strip(piece));
    TermsExactly(Pieces(setting), t);
    FoldedHasNoCapitals(Strip(piece));
    Mirrored(t, Strip(piece));
    ReadTheSame(text, Strip(piece), t);
  }

  /** The veto refuses exactly the names in which something between two commas of the setting
      can be read, in whatever case either is written. */
  lemma {:induction false} SettingIgnoresCase(setting: string, c: Content)
    ensures Vetoed(c, VetoTerms(setting)) <==>
      exists piece :: piece in Pieces(setting) && Strip(piece) != "" && Reads(Names(c), Strip(piece))
  {
    SettingIsConfigured(setting);
    VetoIgnoresCase(c, VetoTerms(setting));
    hide Vetoed, Pieces, Folded, Strip, Names, Reads, Configured, VetoTerms;
    if Mentions(c, VetoTerms(setting)) {
      var t :| t in VetoTerms(setting) && Reads(Names(c), t);
      var piece := TermIsOfAPiece(setting, Names(c), t);
    }
    if piece :| piece in Pieces(setting) && Strip(piece) != "" && Reads(Names(c), Strip(piece)) {
      PieceIsATerm(setting, Names(c), piece);
    }
  }

  lemma Mirrored(a: string, b: string)
    requires SameLetters(a, b)
    ensures SameLetters(b, a)
  {
  }

  // --- Rows -----------------------------------------------------------------------------------

  lemma {:induction false} DeadStay(n: Naming, w: Work, all: seq<Item>, k: nat, now: Time, hint: nat, x: Id)
    requires k <= |all| && Tidy(n, w, all[k..]) && Separate(n, all) && x in w.season.rows && !Live(w.season.rows, x)
    ensures var rows := IngestAll(w, n, all[k..], now, hint).season.rows; x in rows && rows[x] == w.season.rows[x]
    decreases |all| - k
  {
    SliceSeparate(n, all, k);
    if k < |all| {
      hide Separate, Ingested, Chosen, Tidy, TurnIndexes, Counted, TookUp;
      var id, losers := TurnKeepsTidy(n, w, all[k..], now, hint);
      ChosenBasics(n, w, all[k], id, losers);
      DeadStay(n, Ingested(w, n, all[k], now, hint), all, k + 1, now, hint, x);
    }
  }

  lemma {:induction false} PurgedExactly(rows: map<Id, Row>, veto: seq<string>, now: Time)
    requires Configured(veto)
    ensures var purged := Purged(rows, veto, now);
            && purged.Keys == rows.Keys
            && (forall id :: id in rows ==>
                  purged[id] == if Live(rows, id) && Mentions(rows[id].content, veto)
                                then rows[id].(deletedAt := Some(now), version := rows[id].version + 1) else rows[id])
  {
    forall c ensures Vetoed(c, veto) <==> Mentions(c, veto) { VetoIgnoresCase(c, veto); }
    hide Vetoed, Mentions;
  }

  /** The live rows at a vetoed venue. */
  ghost function Unwanted(rows: map<Id, Row>, veto: seq<string>): set<Id> {
    set id | id in rows && Live(rows, id) && Mentions(rows[id].content, veto)
  }

  lemma {:induction false} UnwantedCount(rows: map<Id, Row>, purged: map<Id, Row>, gone: set<Id>)
    requires purged.Keys == rows.Keys && gone <= LiveIds(rows)
    requires forall id :: Live(purged, id) <==> Live(rows, id) && id !in gone
    ensures |LiveIds(rows)| - |LiveIds(purged)| == |gone|
  {
    assert LiveIds(rows) == LiveIds(purged) + gone;
  }

  /** Whatever is sent, a stored row that mentions a term is retired, once and for all. */
  lemma {:induction false} VetoedRowsGo(n: Naming, s: Season, order: seq<Id>, items: seq<Item>, veto: seq<string>, now: Time,
                                        hint: nat)
    requires ScanOrder(s.rows, order) && Configured(veto)
    ensures var (w, r) := PutPool(n, s, order, items, veto, now, hint);
            && r.purged == |Unwanted(s.rows, veto)|
            && forall id :: id in Unwanted(s.rows, veto) ==>
                 id in w.season.rows
                 && w.season.rows[id] == s.rows[id].(deletedAt := Some(now), version := s.rows[id].version + 1)
  {
    var payload, rows, gone := Payload(n, items, veto), Purged(s.rows, veto, now), Unwanted(s.rows, veto);
    PurgedStartsTidy(n, s, order, items, veto, now);
    PurgedExactly(s.rows, veto, now);
    assert payload[0..] == payload;
    hide Separate, Payload, Purged, Tidy, Mentions, IngestAll, KeyIndex, IdentityIndex, LiveIds, Allowed;
    forall id | id in gone
      ensures var w := PutPool(n, s, order, items, veto, now, hint).0; id in w.season.rows && w.season.rows[id] == rows[id]
    {
      DeadStay(n, PurgedWork(n, s, order, veto, now), payload, 0, now, hint, id);
    }
    hide PurgedWork;
    UnwantedAreLive(s.rows, veto);
    UnwantedCount(s.rows, rows, gone);
  }

  lemma {:induction false} UnwantedAreLive(rows: map<Id, Row>, veto: seq<string>)
    ensures Unwanted(rows, veto) <= LiveIds(rows)
  {
  }

  // --- Items ------------------------------------------------------------------------------------

  /** The places of the payload as sent that the veto refuses. */
  ghost function TurnedAway(items: seq<Item>, veto: seq<string>): set<nat> {
    set i: nat | i < |items| && Mentions(Dumped(items[i]), veto)
  }

  /** The places whose items reach the pool: the last allowed one of its key, if it did not
      give way to another of its identity. */
  ghost function Taken(n: Naming, items: seq<Item>, veto: seq<string>): set<nat> {
    set i: nat | i < |items| && LastAllowed(items, veto, i) && items[i] in Payload(n, items, veto)
  }

  ghost predicate LastAllowed(items: seq<Item>, veto: seq<string>, i: nat)
    requires i < |items|
  {
    && !Mentions(Dumped(items[i]), veto)
    && forall j :: i < j < |items| && items[j].key == items[i].key ==> Mentions(Dumped(items[j]), veto)
  }

  lemma {:induction false} AllowedConcat(a: seq<Item>, b: seq<Item>, veto: seq<string>)
    ensures Allowed(a + b, veto) == Allowed(a, veto) + Allowed(b, veto)
    decreases |a|
  {
    hide Vetoed;
    if a == [] {
      assert a + b == b;
    } else {
      assert (a + b)[1..] == a[1..] + b;
      AllowedConcat(a[1..], b, veto);
    }
  }

  lemma {:induction false} AllowedThenOne(earlier: seq<Item>, last: Item, veto: seq<string>)
    requires Configured(veto)
    ensures Allowed(earlier + [last], veto) == Allowed(earlier, veto) + if Mentions(Dumped(last), veto) then [] else [last]
  {
    VetoIgnoresCase(Dumped(last), veto);
    hide Vetoed, Mentions, Dumped;
    AllowedConcat(earlier, [last], veto);
    assert [last][1..] == [];
    assert Allowed([last], veto) == if Vetoed(Dumped(last), veto) then [] else [last];
  }

  lemma {:induction false} AllowedCounts(items: seq<Item>, veto: seq<string>)
    requires Configured(veto)
    ensures |items| - |Allowed(items, veto)| == |TurnedAway(items, veto)|
  {
    hide Mentions, Dumped;
    if items == [] {
      assert TurnedAway(items, veto) == {};
    } else {
      var earlier, last := items[..|items| - 1], items[|items| - 1];
      assert items == earlier + [last];
      AllowedCounts(earlier, veto);
      AllowedThenOne(earlier, last, veto);
      hide Allowed;
      assert TurnedAway(items, veto) == TurnedAway(earlier, veto) + if Mentions(Dumped(last), veto) then {|earlier|} else {};
    }
  }

  // The last allowed item under a key, by its place.
  lemma {:induction false} LastIsSomewhere(items: seq<Item>, veto: seq<string>, x: Item) returns (i: nat)
    requires Configured(veto) && LastPerKey(Allowed(items, veto), x.key) == Some(x)
    ensures i < |items| && items[i] == x && LastAllowed(items, veto, i)
  {
    var earlier, last := items[..|items| - 1], items[|items| - 1];
    assert items == earlier + [last];
    AllowedThenOne(earlier, last, veto);
    hide Vetoed, Mentions, Dumped, Allowed;
    if !Mentions(Dumped(last), veto) && last.key == x.key {
      i := |earlier|;
      assert (Allowed(earlier, veto) + [last])[|Allowed(earlier, veto)|] == last;
    } else {
      if !Mentions(Dumped(last), veto) {
        assert (Allowed(earlier, veto) + [last])[..|Allowed(earlier, veto)|] == Allowed(earlier, veto);
      } else {
        assert Allowed(earlier, veto) + [] == Allowed(earlier, veto);
      }
      i := LastIsSomewhere(earlier, veto, x);
    }
  }

  lemma {:induction false} SizeOfTable(table: seq<Item>)
    requires KeysDiffer(table)
    ensures |Keys(table)| == |table|
    decreases |table|
  {
    if table != [] {
      assert table == [table[0]] + table[1..];
      HeadAndTail(table[0], table[1..]);
      SizeOfTable(table[1..]);
    }
  }

  lemma {:induction false} ImageSize(places: set<nat>, items: seq<Item>, keys: set<string>)
    requires forall i :: i in places ==> i < |items|
    requires forall i, j :: i in places && j in places && items[i].key == items[j].key ==> i == j
    requires forall k :: k in keys <==> exists i :: i in places && items[i].key == k
    ensures |keys| == |places|
    decreases places
  {
    if places == {} {
      assert keys == {};
    } else {
      var x :| x in places;
      var key := items[x].key;
      assert key in keys;
      forall k ensures k in keys - {key} <==> exists i :: i in places - {x} && items[i].key == k {
        if k in keys - {key} {
          var i :| i in places && items[i].key == k;
          assert i in places - {x};
        }
      }
      ImageSize(places - {x}, items, keys - {key});
    }
  }

  lemma {:induction false} TakenCounts(n: Naming, items: seq<Item>, veto: seq<string>)
    requires Configured(veto)
    ensures |Taken(n, items, veto)| == |Payload(n, items, veto)|
  {
    var payload, places := Payload(n, items, veto), Taken(n, items, veto);
    PayloadIsSeparate(n, items, veto);
    assert KeysDiffer(payload);
    hide Payload, Separate, Vetoed, Dumped, Mentions, Allowed, KeysDiffer;
    SizeOfTable(payload);
    forall k ensures k in Keys(payload) <==> exists i :: i in places && items[i].key == k {
      if k in Keys(payload) {
        var x :| x in payload && x.key == k;
        var i := LastIsSomewhere(items, veto, x);
        assert i in places;
      }
    }
    forall i, j | i in places && j in places && items[i].key == items[j].key ensures i == j {
      assert LastAllowed(items, veto, i) && LastAllowed(items, veto, j);
    }
    ImageSize(places, items, Keys(payload));
  }

  /** The places of the items that gave way to a later one of their key or identity. */
  ghost function GaveWay(n: Naming, items: seq<Item>, veto: seq<string>): set<nat> {
    set i: nat | i < |items| && i !in TurnedAway(items, veto) && i !in Taken(n, items, veto)
  }

  function Upto(k: nat): (s: set<nat>)
    ensures |s| == k && forall i: nat :: i in s <==> i < k
  {
    if k == 0 then {} else Upto(k - 1) + {k - 1}
  }

  lemma {:induction false} PlacesAddUp(n: Naming, items: seq<Item>, veto: seq<string>)
    ensures TurnedAway(items, veto) !! Taken(n, items, veto)
    ensures |TurnedAway(items, veto)| + |Taken(n, items, veto)| + |GaveWay(n, items, veto)| == |items|
  {
    hide Mentions, Dumped, Payload;
    var refused, taken, rest := TurnedAway(items, veto), Taken(n, items, veto), GaveWay(n, items, veto);
    assert refused !! taken && refused + taken !! rest;
    hide TurnedAway, Taken, GaveWay;
    forall i: nat ensures i in Upto(|items|) <==> i in refused + taken + rest {
      hide Upto;
      InOneOfThem(n, items, veto, i);
    }
    assert Upto(|items|) == refused + taken + rest;
  }

  lemma {:induction false} InOneOfThem(n: Naming, items: seq<Item>, veto: seq<string>, i: nat)
    ensures i < |items| <==> i in TurnedAway(items, veto) || i in Taken(n, items, veto) || i in GaveWay(n, items, veto)
  {
    hide Mentions, Dumped, Payload;
  }

  /** Of the items sent, `vetoed` counts those the veto refuses, `total` those that reach the
      pool, and `collapsed` all others, which gave way to a later one. What reaches the pool
      mentions no term. */
  lemma {:induction false} EveryItemIsCounted(n: Naming, s: Season, order: seq<Id>, items: seq<Item>, veto: seq<string>, now: Time,
                                              hint: nat)
    requires Configured(veto)
    ensures var r := PutPool(n, s, order, items, veto, now, hint).1;
            && r.vetoed == |TurnedAway(items, veto)| && r.total == |Taken(n, items, veto)|
            && r.collapsed == |GaveWay(n, items, veto)| && TurnedAway(items, veto) !! Taken(n, items, veto)
    ensures forall x :: x in Payload(n, items, veto) ==> x in items && !Mentions(Dumped(x), veto)
  {
    PayloadIsSeparate(n, items, veto);
    AllowedCounts(items, veto);
    TakenCounts(n, items, veto);
    PlacesAddUp(n, items, veto);
    hide TurnedAway, Taken, GaveWay, Payload, Allowed, Mentions, Vetoed, Dumped, IngestAll, PurgedWork, Purged;
    forall x | x in Payload(n, items, veto) ensures !Mentions(Dumped(x), veto) { VetoIgnoresCase(Dumped(x), veto); }
  }

  lemma {:induction false} PlaceIsLast(items: seq<Item>, veto: seq<string>, i: nat)
    requires Configured(veto) && i < |items| && LastAllowed(items, veto, i)
    ensures LastPerKey(Allowed(items, veto), items[i].key) == Some(items[i])
  {
    var earlier, last := items[..|items| - 1], items[|items| - 1];
    assert items == earlier + [last];
    AllowedThenOne(earlier, last, veto);
    hide Vetoed, Mentions, Dumped, Allowed;
    if i == |earlier| {
      assert (Allowed(earlier, veto) + [last])[|Allowed(earlier, veto)|] == last;
    } else {
      assert LastAllowed(earlier, veto, i);
      PlaceIsLast(earlier, veto, i);
      if !Mentions(Dumped(last), veto) {
        assert (Allowed(earlier, veto) + [last])[..|Allowed(earlier, veto)|] == Allowed(earlier, veto);
      } else {
        assert Allowed(earlier, veto) + [] == Allowed(earlier, veto);
      }
    }
  }

  /** Another item of the page and day reaches the pool. */
  ghost predicate Outdone(n: Naming, items: seq<Item>, veto: seq<string>, x: Item) {
    Named(n, x).Some? && exists y :: y in Payload(n, items, veto) && y != x && Named(n, y) == Named(n, x)
  }

  /** An allowed item gives way exactly to a later allowed one of its key, or to another of
      its page and day. */
  lemma {:induction false} GivesWayExactly(n: Naming, items: seq<Item>, veto: seq<string>, i: nat)
    requires Configured(veto) && i < |items| && !Mentions(Dumped(items[i]), veto)
    ensures i in GaveWay(n, items, veto) <==> !LastAllowed(items, veto, i) || Outdone(n, items, veto, items[i])
  {
    var x, payload := items[i], Payload(n, items, veto);
    VetoIgnoresCase(Dumped(x), veto);
    PayloadIsSeparate(n, items, veto);
    hide Vetoed, Dumped, Mentions, Payload, Allowed, Named;
    assert i in Taken(n, items, veto) <==> LastAllowed(items, veto, i) && x in payload;
    if LastAllowed(items, veto, i) {
      PlaceIsLast(items, veto, i);
      var last := PayloadRepresents(n, items, veto, x);
      if x in payload && Named(n, x).Some? {
        forall y | y in payload && y != x ensures Named(n, y) != Named(n, x) { NoTwoOfOneName(n, payload, x, y); }
      }
    }
  }

  lemma {:induction false} NoTwoOfOneName(n: Naming, payload: seq<Item>, x: Item, y: Item)
    requires Separate(n, payload) && x in payload && y in payload && x != y && Named(n, x).Some?
    ensures Named(n, x) != Named(n, y)
  {
    hide Named;
    var i :| 0 <= i < |payload| && payload[i] == x;
    var j :| 0 <= j < |payload| && payload[j] == y;
  }

  // --- The clubs the project vetoes ---------------------------------------------------------------

  /** A night at the Cross Club, however the club is spelt. */
  function ClubNight(venue: string): Item {
    Item(KEY, 0, map[Lane := Some(Text("elektronika")), Title := Some(Text("t")), Venue := Some(Text(venue))])
  }

  lemma NightIsNamed(venue: string)
    ensures Names(Dumped(ClubNight(venue))) == venue + " "
  {
    assert TextOf(Dumped(ClubNight(venue)), Venue) == Some(venue);
    assert TextOf(Dumped(ClubNight(venue)), SourceName) == None;
  }

  lemma ClubIsRead()
    ensures Reads("Cross Club ", "cross club")
  {
    assert "Cross Club "[0..10] == "Cross Club";
    assert ReadsAt("Cross Club ", 0, "cross club");
  }

  /** "Cross Club" is refused where the setting says "cross club", whatever is stored. */
  lemma {:induction false} CrossClubIsRefused(n: Naming, s: Season, order: seq<Id>, veto: seq<string>, now: Time, hint: nat)
    requires veto == ["cross club", "ankali", "roxy"] && ScanOrder(s.rows, order)
    ensures Configured(veto)
    ensures var r := PutPool(n, s, order, [ClubNight("Cross Club")], veto, now, hint).1;
            r.vetoed == 1 && r.total == 0 && r.counts.created == 0
  {
    var night := ClubNight("Cross Club");
    NightIsRefused(veto);
    hide ClubNight, Configured, Vetoed;
    AloneAndRefused(n, night, veto);
  }

  lemma {:induction false} NightIsRefused(veto: seq<string>)
    requires veto == ["cross club", "ankali", "roxy"]
    ensures Configured(veto) && Vetoed(Dumped(ClubNight("Cross Club")), veto)
  {
    assert Configured(veto) by { assert NoCapitals(veto[0]) && NoCapitals(veto[1]) && NoCapitals(veto[2]); }
    NightIsNamed("Cross Club");
    assert "Cross Club" + " " == "Cross Club ";
    assert veto[0] in veto && Reads("Cross Club ", veto[0]) by { ClubIsRead(); }
    hide ClubNight, Reads, Configured, Vetoed;
    assert Mentions(Dumped(ClubNight("Cross Club")), veto);
    VetoIgnoresCase(Dumped(ClubNight("Cross Club")), veto);
  }

  lemma {:induction false} AloneAndRefused(n: Naming, item: Item, veto: seq<string>)
    requires Vetoed(Dumped(item), veto)
    ensures Allowed([item], veto) == [] && Payload(n, [item], veto) == []
  {
    hide Vetoed, Dumped;
    assert [item][1..] == [];
  }
}
