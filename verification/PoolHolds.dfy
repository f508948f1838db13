/** When a push leaves every item of its payload in the pool. A key may come back with
    another page, as the skill that fills the pool reuses keys across sources: then a row
    can be one item's by its key and another's by its identity, and the order of the two
    decides what becomes of it. */
module PoolHolds {
  import opened Wrappers
  import opened Pool
  import opened PoolPayload
  import opened PoolIngest
  import opened PoolMarks
  import opened PoolScenarios

  // --- Before the first turn ---------------------------------------------------------------

  /** A push before its first turn: the purged pool, the order it was read in, the payload. */
  datatype Case = Case(n: Naming, rows: map<Id, Row>, live: seq<Id>, items: seq<Item>) {
    ghost predicate Valid() {
      && ScanOrder(rows, live) && UniqueKeys(rows) && Separate(n, items)
      && forall i :: 0 <= i < |live| ==> live[i] in rows
    }

    function Name(b: nat): Option<Identity>
      requires b < |items|
    {
      Named(n, items[b])
    }

    predicate HasKey(x: Id, a: nat) {
      a < |items| && Live(rows, x) && rows[x].key == items[a].key
    }

    predicate HasName(x: Id, b: nat) {
      b < |items| && Live(rows, x) && Name(b).Some? && IdentityOf(n, rows[x].content) == Name(b)
    }

    /** The row is one item's by its key and another's by its identity. */
    predicate Shared(x: Id, a: nat, b: nat) {
      a != b && HasKey(x, a) && HasName(x, b)
    }

    /** The row has the item's key, and none of the first `k` items its identity. */
    ghost predicate Waits(x: Id, a: nat, k: nat) {
      HasKey(x, a) && forall c: nat :: c < k ==> !HasName(x, c)
    }

    ghost predicate Owns(x: Id, a: nat) {
      Waits(x, a, a)
    }

    function Start(): Work
      requires forall i :: 0 <= i < |live| ==> live[i] in rows
    {
      Prepared(n, Season(rows, map[]), live)
    }

    /** The stored rows of the item's identity. */
    function Group(b: nat): seq<Id>
      requires b < |items| && forall i :: 0 <= i < |live| ==> live[i] in rows
    {
      TwinsOf(Start(), Name(b))
    }

    /** No row is the item's by its key, and this is the last seen of its identity. */
    ghost predicate Adopts(b: nat, x: Id)
      requires forall i :: 0 <= i < |live| ==> live[i] in rows
    {
      && b < |items| && (forall y :: !Owns(y, b))
      && Group(b) != [] && (forall i :: 0 <= i < |Group(b)| ==> Group(b)[i] in rows) && x == LatestSeen(rows, Group(b))
    }

    /** The item of the key comes before that of the identity. */
    ghost predicate KeyFirst() {
      exists x, a, b :: a < b && Shared(x, a, b)
    }

    ghost predicate Rekeys(x: Id, a: nat, b: nat)
      requires forall i :: 0 <= i < |live| ==> live[i] in rows
    {
      Shared(x, a, b) && Adopts(b, x)
    }

    /** A shared row does no harm where the item of its identity comes first and folds it
        into another row. */
    ghost predicate Harmless()
      requires forall i :: 0 <= i < |live| ==> live[i] in rows
    {
      !KeyFirst() && forall x, a, b :: !Rekeys(x, a, b)
    }

    /** What turn `j` may touch, once `k` turns are over. */
    ghost predicate Reserved(x: Id, j: nat, k: nat) {
      k <= j && (HasName(x, j) || Waits(x, j, k))
    }
  }

  function Joined(home: map<Id, Id>, id: Id): set<Id> {
    set x | x in home && home[x] == id && x != id
  }

  ghost predicate Pristine(c: Case, w: Work, x: Id) {
    && x in c.rows && x in w.season.rows && w.season.rows[x] == c.rows[x]
    && x in w.home && w.home[x] == x && Joined(w.home, x) == {}
  }

  /** After `k` turns: what the turns to come rely on is as it was. */
  ghost predicate Poised(c: Case, w: Work, k: nat)
    requires c.Valid() && k <= |c.items|
  {
    && Tidy(c.n, w, c.items[k..]) && KeysIndexed(w) && Homes(w.season.rows, w.home)
    && w.home.Keys == LiveIds(c.rows) && c.rows.Keys <= w.season.rows.Keys
    && (forall j, x :: c.Reserved(x, j, k) ==> Pristine(c, w, x))
    && (forall j: nat :: k <= j < |c.items| ==> GroupOf(w, c.Name(j)) == GroupOf(c.Start(), c.Name(j)))
    && (forall j: nat :: k <= j < |c.items| ==> KeyAsExpected(c, w, j, k))
  }

  ghost predicate KeyAsExpected(c: Case, w: Work, j: nat, k: nat)
    requires j < |c.items|
  {
    && (forall x :: c.Waits(x, j, k) ==> c.items[j].key in w.byKey && w.byKey[c.items[j].key] == x)
    && (c.items[j].key in w.byKey ==> exists x :: c.Waits(x, j, k))
  }

  // --- Lists of rows that did not change ------------------------------------------------------

  lemma {:induction false} LiveOnlySame(rows: map<Id, Row>, rows': map<Id, Row>, ids: seq<Id>)
    requires forall x :: x in ids ==> x in rows && x in rows' && rows'[x] == rows[x]
    ensures LiveOnly(rows', ids) == LiveOnly(rows, ids)
    decreases |ids|
  {
    if ids != [] {
      assert forall x :: x in ids[1..] ==> x in ids;
      LiveOnlySame(rows, rows', ids[1..]);
    }
  }

  lemma {:induction false} LatestSeenSame(rows: map<Id, Row>, rows': map<Id, Row>, ids: seq<Id>)
    requires ids != [] && forall i :: 0 <= i < |ids| ==> ids[i] in rows && ids[i] in rows' && rows'[ids[i]] == rows[ids[i]]
    ensures LatestSeen(rows', ids) == LatestSeen(rows, ids)
    decreases |ids|
  {
    if |ids| > 1 { LatestSeenSame(rows, rows', ids[..|ids| - 1]); }
  }

  lemma GroupIsNamed(c: Case, b: nat)
    requires c.Valid() && b < |c.items|
    ensures Distinct(GroupOf(c.Start(), c.Name(b)))
    ensures forall x :: x in GroupOf(c.Start(), c.Name(b)) <==> c.HasName(x, b)
  {
    StartGroup(c.n, Season(c.rows, map[]), c.live, c.Name(b));
  }

  // --- What a turn comes to --------------------------------------------------------------------

  /** The rows of a turn: the item's own by its key, else the one it adopts, else a new one;
      all are as they were. */
  ghost predicate Came(c: Case, w: Work, k: nat, id: Id, losers: seq<Id>)
    requires c.Valid() && k < |c.items|
  {
    && (forall l :: l in losers ==> c.HasName(l, k) && Pristine(c, w, l))
    && (forall x :: c.HasName(x, k) ==> x in losers || x == id)
    && (if c.items[k].key in w.byKey then c.Owns(id, k) && Pristine(c, w, id)
        else if id in w.season.rows then c.Adopts(k, id) && c.HasName(id, k) && Pristine(c, w, id)
        else id !in c.rows && forall x :: !c.Owns(x, k) && !c.HasName(x, k))
  }

  // The stored rows of an identity are still those, and the last seen of them the same.
  lemma TwinsStand(c: Case, w: Work, k: nat)
    requires c.Valid() && k < |c.items| && GroupOf(w, c.Name(k)) == GroupOf(c.Start(), c.Name(k))
    requires forall x :: c.HasName(x, k) ==> Pristine(c, w, x)
    ensures TwinsOf(w, c.Name(k)) == c.Group(k) && forall x :: x in c.Group(k) <==> c.HasName(x, k)
    ensures forall i :: 0 <= i < |c.Group(k)| ==> c.Group(k)[i] in c.rows
    ensures c.Group(k) != [] ==> LatestSeen(w.season.rows, TwinsOf(w, c.Name(k))) == LatestSeen(c.rows, c.Group(k))
  {
    GroupIsNamed(c, k);
    LiveOnlySame(c.rows, w.season.rows, GroupOf(w, c.Name(k)));
    var group := c.Group(k);
    forall i | 0 <= i < |group| ensures Pristine(c, w, group[i]) { assert group[i] in group; }
    if group != [] { LatestSeenSame(c.rows, w.season.rows, group); }
  }

  // What `Poised` says about the turn that is next.
  lemma PoisedNow(c: Case, w: Work, k: nat)
    requires c.Valid() && k < |c.items| && Poised(c, w, k)
    ensures forall x :: c.HasName(x, k) || c.Owns(x, k) ==> Pristine(c, w, x)
    ensures KeyAsExpected(c, w, k, k) && GroupOf(w, c.Name(k)) == GroupOf(c.Start(), c.Name(k))
    ensures KeysLive(w) && Awaited(c.n, w, c.items[k]) && Homes(w.season.rows, w.home) && c.rows.Keys <= w.season.rows.Keys
    ensures c.items[k..] != [] && c.items[k..][0] == c.items[k]
  {
    forall x | c.HasName(x, k) || c.Owns(x, k) ensures Pristine(c, w, x) { assert c.Reserved(x, k, k); }
    assert c.items[k..][0] == c.items[k];
    hide Pristine, KeyAsExpected, Awaited, GroupsApart, KeysIndexed, GroupOf, Homes;
  }

  lemma {:induction false} LosersCome(c: Case, w: Work, k: nat, id: Id, losers: seq<Id>)
    requires c.Valid() && k < |c.items| && Poised(c, w, k) && Chosen(c.n, w, c.items[k], id, losers)
    ensures forall l :: l in losers ==> c.HasName(l, k) && Pristine(c, w, l)
    ensures forall x :: c.HasName(x, k) ==> x in losers || x == id
    ensures c.items[k].key !in w.byKey && id in w.season.rows ==> c.HasName(id, k)
    ensures c.items[k].key in w.byKey ==> w.byKey[c.items[k].key] == id
    ensures c.items[k].key !in w.byKey && id !in w.season.rows ==> forall x :: !c.HasName(x, k)
  {
    PoisedNow(c, w, k);
    GroupIsNamed(c, k);
    ChosenBasics(c.n, w, c.items[k], id, losers);
    hide Poised, Chosen, GroupOf, KeyAsExpected, Awaited, KeysLive, Case.Start, Distinct, Case.Owns;
    forall x | c.HasName(x, k) ensures Live(w.season.rows, x) { assert Pristine(c, w, x); }
    hide Pristine;
  }

  lemma {:induction false} AdoptedComes(c: Case, w: Work, k: nat, id: Id, losers: seq<Id>)
    requires c.Valid() && k < |c.items| && Poised(c, w, k) && Chosen(c.n, w, c.items[k], id, losers)
    requires c.items[k].key !in w.byKey && id in w.season.rows
    ensures c.Adopts(k, id)
  {
    PoisedNow(c, w, k);
    assert forall y :: !c.Owns(y, k);
    hide Poised, KeyAsExpected, Case.Owns;
    TwinsStand(c, w, k);
    hide Chosen, TwinsOf, LatestSeen, GroupOf, Pristine, Awaited, KeysLive, Homes, Case.Start, Case.Group, Case.HasName;
    ChosenAdopts(c.n, w, c.items[k], id, losers);
  }

  lemma {:induction false} Comes(c: Case, w: Work, k: nat, id: Id, losers: seq<Id>)
    requires c.Valid() && k < |c.items| && Poised(c, w, k) && Chosen(c.n, w, c.items[k], id, losers)
    ensures Came(c, w, k, id, losers)
  {
    hide Poised, Chosen, Pristine, Awaited, KeysLive, GroupOf, Case.HasName, Case.Start, Case.Adopts;
    PoisedNow(c, w, k);
    LosersCome(c, w, k, id, losers);
    if c.items[k].key !in w.byKey && id in w.season.rows { AdoptedComes(c, w, k, id, losers); }
  }

  // --- From turn to turn ---------------------------------------------------------------------------

  // Rows nothing was folded into yet: the losers are all there is to join the winner.
  lemma {:induction false} LosersJoin(home: map<Id, Id>, losers: seq<Id>, id: Id)
    requires Distinct(losers) && id !in losers
    requires forall x :: x in losers ==> x in home && home[x] == x && Joined(home, x) == {}
    requires Joined(home, id) == {}
    ensures Joined(Rehoused(home, losers, id), id) == AsSet(losers) && |AsSet(losers)| == |losers|
    ensures forall x :: x !in losers && x != id ==> Joined(Rehoused(home, losers, id), x) == Joined(home, x)
  {
    SizeOfDistinct(losers);
    var home' := Rehoused(home, losers, id);
    forall x ensures x in Joined(home', id) <==> x in losers {
      if x in home {
        assert x != home[x] ==> x in Joined(home, home[x]);
      }
      assert x !in Joined(home, id);
    }
    forall x | x !in losers && x != id ensures Joined(home', x) == Joined(home, x) {
      assert forall y :: y in Joined(home', x) <==> y in Joined(home, x);
    }
  }

  lemma {:induction false} ItemsDiffer(c: Case, i: nat, j: nat)
    requires c.Valid() && i < |c.items| && j < |c.items| && i != j
    ensures c.items[i].key != c.items[j].key && (c.Name(i).Some? ==> c.Name(i) != c.Name(j))
  {
  }

  // A row has at most one item's key and at most one item's name.
  lemma {:induction false} OneKeyOneName(c: Case, x: Id, i: nat, j: nat)
    requires c.Valid() && i != j
    ensures !(c.HasKey(x, i) && c.HasKey(x, j)) && !(c.HasName(x, i) && c.HasName(x, j))
  {
    if i < |c.items| && j < |c.items| { ItemsDiffer(c, i, j); }
  }

  /** What a later turn relies on, this turn does not touch. */
  lemma {:induction false} LaterUntouched(c: Case, w: Work, k: nat, id: Id, losers: seq<Id>, j: nat, x: Id)
    requires c.Valid() && k < |c.items| && Came(c, w, k, id, losers) && !c.KeyFirst() && c.Reserved(x, j, k + 1)
    ensures x !in losers && x != id && c.Reserved(x, j, k)
  {
    OneKeyOneName(c, x, j, k);
    assert !c.Shared(x, k, j);
    hide Pristine, Case.Adopts, Case.KeyFirst;
  }

  /** The rows around a turn. */
  ghost predicate Turned(c: Case, w: Work, w': Work, k: nat, now: Time, id: Id, losers: seq<Id>)
    requires c.Valid() && k < |c.items|
  {
    && Poised(c, w, k) && Came(c, w, k, id, losers) && Chosen(c.n, w, c.items[k], id, losers)
    && TurnDone(c.n, w, w', c.items[k], now, id, losers)
  }

  lemma {:induction false} NothingJoined(c: Case, w: Work, k: nat, id: Id, losers: seq<Id>)
    requires c.Valid() && k < |c.items| && Came(c, w, k, id, losers) && Homes(w.season.rows, w.home)
    requires id !in w.season.rows || Pristine(c, w, id)
    ensures Joined(w.home, id) == {}
  {
  }

  lemma {:induction false} OtherRowsStay(c: Case, w: Work, w': Work, k: nat, now: Time, id: Id, losers: seq<Id>, x: Id)
    requires c.Valid() && k < |c.items| && Turned(c, w, w', k, now, id, losers)
    requires x !in losers && x != id && x in w.season.rows
    ensures x in w'.season.rows && w'.season.rows[x] == w.season.rows[x]
    ensures x in w'.home <==> x in w.home
    ensures x in w.home && w.home[x] == x ==> w'.home[x] == x
    ensures Joined(w'.home, x) == Joined(w.home, x)
  {
    ChosenBasics(c.n, w, c.items[k], id, losers);
    PoisedNow(c, w, k);
    assert id !in w.season.rows || Pristine(c, w, id);
    NothingJoined(c, w, k, id, losers);
    assert w'.home == Rehoused(w.home, losers, id);
    hide Poised, Chosen, TurnIndexes, Counted, TookUp, Joined, Homes, Case.HasName, Case.Owns, Case.Adopts, Awaited, KeyAsExpected;
    LosersJoin(w.home, losers, id);
  }

  lemma {:induction false} HomesFollow(rows: map<Id, Row>, rows': map<Id, Row>, home: map<Id, Id>, losers: seq<Id>, id: Id)
    requires Homes(rows, home) && home.Keys <= rows.Keys <= rows'.Keys && id !in losers && (id in rows ==> Live(rows, id))
    requires forall x :: Live(rows', x) <==> x == id || (Live(rows, x) && x !in losers)
    ensures Homes(rows', Rehoused(home, losers, id))
  {
  }

  lemma {:induction false} TurnKeepsHomes(c: Case, w: Work, w': Work, k: nat, now: Time, id: Id, losers: seq<Id>)
    requires c.Valid() && k < |c.items| && Turned(c, w, w', k, now, id, losers)
    ensures Homes(w'.season.rows, w'.home)
  {
    hide Poised, Chosen, TurnRows, Counted, Came, Awaited, KeyAsExpected, Homes, GroupOf;
    ChosenBasics(c.n, w, c.items[k], id, losers);
    TurnLives(c.n, w, w', c.items[k], now, id, losers);
    PoisedNow(c, w, k);
    HomesFollow(w.season.rows, w'.season.rows, w.home, losers, id);
  }

  // The key of an item to come leads where it did, and nowhere once its row was folded.
  lemma {:induction false} KeyStillLeads(c: Case, w: Work, k: nat, id: Id, losers: seq<Id>, j: nat, k': nat, x: Id)
    requires c.Valid() && k < j < |c.items| && k' == k + 1 && Came(c, w, k, id, losers) && KeyAsExpected(c, w, j, k)
    requires c.Waits(x, j, k')
    ensures c.items[j].key in w.byKey && w.byKey[c.items[j].key] == x && c.items[j].key !in KeysOf(w.season.rows, losers)
  {
    assert c.Waits(x, j, k) && !c.HasName(x, k);
    forall l | l in losers && l in w.season.rows ensures w.season.rows[l].key != c.items[j].key {
      assert Pristine(c, w, l) && c.HasName(l, k);
    }
    hide Came, Pristine, KeyAsExpected;
  }

  lemma {:induction false} KeyStillFree(c: Case, w: Work, k: nat, id: Id, losers: seq<Id>, j: nat, k': nat)
    requires c.Valid() && k < j < |c.items| && k' == k + 1 && Came(c, w, k, id, losers) && KeyAsExpected(c, w, j, k)
    requires forall x, a :: !c.Rekeys(x, a, k)
    requires c.items[j].key in w.byKey && c.items[j].key !in KeysOf(w.season.rows, losers)
    ensures exists x :: c.Waits(x, j, k')
  {
    var x :| c.Waits(x, j, k);
    OneKeyOneName(c, x, j, k);
    assert !c.Rekeys(x, j, k);
    hide Case.Adopts;
    assert x in losers ==> Pristine(c, w, x);
    assert !c.HasName(x, k);
    hide Pristine, Came;
    assert c.Waits(x, j, k');
  }

  lemma {:induction false} KeyStaysExpected(c: Case, w: Work, w': Work, k: nat, now: Time, id: Id, losers: seq<Id>, j: nat)
    requires c.Valid() && k < j < |c.items| && Turned(c, w, w', k, now, id, losers)
    requires forall x, a :: !c.Rekeys(x, a, k)
    ensures KeyAsExpected(c, w', j, k + 1)
  {
    ItemsDiffer(c, j, k);
    assert KeyAsExpected(c, w, j, k);
    assert w'.byKey == w.byKey[c.items[k].key := id] - KeysOf(w.season.rows, losers);
    hide Poised, Chosen, TurnDone, Case.Adopts, Turned, Came, Case.Waits, KeysOf, KeyAsExpected;
    var k' := k + 1;
    assert KeyAsExpected(c, w', j, k') by { KeyNext(c, w, w', k, id, losers, j, k'); }
  }

  lemma {:induction false} KeyNext(c: Case, w: Work, w': Work, k: nat, id: Id, losers: seq<Id>, j: nat, k': nat)
    requires c.Valid() && k < j < |c.items| && k' == k + 1 && Came(c, w, k, id, losers) && KeyAsExpected(c, w, j, k)
    requires forall x, a :: !c.Rekeys(x, a, k)
    requires w'.byKey == w.byKey[c.items[k].key := id] - KeysOf(w.season.rows, losers) && c.items[j].key != c.items[k].key
    ensures KeyAsExpected(c, w', j, k')
  {
    hide Came, Case.Waits, KeysOf, Case.Rekeys;
    forall x | c.Waits(x, j, k') ensures c.items[j].key in w'.byKey && w'.byKey[c.items[j].key] == x {
      KeyStillLeads(c, w, k, id, losers, j, k', x);
    }
    if c.items[j].key in w'.byKey { KeyStillFree(c, w, k, id, losers, j, k'); }
  }

  // The parts of the invariant the next state inherits, one by one.
  lemma {:induction false} PoisedNext(c: Case, w: Work, w': Work, k: nat, now: Time, id: Id, losers: seq<Id>, k': nat)
    requires c.Valid() && k < |c.items| && k' == k + 1 && Turned(c, w, w', k, now, id, losers)
    requires !c.KeyFirst() && forall x, a :: !c.Rekeys(x, a, k)
    ensures forall j: nat :: k' <= j < |c.items| ==> GroupOf(w', c.Name(j)) == GroupOf(c.Start(), c.Name(j))
    ensures forall j: nat :: k' <= j < |c.items| ==> KeyAsExpected(c, w', j, k')
    ensures forall j, x :: c.Reserved(x, j, k') ==> Pristine(c, w', x)
  {
    assert forall j: nat :: k <= j < |c.items| ==> GroupOf(w, c.Name(j)) == GroupOf(c.Start(), c.Name(j));
    assert TurnIndexes(c.n, w, w', c.items[k], id, losers);
    hide Poised, Chosen, Came, Turned, Case.KeyFirst, Case.Rekeys, TurnDone, TurnIndexes, GroupOf, KeyAsExpected, Case.Reserved, Pristine;
    forall j: nat | k' <= j < |c.items|
      ensures GroupOf(w', c.Name(j)) == GroupOf(c.Start(), c.Name(j)) && KeyAsExpected(c, w', j, k')
    {
      ItemsDiffer(c, k, j);
      GroupsStay(c.n, w, w', c.items[k], id, losers, c.Name(j));
      KeyStaysExpected(c, w, w', k, now, id, losers, j);
    }
    forall j, x | c.Reserved(x, j, k') ensures Pristine(c, w', x) {
      StaysPristine(c, w, w', k, now, id, losers, j, x);
    }
  }

  lemma {:induction false} TurnKeepsPoised(c: Case, w: Work, k: nat, now: Time, hint: nat) returns (id: Id, losers: seq<Id>)
    requires c.Valid() && k < |c.items| && Poised(c, w, k)
    requires !c.KeyFirst() && forall x, a :: !c.Rekeys(x, a, k)
    ensures Turned(c, w, Ingested(w, c.n, c.items[k], now, hint), k, now, id, losers)
    ensures Poised(c, Ingested(w, c.n, c.items[k], now, hint), k + 1)
  {
    SliceSeparate(c.n, c.items, k);
    assert Tidy(c.n, w, c.items[k..]) && KeysIndexed(w) && w.home.Keys == LiveIds(c.rows) && c.rows.Keys <= w.season.rows.Keys;
    hide Poised, Ingested, Chosen, TurnDone, Tidy, KeysIndexed, Case.KeyFirst, Case.Rekeys, LiveIds;
    id, losers := TurnKeepsTidy(c.n, w, c.items[k..], now, hint);
    var w' := Ingested(w, c.n, c.items[k], now, hint);
    Comes(c, w, k, id, losers);
    TurnKeepsKeys(c.n, w, w', c.items[k], now, id, losers);
    TurnLives(c.n, w, w', c.items[k], now, id, losers);
    hide Came;
    TurnKeepsHomes(c, w, w', k, now, id, losers);
    PoisedNext(c, w, w', k, now, id, losers, k + 1);
    hide Turned;
    PoisedFrom(c, w', k + 1);
  }

  lemma PoisedFrom(c: Case, w: Work, k: nat)
    requires c.Valid() && k <= |c.items| && Tidy(c.n, w, c.items[k..]) && KeysIndexed(w) && Homes(w.season.rows, w.home)
    requires w.home.Keys == LiveIds(c.rows) && c.rows.Keys <= w.season.rows.Keys
    requires forall j, x :: c.Reserved(x, j, k) ==> Pristine(c, w, x)
    requires forall j: nat :: k <= j < |c.items| ==> GroupOf(w, c.Name(j)) == GroupOf(c.Start(), c.Name(j))
    requires forall j: nat :: k <= j < |c.items| ==> KeyAsExpected(c, w, j, k)
    ensures Poised(c, w, k)
  {
    hide Tidy, KeysIndexed, Homes, Pristine, GroupOf, KeyAsExpected, Case.Reserved;
  }

  lemma {:induction false} StaysPristine(c: Case, w: Work, w': Work, k: nat, now: Time, id: Id, losers: seq<Id>, j: nat, x: Id)
    requires c.Valid() && k < |c.items| && Turned(c, w, w', k, now, id, losers) && !c.KeyFirst() && c.Reserved(x, j, k + 1)
    ensures Pristine(c, w', x)
  {
    LaterUntouched(c, w, k, id, losers, j, x);
    assert Pristine(c, w, x);
    hide Poised, Came, Chosen, TurnDone, Case.KeyFirst, Case.Reserved, Joined, Turned;
    OtherRowsStay(c, w, w', k, now, id, losers, x);
  }

  // --- What has been held so far -------------------------------------------------------------------

  /** The row holds the item: one that was there, and took nothing else up, or a new one. */
  ghost predicate HeldAs(c: Case, w: Work, j: nat, x: Id, now: Time) {
    && j < |c.items| && Live(w.season.rows, x) && (forall y :: c.Owns(y, j) ==> y == x)
    && if x in c.rows then
         && (c.Owns(x, j) || c.HasName(x, j)) && x in w.home && w.home[x] == x
         && TookUp(c.rows[x], w.season.rows[x], c.items[j], c.items[j].key, now, |Joined(w.home, x)|)
       else x !in w.home && w.season.rows[x] == NewRow(c.items[j], now)
  }

  /** The row is none of the first `k` items' concern, and as it was. */
  ghost predicate LeftAlone(c: Case, w: Work, x: Id, k: nat) {
    Pristine(c, w, x) && forall j: nat :: j < k ==> !c.HasName(x, j) && !c.Owns(x, j)
  }

  ghost predicate SomeHolds(c: Case, w: Work, j: nat, now: Time) {
    exists x :: HeldAs(c, w, j, x, now)
  }

  ghost predicate HoldsSome(c: Case, w: Work, x: Id, k: nat, now: Time) {
    exists j: nat :: j < k && HeldAs(c, w, j, x, now)
  }

  /** Each of the first `k` items is held, and every live row holds one or was left alone. */
  ghost predicate Accounted(c: Case, w: Work, k: nat, now: Time) {
    && (forall j: nat :: j < k ==> SomeHolds(c, w, j, now))
    && (forall x :: Live(w.season.rows, x) ==> LeftAlone(c, w, x, k) || HoldsSome(c, w, x, k, now))
  }

  lemma {:induction false} OwnersAreChosen(c: Case, w: Work, w': Work, k: nat, now: Time, id: Id, losers: seq<Id>, x: Id)
    requires c.Valid() && k < |c.items| && Turned(c, w, w', k, now, id, losers)
    ensures c.Owns(x, k) ==> x == id
  {
    PoisedNow(c, w, k);
    ChosenBasics(c.n, w, c.items[k], id, losers);
    hide Poised, Chosen, TurnDone, Came, Case.Owns;
    assert KeyAsExpected(c, w, k, k);
  }

  lemma {:induction false} TurnHolds(c: Case, w: Work, w': Work, k: nat, now: Time, id: Id, losers: seq<Id>)
    requires c.Valid() && k < |c.items| && Turned(c, w, w', k, now, id, losers)
    ensures HeldAs(c, w', k, id, now)
  {
    ChosenBasics(c.n, w, c.items[k], id, losers);
    TurnLives(c.n, w, w', c.items[k], now, id, losers);
    PoisedNow(c, w, k);
    assert id !in w.season.rows || Pristine(c, w, id);
    assert w'.home == Rehoused(w.home, losers, id) && w.home.Keys <= w.season.rows.Keys;
    NothingJoined(c, w, k, id, losers);
    forall y | c.Owns(y, k) ensures y == id { OwnersAreChosen(c, w, w', k, now, id, losers, y); }
    hide Poised, Chosen, TurnIndexes, Counted, TookUp, Joined, Homes, Case.HasName, Case.Adopts, Awaited, KeyAsExpected;
    LosersJoin(w.home, losers, id);
  }

  // A row that holds an earlier item is none this turn touches.
  lemma {:induction false} EarlierUntouched(c: Case, w: Work, k: nat, id: Id, losers: seq<Id>, j: nat, now: Time, x: Id)
    requires c.Valid() && j < k < |c.items| && Came(c, w, k, id, losers) && !c.KeyFirst()
    requires HeldAs(c, w, j, x, now)
    ensures x !in losers && x != id
  {
    OneKeyOneName(c, x, j, k);
    assert !c.Shared(x, j, k);
    assert x in c.rows ==> c.Owns(x, j) || c.HasName(x, j);
    assert x !in c.rows ==> x !in w.home && x in w.season.rows;
    hide HeldAs, Case.KeyFirst;
  }

  lemma {:induction false} StaysHeld(c: Case, w: Work, w': Work, k: nat, now: Time, id: Id, losers: seq<Id>, j: nat, x: Id)
    requires c.Valid() && j < k < |c.items| && Turned(c, w, w', k, now, id, losers) && !c.KeyFirst()
    requires HeldAs(c, w, j, x, now)
    ensures HeldAs(c, w', j, x, now)
  {
    EarlierUntouched(c, w, k, id, losers, j, now, x);
    hide Turned, Case.KeyFirst, Joined, TookUp, Case.Owns, Case.HasName;
    OtherRowsStay(c, w, w', k, now, id, losers, x);
  }

  lemma {:induction false} StaysAlone(c: Case, w: Work, w': Work, k: nat, now: Time, id: Id, losers: seq<Id>, x: Id)
    requires c.Valid() && k < |c.items| && Turned(c, w, w', k, now, id, losers)
    requires LeftAlone(c, w, x, k) && x !in losers && x != id
    ensures LeftAlone(c, w', x, k + 1)
  {
    assert !c.HasName(x, k);
    assert !c.Owns(x, k) by { OwnersAreChosen(c, w, w', k, now, id, losers, x); }
    hide Turned, Joined, Case.Owns, Case.HasName;
    OtherRowsStay(c, w, w', k, now, id, losers, x);
  }

  lemma {:induction false} ItemsStayHeld(c: Case, w: Work, w': Work, k: nat, now: Time, id: Id, losers: seq<Id>, j: nat)
    requires c.Valid() && j <= k < |c.items| && Turned(c, w, w', k, now, id, losers) && !c.KeyFirst()
    requires Accounted(c, w, k, now)
    ensures SomeHolds(c, w', j, now)
  {
    hide Turned, Case.KeyFirst, HeldAs, LeftAlone;
    if j < k {
      assert SomeHolds(c, w, j, now);
      var x :| HeldAs(c, w, j, x, now);
      StaysHeld(c, w, w', k, now, id, losers, j, x);
    } else {
      TurnHolds(c, w, w', k, now, id, losers);
    }
  }

  lemma {:induction false} RowsStayAccounted(c: Case, w: Work, w': Work, k: nat, now: Time, id: Id, losers: seq<Id>, k': nat, x: Id)
    requires c.Valid() && k < |c.items| && k' == k + 1 && Turned(c, w, w', k, now, id, losers) && !c.KeyFirst()
    requires Accounted(c, w, k, now) && Live(w'.season.rows, x)
    ensures LeftAlone(c, w', x, k') || HoldsSome(c, w', x, k', now)
  {
    TurnLives(c.n, w, w', c.items[k], now, id, losers);
    hide Turned, Case.KeyFirst, HeldAs, LeftAlone;
    if x == id {
      TurnHolds(c, w, w', k, now, id, losers);
    } else if LeftAlone(c, w, x, k) {
      StaysAlone(c, w, w', k, now, id, losers, x);
    } else {
      assert HoldsSome(c, w, x, k, now);
      var j: nat :| j < k && HeldAs(c, w, j, x, now);
      StaysHeld(c, w, w', k, now, id, losers, j, x);
    }
  }

  lemma {:induction false} TurnKeepsAccounts(c: Case, w: Work, w': Work, k: nat, now: Time, id: Id, losers: seq<Id>, k': nat)
    requires c.Valid() && k < |c.items| && k' == k + 1 && Turned(c, w, w', k, now, id, losers) && !c.KeyFirst()
    requires Accounted(c, w, k, now)
    ensures Accounted(c, w', k', now)
  {
    hide Turned, Case.KeyFirst, SomeHolds, HoldsSome, LeftAlone;
    forall j: nat | j < k' ensures SomeHolds(c, w', j, now) {
      ItemsStayHeld(c, w, w', k, now, id, losers, j);
    }
    forall x | Live(w'.season.rows, x) ensures LeftAlone(c, w', x, k') || HoldsSome(c, w', x, k', now) {
      RowsStayAccounted(c, w, w', k, now, id, losers, k', x);
    }
  }

  lemma {:induction false} LoopHolds(c: Case, w: Work, k: nat, now: Time, hint: nat)
    requires c.Valid() && k <= |c.items| && Poised(c, w, k) && Accounted(c, w, k, now) && c.Harmless()
    ensures var w' := IngestAll(w, c.n, c.items[k..], now, hint);
            Poised(c, w', |c.items|) && Accounted(c, w', |c.items|, now)
    decreases |c.items| - k
  {
    hide Poised, Accounted, Ingested, Case.KeyFirst, Case.Rekeys, Turned;
    if k < |c.items| {
      var id, losers := TurnKeepsPoised(c, w, k, now, hint);
      var w' := Ingested(w, c.n, c.items[k], now, hint);
      TurnKeepsAccounts(c, w, w', k, now, id, losers, k + 1);
      LoopHolds(c, w', k + 1, now, hint);
      assert c.items[k..][0] == c.items[k] && c.items[k..][1..] == c.items[k + 1..];
    }
  }

  lemma StartsAsExpected(c: Case, w: Work, j: nat)
    requires c.Valid() && j < |c.items| && w.season.rows == c.rows && w.byKey == KeyIndex(c.rows, c.live) && KeysIndexed(w)
    ensures KeyAsExpected(c, w, j, 0)
  {
    KeyIndexNames(c.rows, c.live);
    hide KeyIndex, Case.HasName;
    if c.items[j].key in w.byKey {
      var x := w.byKey[c.items[j].key];
      assert x in c.live && c.Waits(x, j, 0);
    }
  }

  lemma StartsPristine(c: Case, w: Work)
    requires c.Valid() && w.season.rows == c.rows && w.home == map x | x in c.live :: x
    ensures forall x :: Live(c.rows, x) ==> Pristine(c, w, x)
    ensures w.home.Keys == LiveIds(c.rows) && Homes(w.season.rows, w.home)
  {
    forall x | Live(c.rows, x) ensures Pristine(c, w, x) {
      assert x in c.live && Joined(w.home, x) == {};
    }
  }

  lemma StartsPoised(c: Case, w: Work)
    requires c.Valid() && w.season.rows == c.rows && w == Prepared(c.n, w.season, c.live)
    ensures Poised(c, w, 0) && forall now :: Accounted(c, w, 0, now)
  {
    assert c.items[0..] == c.items;
    StartsTidy(c.n, w.season, c.live, c.items);
    StartsPristine(c, w);
    assert w.byIdentity == c.Start().byIdentity && w.byKey == KeyIndex(c.rows, c.live);
    hide Tidy, KeysIndexed, KeyIndex, IdentityIndex, Homes, Pristine, KeyAsExpected;
    forall j: nat | j < |c.items| ensures KeyAsExpected(c, w, j, 0) { StartsAsExpected(c, w, j); }
    assert forall j, x :: c.Reserved(x, j, 0) ==> Live(c.rows, x);
    hide Case.Reserved;
    PoisedFrom(c, w, 0);
    assert forall x :: Live(c.rows, x) ==> LeftAlone(c, w, x, 0);
  }

  // --- What is held ---------------------------------------------------------------------------------

  /** The row holds the item: under its key, seen now, with nothing new left to say. */
  ghost predicate HeldBy(rows: map<Id, Row>, item: Item, now: Time, id: Id) {
    Live(rows, id) && rows[id].key == item.key && rows[id].lastSeen == now && SaysNothingNew(rows[id], item)
  }

  ghost predicate Held(rows: map<Id, Row>, item: Item, now: Time) {
    exists id :: HeldBy(rows, item, now, id)
  }

  ghost predicate AllHeld(rows: map<Id, Row>, items: seq<Item>, now: Time) {
    forall j :: 0 <= j < |items| ==> Held(rows, items[j], now)
  }

  lemma HeldAsIsHeld(c: Case, w: Work, j: nat, x: Id, now: Time)
    requires HeldAs(c, w, j, x, now) && ByTheSchema(c.items[j])
    ensures HeldBy(w.season.rows, c.items[j], now, x)
  {
    MergingIsIdempotent(Dumped(c.items[j]), c.items[j]);
    if x in c.rows { MergingIsIdempotent(c.rows[x].content, c.items[j]); }
    hide Merged, Dumped, Joined, Case.Owns, Case.HasName;
  }

  lemma {:induction false} AccountedAreHeld(c: Case, w: Work, now: Time)
    requires Accounted(c, w, |c.items|, now) && forall j :: 0 <= j < |c.items| ==> ByTheSchema(c.items[j])
    ensures AllHeld(w.season.rows, c.items, now)
  {
    hide HeldAs, ByTheSchema, HeldBy;
    forall j | 0 <= j < |c.items| ensures Held(w.season.rows, c.items[j], now) {
      assert SomeHolds(c, w, j, now);
      var x :| HeldAs(c, w, j, x, now);
      HeldAsIsHeld(c, w, j, x, now);
    }
  }

  // --- What is lost ----------------------------------------------------------------------------------

  /** No live row has the key. */
  ghost predicate KeyLost(rows: map<Id, Row>, key: string) {
    forall x :: Live(rows, x) ==> rows[x].key != key
  }

  lemma {:induction false} TurnKeepsLost(n: Naming, w: Work, w': Work, item: Item, now: Time, id: Id, losers: seq<Id>, key: string)
    requires KeysLive(w) && Chosen(n, w, item, id, losers) && TurnDone(n, w, w', item, now, id, losers)
    requires KeyLost(w.season.rows, key) && (item.key == key ==> key in w.byKey)
    ensures KeyLost(w'.season.rows, key)
    ensures key in w.byKey ==> key in w'.byKey
  {
    ChosenBasics(n, w, item, id, losers);
    TurnLives(n, w, w', item, now, id, losers);
    hide Chosen, Counted, TookUp, Merged, Grouped, GroupOf;
    assert id !in w.season.rows ==> w'.season.rows[id].key == item.key;
    assert w'.byKey == w.byKey[item.key := id] - KeysOf(w.season.rows, losers);
    hide TurnDone;
    assert key !in KeysOf(w.season.rows, losers);
    hide KeysOf;
  }

  // A key no live row has, whose item has gone by or is led astray by an alias, stays lost.
  lemma {:induction false} StaysLost(n: Naming, w: Work, all: seq<Item>, k: nat, a: nat, now: Time, hint: nat)
    requires k <= |all| && a < |all| && Tidy(n, w, all[k..]) && Separate(n, all)
    requires KeyLost(w.season.rows, all[a].key) && (k <= a ==> all[a].key in w.byKey)
    ensures KeyLost(IngestAll(w, n, all[k..], now, hint).season.rows, all[a].key)
    decreases |all| - k
  {
    SliceSeparate(n, all, k);
    assert KeysLive(w) && (k != a && k < |all| ==> all[k].key != all[a].key);
    hide Separate, Ingested, TurnDone, Chosen, Tidy, KeyLost, KeysLive;
    if k < |all| {
      var id, losers := TurnKeepsTidy(n, w, all[k..], now, hint);
      var w' := Ingested(w, n, all[k], now, hint);
      TurnKeepsLost(n, w, w', all[k], now, id, losers, all[a].key);
      StaysLost(n, w', all, k + 1, a, now, hint);
    }
  }

  // The turn of a shared row's identity takes its other key away.
  lemma {:induction false} SharedLoses(n: Naming, w: Work, w': Work, item: Item, now: Time, id: Id, losers: seq<Id>, x: Id)
    requires KeysIndexed(w) && Awaited(n, w, item) && Chosen(n, w, item, id, losers)
    requires TurnDone(n, w, w', item, now, id, losers)
    requires Live(w.season.rows, x) && x in GroupOf(w, Named(n, item)) && w.season.rows[x].key != item.key
    ensures KeyLost(w'.season.rows, w.season.rows[x].key)
  {
    ChosenBasics(n, w, item, id, losers);
    TurnLives(n, w, w', item, now, id, losers);
    assert Unaliased(w, x);
    hide TurnDone, Chosen, Awaited, GroupOf;
    var key := w.season.rows[x].key;
    forall y | Live(w'.season.rows, y) ensures w'.season.rows[y].key != key {
      if y in w.season.rows && w.season.rows[y].key == key { assert y == x; }
    }
  }

  // Until its turn comes, a row of an identity ahead keeps its key.
  lemma {:induction false} WaitingKeepsKey(n: Naming, w: Work, w': Work, items: seq<Item>, now: Time, id: Id, losers: seq<Id>,
                                           j: nat, x: Id)
    requires 0 < j < |items| && Separate(n, items) && Tidy(n, w, items)
    requires Chosen(n, w, items[0], id, losers) && TurnDone(n, w, w', items[0], now, id, losers)
    requires Live(w.season.rows, x) && x in GroupOf(w, Named(n, items[j]))
    ensures Live(w'.season.rows, x) && w'.season.rows[x].key == w.season.rows[x].key
    ensures x in GroupOf(w', Named(n, items[j]))
  {
    ChosenBasics(n, w, items[0], id, losers);
    TurnLives(n, w, w', items[0], now, id, losers);
    GroupsStay(n, w, w', items[0], id, losers, Named(n, items[j]));
    assert GroupsApart(w, Named(n, items[0]), Named(n, items[j]));
    hide TurnDone, Chosen, Tidy, GroupOf, Named;
  }

  lemma {:induction false} ItemsAhead(n: Naming, w: Work, all: seq<Item>, k: nat, a: nat, b: nat)
    requires a < b < |all| && k <= b && Tidy(n, w, all[k..]) && Separate(n, all)
    ensures Awaited(n, w, all[k]) && all[k..][b - k] == all[b] && all[a].key != all[b].key
  {
    assert Awaited(n, w, all[k..][0]);
    hide Awaited, GroupsApart, KeysLive;
  }

  lemma {:induction false} KeyFirstLoses(n: Naming, w: Work, all: seq<Item>, k: nat, a: nat, b: nat, x: Id, now: Time, hint: nat)
    requires a < b < |all| && k <= b && Tidy(n, w, all[k..]) && Separate(n, all) && KeysIndexed(w)
    requires Live(w.season.rows, x) && w.season.rows[x].key == all[a].key && x in GroupOf(w, Named(n, all[b]))
    ensures KeyLost(IngestAll(w, n, all[k..], now, hint).season.rows, all[a].key)
    decreases b - k
  {
    hide Ingested, TurnDone, Chosen, KeyLost, GroupOf, KeysIndexed, Named, Awaited, Tidy, Separate;
    SliceSeparate(n, all, k);
    ItemsAhead(n, w, all, k, a, b);
    var id, losers := TurnKeepsTidy(n, w, all[k..], now, hint);
    var w' := Ingested(w, n, all[k], now, hint);
    if k == b {
      SharedLoses(n, w, w', all[k], now, id, losers, x);
      StaysLost(n, w', all, k + 1, a, now, hint);
    } else {
      WaitingKeepsKey(n, w, w', all[k..], now, id, losers, b - k, x);
      TurnKeepsKeys(n, w, w', all[k], now, id, losers);
      KeyFirstLoses(n, w', all, k + 1, a, b, x, now, hint);
    }
  }

  // The turn that adopts a shared row takes that row, by no key.
  lemma {:induction false} AdoptsThatRow(c: Case, w: Work, k: nat, id: Id, losers: seq<Id>, x: Id, a: nat)
    requires c.Valid() && k < |c.items| && Poised(c, w, k) && Came(c, w, k, id, losers) && c.Rekeys(x, a, k)
    ensures id == x && c.items[k].key !in w.byKey && Pristine(c, w, x) && x in w.season.rows
  {
    PoisedNow(c, w, k);
    assert Pristine(c, w, x);
    assert c.items[k].key in w.byKey ==> c.Owns(id, k);
    hide Poised, Awaited, KeyAsExpected, Case.Owns, Case.HasKey, LatestSeen, Case.Group;
  }

  // It leaves the row's other key as an alias.
  lemma {:induction false} RekeyingLoses(n: Naming, w: Work, w': Work, item: Item, now: Time, id: Id, losers: seq<Id>, key: string)
    requires KeysIndexed(w) && Chosen(n, w, item, id, losers) && TurnDone(n, w, w', item, now, id, losers)
    requires item.key !in w.byKey && id in w.season.rows && w.season.rows[id].key == key != item.key
    ensures KeyLost(w'.season.rows, key) && key in w'.byKey
  {
    ChosenBasics(n, w, item, id, losers);
    TurnLives(n, w, w', item, now, id, losers);
    assert w'.byKey == w.byKey[item.key := id] - KeysOf(w.season.rows, losers);
    hide TurnDone, Chosen;
    forall l | l in losers && l in w.season.rows ensures w.season.rows[l].key != key {
      assert Live(w.season.rows, l) && w.byKey[key] == id;
    }
  }

  lemma {:induction false} AdoptingLoses(c: Case, w: Work, w': Work, k: nat, now: Time, id: Id, losers: seq<Id>, x: Id, a: nat)
    requires c.Valid() && k < |c.items| && Turned(c, w, w', k, now, id, losers) && c.Rekeys(x, a, k)
    ensures KeyLost(w'.season.rows, c.items[a].key) && c.items[a].key in w'.byKey
  {
    assert c.Shared(x, a, k) && KeysIndexed(w);
    ItemsDiffer(c, a, k);
    AdoptsThatRow(c, w, k, id, losers, x, a);
    hide Poised, Chosen, TurnDone, Came, Case.Rekeys, KeysIndexed;
    RekeyingLoses(c.n, w, w', c.items[k], now, id, losers, c.items[a].key);
  }

  lemma {:induction false} AdoptionLoses(c: Case, w: Work, k: nat, a: nat, b: nat, x: Id, now: Time, hint: nat)
    requires c.Valid() && k <= b < |c.items| && Poised(c, w, k) && !c.KeyFirst() && c.Rekeys(x, a, b)
    requires forall y, i, j: nat :: j < b ==> !c.Rekeys(y, i, j)
    ensures KeyLost(IngestAll(w, c.n, c.items[k..], now, hint).season.rows, c.items[a].key)
    decreases b - k
  {
    SliceSeparate(c.n, c.items, k);
    assert a > b;
    assert Tidy(c.n, w, c.items[k..]);
    hide Poised, Ingested, Turned, KeyLost, Case.KeyFirst, Case.Rekeys;
    if k == b {
      PoisedNow(c, w, k);
      hide Tidy, Awaited, KeysLive, TurnDone, Chosen;
      var id, losers := TurnKeepsTidy(c.n, w, c.items[k..], now, hint);
      Comes(c, w, k, id, losers);
      var w' := Ingested(w, c.n, c.items[k], now, hint);
      TurnedFrom(c, w, w', k, now, id, losers);
      AdoptingLoses(c, w, w', k, now, id, losers, x, a);
      StaysLost(c.n, w', c.items, k + 1, a, now, hint);
    } else {
      var id, losers := TurnKeepsPoised(c, w, k, now, hint);
      AdoptionLoses(c, Ingested(w, c.n, c.items[k], now, hint), k + 1, a, b, x, now, hint);
    }
  }

  lemma {:induction false} TurnedFrom(c: Case, w: Work, w': Work, k: nat, now: Time, id: Id, losers: seq<Id>)
    requires c.Valid() && k < |c.items| && Poised(c, w, k) && Came(c, w, k, id, losers)
    requires Chosen(c.n, w, c.items[k], id, losers) && TurnDone(c.n, w, w', c.items[k], now, id, losers)
    ensures Turned(c, w, w', k, now, id, losers)
  {
  }

  // --- The push ------------------------------------------------------------------------------------------

  /** The first rekeying of a shared row. */
  lemma {:induction false} FirstRekeying(c: Case, x: Id, a: nat, b: nat) returns (y: Id, i: nat, j: nat)
    requires c.Valid() && c.Rekeys(x, a, b)
    ensures c.Rekeys(y, i, j) && forall z, m, l: nat :: l < j ==> !c.Rekeys(z, m, l)
    decreases b
  {
    if z, m, l: nat :| l < b && c.Rekeys(z, m, l) {
      hide Case.Rekeys;
      y, i, j := FirstRekeying(c, z, m, l);
    } else {
      y, i, j := x, a, b;
    }
  }

  /** The push as a case: the pool once purged, in scan order, and the collapsed payload. */
  function CaseOf(n: Naming, s: Season, order: seq<Id>, items: seq<Item>, veto: seq<string>, now: Time): Case {
    Case(n, Purged(s.rows, veto, now), LiveOnly(Purged(s.rows, veto, now), order), Payload(n, items, veto))
  }

  lemma {:induction false} CaseIsValid(n: Naming, s: Season, order: seq<Id>, items: seq<Item>, veto: seq<string>, now: Time)
    requires ScanOrder(s.rows, order) && UniqueKeys(s.rows)
    ensures CaseOf(n, s, order, items, veto, now).Valid()
  {
    hide Vetoed;
    PurgeKeepsOrder(s.rows, order, veto, now);
    PayloadIsSeparate(n, items, veto);
  }

  /** What a caller hands over: the database's scan and its unique index, and items by the
      schema. */
  ghost predicate Proper(n: Naming, s: Season, order: seq<Id>, items: seq<Item>) {
    ScanOrder(s.rows, order) && UniqueKeys(s.rows) && forall i :: 0 <= i < |items| ==> ByTheSchema(items[i])
  }

  lemma {:induction false} PayloadBySchema(n: Naming, items: seq<Item>, veto: seq<string>)
    requires forall i :: 0 <= i < |items| ==> ByTheSchema(items[i])
    ensures forall i :: 0 <= i < |Payload(n, items, veto)| ==> ByTheSchema(Payload(n, items, veto)[i])
  {
    PayloadIsSeparate(n, items, veto);
    var payload := Payload(n, items, veto);
    hide Payload, Separate, ByTheSchema, Vetoed, LastPerKey, Allowed;
    forall i | 0 <= i < |payload| ensures ByTheSchema(payload[i]) {
      assert payload[i] in payload;
      var k :| 0 <= k < |items| && items[k] == payload[i];
    }
  }

  lemma {:induction false} HarmlessPushHolds(n: Naming, s: Season, order: seq<Id>, items: seq<Item>, veto: seq<string>, now: Time,
                                             hint: nat)
    requires Proper(n, s, order, items) && CaseOf(n, s, order, items, veto, now).Valid()
    requires CaseOf(n, s, order, items, veto, now).Harmless()
    ensures var c, w := CaseOf(n, s, order, items, veto, now), PutPool(n, s, order, items, veto, now, hint).0;
            Accounted(c, w, |c.items|, now)
  {
    var c := CaseOf(n, s, order, items, veto, now);
    var w := PurgedWork(n, s, order, veto, now);
    StartsPoised(c, w);
    assert c.items[0..] == Payload(n, items, veto);
    hide Poised, Accounted, Case.Harmless, Case.Valid, Payload, Purged;
    LoopHolds(c, w, 0, now, hint);
  }

  lemma {:induction false} HarmfulPushLoses(n: Naming, s: Season, order: seq<Id>, items: seq<Item>, veto: seq<string>, now: Time,
                                            hint: nat) returns (a: nat)
    requires Proper(n, s, order, items) && CaseOf(n, s, order, items, veto, now).Valid()
    requires !CaseOf(n, s, order, items, veto, now).Harmless()
    ensures a < |Payload(n, items, veto)|
            && KeyLost(PutPool(n, s, order, items, veto, now, hint).0.season.rows, Payload(n, items, veto)[a].key)
  {
    var c := CaseOf(n, s, order, items, veto, now);
    var w := PurgedWork(n, s, order, veto, now);
    StartsPoised(c, w);
    assert c.items[0..] == Payload(n, items, veto);
    assert Tidy(n, w, c.items[0..]) && KeysIndexed(w) && w.season.rows == c.rows && w.byIdentity == c.Start().byIdentity;
    hide Poised, Accounted, Payload, Purged, Tidy, KeysIndexed, KeyLost, IdentityIndex, KeyIndex;
    if c.KeyFirst() {
      var x, i, b :| i < b && c.Shared(x, i, b);
      a := i;
      GroupIsNamed(c, b);
      KeyFirstLoses(n, w, c.items, 0, a, b, x, now, hint);
    } else {
      var x, i, b :| c.Rekeys(x, i, b);
      var y, m, l := FirstRekeying(c, x, i, b);
      a := m;
      assert c.Shared(y, m, l);
      hide Case.KeyFirst, Case.Rekeys, Case.Valid;
      AdoptionLoses(c, w, 0, a, l, y, now, hint);
    }
  }

  /** A push leaves every item of its payload in the pool, under its key, seen now and with
      its content, exactly when no shared row is taken from one item by another: whatever
      is stored and sent otherwise. */
  lemma {:induction false} PushHoldsExactly(n: Naming, s: Season, order: seq<Id>, items: seq<Item>, veto: seq<string>, now: Time,
                                            hint: nat)
    requires Proper(n, s, order, items)
    ensures AllHeld(PutPool(n, s, order, items, veto, now, hint).0.season.rows, Payload(n, items, veto), now)
            <==> CaseOf(n, s, order, items, veto, now).Harmless()
  {
    CaseIsValid(n, s, order, items, veto, now);
    var c, w := CaseOf(n, s, order, items, veto, now), PutPool(n, s, order, items, veto, now, hint).0;
    hide Accounted, Case.Harmless, Payload, Purged, PutPool, Case.Valid;
    if c.Harmless() {
      HarmlessPushHolds(n, s, order, items, veto, now, hint);
      PayloadBySchema(n, items, veto);
      AccountedAreHeld(c, w, now);
    } else {
      var a := HarmfulPushLoses(n, s, order, items, veto, now, hint);
      assert !Held(w.season.rows, c.items[a], now);
    }
  }

  /** What the recipe of the keys says: a key determines the identity, stored and sent. */
  ghost predicate Coherent(c: Case, f: string -> Option<Identity>) {
    && (forall x :: Live(c.rows, x) ==> IdentityOf(c.n, c.rows[x].content) == f(c.rows[x].key))
    && (forall j :: 0 <= j < |c.items| ==> Named(c.n, c.items[j]) == f(c.items[j].key))
  }

  /** Where the recipe is followed no row is shared. */
  lemma CoherentSharesNone(c: Case, f: string -> Option<Identity>, x: Id, a: nat, b: nat)
    requires c.Valid() && Coherent(c, f)
    ensures !c.Shared(x, a, b)
  {
    if a != b && a < |c.items| && b < |c.items| { ItemsDiffer(c, b, a); }
    hide IdentityOf, Dumped;
  }
}
