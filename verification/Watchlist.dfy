/** The shared watchlist: a forest one level deep whose siblings are ordered by
    fractional rank. `api/v1/watchlist.py` and the `_apply_watchlist_*` half of
    `sync/service.py`. Ranks are exact. */
module Watchlist {
  import opened Wrappers
  import opened ChangeLog

  type Items = map<Id, ItemRow>

  datatype Refusal =
    | BothAnchors | AnchorNotFound | AnchorElsewhere
    | ParentNotFound | TooDeep | OwnParent | HasChildren

  datatype Placement = At(position: real) | Refused(why: Refusal)

  // --- Ranks ---------------------------------------------------------------

  predicate Live(items: Items, ws: Id, id: Id) {
    id in items && items[id].ws == ws && items[id].deletedAt.None?
  }

  /** The live siblings under `parent`, without the item being moved. */
  function Scope(items: Items, ws: Id, parent: Option<Id>, moving: Option<Id>): set<Id> {
    set id | id in items && Live(items, ws, id) && items[id].parent == parent && moving != Some(id)
  }

  /** `ORDER BY position ASC LIMIT 1` over the given rows. */
  function LowestRank(items: Items, ids: seq<Id>): (r: Option<real>)
    requires forall i :: 0 <= i < |ids| ==> ids[i] in items
    ensures r.None? <==> ids == []
    ensures r.Some? ==> (exists id :: id in ids && items[id].position == r.value)
    ensures r.Some? ==> forall id :: id in ids ==> r.value <= items[id].position
  {
    if ids == [] then None
    else
      var first := items[ids[0]].position;
      match LowestRank(items, ids[1..])
      case None => assert ids[0] in ids; Some(first)
      case Some(rest) => assert ids[0] in ids; Some(if first <= rest then first else rest)
  }

  /** `ORDER BY position DESC LIMIT 1` over the given rows. */
  function HighestRank(items: Items, ids: seq<Id>): (r: Option<real>)
    requires forall i :: 0 <= i < |ids| ==> ids[i] in items
    ensures r.None? <==> ids == []
    ensures r.Some? ==> (exists id :: id in ids && items[id].position == r.value)
    ensures r.Some? ==> forall id :: id in ids ==> items[id].position <= r.value
  {
    if ids == [] then None
    else
      var first := items[ids[0]].position;
      match HighestRank(items, ids[1..])
      case None => assert ids[0] in ids; Some(first)
      case Some(rest) => assert ids[0] in ids; Some(if rest <= first then first else rest)
  }

  function RankAbove(items: Items, ids: set<Id>, rank: real): Option<real>
    requires ids <= items.Keys
  {
    var rows := Ascending(set id | id in ids && items[id].position > rank);
    InTable(items, ids, rows);
    LowestRank(items, rows)
  }

  function RankBelow(items: Items, ids: set<Id>, rank: real): Option<real>
    requires ids <= items.Keys
  {
    var rows := Ascending(set id | id in ids && items[id].position < rank);
    InTable(items, ids, rows);
    HighestRank(items, rows)
  }

  function LastRank(items: Items, ids: set<Id>): Option<real>
    requires ids <= items.Keys
  {
    InTable(items, ids, Ascending(ids));
    HighestRank(items, Ascending(ids))
  }

  lemma {:induction false} InTable(items: Items, ids: set<Id>, rows: seq<Id>)
    requires ids <= items.Keys && forall x :: x in rows ==> x in ids
    ensures forall i :: 0 <= i < |rows| ==> rows[i] in items
  {
  }

  /** `_compute_position`. `moving` is left out of neighbour lookups, `tail` of the
      end-of-scope lookup: the outbox leaves the moved item out of both, the REST
      path only out of the former. */
  function Place(items: Items, ws: Id, parent: Option<Id>, after: Option<Id>, before: Option<Id>,
                 moving: Option<Id>, tail: Option<Id>): Placement {
    if after.Some? && before.Some? then Refused(BothAnchors)
    else if after.Some? then
      if !Live(items, ws, after.value) then Refused(AnchorNotFound)
      else if items[after.value].parent != parent then Refused(AnchorElsewhere)
      else
        var anchor := items[after.value].position;
        match RankAbove(items, Scope(items, ws, parent, moving), anchor)
        case Some(next) => At((anchor + next) / 2.0)
        case None => At(anchor + 1.0)
    else if before.Some? then
      if !Live(items, ws, before.value) then Refused(AnchorNotFound)
      else if items[before.value].parent != parent then Refused(AnchorElsewhere)
      else
        var anchor := items[before.value].position;
        match RankBelow(items, Scope(items, ws, parent, moving), anchor)
        case Some(prev) => At((prev + anchor) / 2.0)
        case None => At(anchor - 1.0)
    else
      match LastRank(items, Scope(items, ws, parent, tail))
      case Some(last) => At(last + 1.0)
      case None => At(1.0)
  }

  function ParentRefusal(items: Items, ws: Id, parent: Id): Option<Refusal> {
    if !Live(items, ws, parent) then Some(ParentNotFound)
    else if items[parent].parent.Some? then Some(TooDeep)
    else None
  }

  /** Where a new item goes, or why it may not be created. */
  function PlanCreate(items: Items, ws: Id, parent: Option<Id>, after: Option<Id>, before: Option<Id>): Placement {
    if parent.Some? && ParentRefusal(items, ws, parent.value).Some? then
      Refused(ParentRefusal(items, ws, parent.value).value)
    else Place(items, ws, parent, after, before, None, None)
  }

  predicate HasLiveChildren(items: Items, id: Id) {
    exists c :: c in items && items[c].parent == Some(id) && items[c].deletedAt.None?
  }

  /** Where a moved item goes, or why it may not be moved there. */
  function PlanMove(items: Items, ws: Id, id: Id, parent: Option<Id>, after: Option<Id>, before: Option<Id>,
                    tail: Option<Id>): Placement {
    if parent == Some(id) then Refused(OwnParent)
    else if parent.Some? && ParentRefusal(items, ws, parent.value).Some? then
      Refused(ParentRefusal(items, ws, parent.value).value)
    else if parent.Some? && HasLiveChildren(items, id) then Refused(HasChildren)
    else Place(items, ws, parent, after, before, Some(id), tail)
  }

  // --- Writes ----------------------------------------------------------------

  function Moved(row: ItemRow, parent: Option<Id>, position: real): ItemRow {
    row.(parent := parent, position := position, version := row.version + 1)
  }

  function Buried(row: ItemRow, now: Time): ItemRow {
    row.(deletedAt := Some(now), version := row.version + 1)
  }

  /** The cascade: each child row is soft-deleted and logged in turn. */
  function BuryAll(db: Db, ids: seq<Id>, now: Time, user: Id): (db': Db)
    requires forall i :: i in ids ==> i in db.items
    ensures db'.items.Keys == db.items.Keys
    decreases |ids|
  {
    if ids == [] then db
    else
      var db' := SaveItem(db, ids[0], Buried(db.items[ids[0]], now), Delete, user);
      BuryAll(db', ids[1..], now, user)
  }

  function LiveChildren(items: Items, ws: Id, id: Id): set<Id> {
    set c | c in items && Live(items, ws, c) && items[c].parent == Some(id)
  }

  /** The children a delete cascades to: only a root is looked under. */
  function Doomed(items: Items, ws: Id, id: Id): set<Id>
    requires id in items
  {
    if items[id].parent.None? then LiveChildren(items, ws, id) else {}
  }

  function DeleteTree(db: Db, ws: Id, id: Id, now: Time, user: Id): Db
    requires id in db.items
  {
    var db' := BuryAll(db, Ascending(Doomed(db.items, ws, id)), now, user);
    SaveItem(db', id, Buried(db'.items[id], now), Delete, user)
  }

  // --- Invariants --------------------------------------------------------------

  /** A forest of depth at most one over live rows. */
  ghost predicate Forest(items: Items) {
    forall id :: id in items && items[id].deletedAt.None? && items[id].parent.Some? ==>
      Live(items, items[id].ws, items[id].parent.value) && items[items[id].parent.value].parent.None?
  }

  /** Live siblings never share a rank. */
  ghost predicate RanksDistinct(items: Items) {
    forall a, b ::
      (&& a in items && b in items && a != b
       && items[a].deletedAt.None? && items[b].deletedAt.None?
       && items[a].ws == items[b].ws && items[a].parent == items[b].parent)
      ==> items[a].position != items[b].position
  }

  // --- Sibling order -------------------------------------------------------------

  ghost predicate IsOrder(items: Items, ids: set<Id>, order: seq<Id>) {
    && ids <= items.Keys
    && (forall x :: x in order <==> x in ids)
    && Rising(items, order)
  }

  ghost predicate Rising(items: Items, order: seq<Id>) {
    && (forall i :: 0 <= i < |order| ==> order[i] in items)
    && (forall i, j :: 0 <= i < j < |order| ==> items[order[i]].position < items[order[j]].position)
  }

  lemma LowestExists(items: Items, ids: set<Id>) returns (low: Id)
    requires ids != {} && ids <= items.Keys
    ensures low in ids && forall x :: x in ids ==> items[low].position <= items[x].position
  {
    low :| low in ids;
    var rest := ids - {low};
    while rest != {}
      invariant low in ids && rest <= ids
      invariant forall x :: x in ids ==> items[low].position <= items[x].position || x in rest
      decreases |rest|
    {
      var y :| y in rest;
      if items[y].position < items[low].position { low := y; }
      rest := rest - {y};
    }
  }

  lemma {:induction false} OrderExists(items: Items, ids: set<Id>) returns (order: seq<Id>)
    requires ids <= items.Keys
    requires forall a, b :: a in ids && b in ids && a != b ==> items[a].position != items[b].position
    ensures IsOrder(items, ids, order)
    decreases |ids|
  {
    if ids == {} {
      order := [];
    } else {
      var first := LowestExists(items, ids);
      var rest := OrderExists(items, ids - {first});
      order := [first] + rest;
    }
  }

  lemma {:induction false} OrderOfNothing(items: Items, ids: set<Id>, order: seq<Id>)
    requires IsOrder(items, ids, order)
    ensures order == [] <==> ids == {}
  {
    if order != [] {
      assert order[0] in ids;
    }
  }

  lemma {:induction false} OrderIsUnique(items: Items, ids: set<Id>, o1: seq<Id>, o2: seq<Id>)
    requires IsOrder(items, ids, o1) && IsOrder(items, ids, o2)
    ensures o1 == o2
    decreases |o1|
  {
    if o1 == [] || o2 == [] {
      OrderOfNothing(items, ids, o1);
      OrderOfNothing(items, ids, o2);
    } else {
      assert o1[0] in ids && o2[0] in ids;
      assert o1[0] in o2 && o2[0] in o1;
      var i :| 0 <= i < |o1| && o1[i] == o2[0];
      var j :| 0 <= j < |o2| && o2[j] == o1[0];
      assert o1[0] == o2[0];
      OrderIsUnique(items, ids - {o1[0]}, o1[1..], o2[1..]);
    }
  }

  /** The scope as the clients list it: live siblings by ascending rank. */
  ghost function Siblings(items: Items, ws: Id, parent: Option<Id>): (order: seq<Id>)
    requires RanksDistinct(items)
    ensures IsOrder(items, Scope(items, ws, parent, None), order)
  {
    assert exists order :: IsOrder(items, Scope(items, ws, parent, None), order) by {
      var o := OrderExists(items, Scope(items, ws, parent, None));
    }
    var order :| IsOrder(items, Scope(items, ws, parent, None), order);
    order
  }

  function Without(order: seq<Id>, id: Id): seq<Id> {
    if order == [] then []
    else (if order[0] == id then [] else [order[0]]) + Without(order[1..], id)
  }

  function IndexOf(order: seq<Id>, id: Id): (k: nat)
    requires id in order
    ensures k < |order| && order[k] == id && id !in order[..k]
  {
    if order[0] == id then 0 else 1 + IndexOf(order[1..], id)
  }

  function InsertAt(order: seq<Id>, k: nat, id: Id): seq<Id>
    requires k <= |order|
  {
    order[..k] + [id] + order[k..]
  }

  /** What a user means by "put it after / before that one": the old order without
      the item, and the item next to the anchor; at the end without an anchor;
      where it was when it is its own anchor. */
  function Arranged(order: seq<Id>, id: Id, after: Option<Id>, before: Option<Id>): seq<Id> {
    var rest := Without(order, id);
    if after == Some(id) || before == Some(id) then order
    else if after.Some? && after.value in rest then InsertAt(rest, IndexOf(rest, after.value) + 1, id)
    else if before.Some? && before.value in rest then InsertAt(rest, IndexOf(rest, before.value), id)
    else rest + [id]
  }

  // --- Proof that ranks refine the intended order -----------------------------------

  lemma {:induction false} WithoutElements(order: seq<Id>, id: Id)
    ensures forall x :: x in Without(order, id) <==> x in order && x != id
  {
    if order != [] {
      WithoutElements(order[1..], id);
      forall x ensures x in Without(order, id) <==> x in order && x != id {
        assert x in order <==> x == order[0] || x in order[1..];
      }
    }
  }

  lemma {:induction false} WithoutRises(items: Items, order: seq<Id>, id: Id)
    requires Rising(items, order)
    ensures Rising(items, Without(order, id))
  {
    if order != [] {
      WithoutRises(items, order[1..], id);
      WithoutElements(order[1..], id);
      var tail := Without(order[1..], id);
      forall j | 0 <= j < |tail| ensures items[order[0]].position < items[tail[j]].position {
        assert tail[j] in order[1..];
        var m :| 0 <= m < |order| - 1 && order[1..][m] == tail[j];
        assert order[m + 1] == tail[j];
      }
    }
  }

  lemma {:induction false} WithoutKeepsOrder(items: Items, ids: set<Id>, order: seq<Id>, id: Id)
    requires IsOrder(items, ids, order)
    ensures IsOrder(items, ids - {id}, Without(order, id))
  {
    WithoutElements(order, id);
    WithoutRises(items, order, id);
  }

  lemma {:induction false} InsertedAt(rest: seq<Id>, k: nat, id: Id, i: nat)
    requires k <= |rest| && i <= |rest|
    ensures InsertAt(rest, k, id)[i] == if i < k then rest[i] else if i == k then id else rest[i - 1]
  {
  }

  lemma {:induction false} InsertRises(items: Items, items': Items, rest: seq<Id>, k: nat, id: Id)
    requires Rising(items, rest) && k <= |rest| && id in items'
    requires forall i :: 0 <= i < |rest| ==> rest[i] in items' && items'[rest[i]].position == items[rest[i]].position
    requires k > 0 ==> items[rest[k - 1]].position < items'[id].position
    requires k < |rest| ==> items'[id].position < items[rest[k]].position
    ensures Rising(items', InsertAt(rest, k, id))
  {
    var order := InsertAt(rest, k, id);
    forall i | 0 <= i < |order| ensures order[i] in items' {
      InsertedAt(rest, k, id, i);
    }
    forall i, j | 0 <= i < j < |order| ensures items'[order[i]].position < items'[order[j]].position {
      InsertedAt(rest, k, id, i);
      InsertedAt(rest, k, id, j);
      if j == k {
        assert items[rest[i]].position <= items[rest[k - 1]].position;
      } else if i == k {
        assert items[rest[k]].position <= items[rest[j - 1]].position;
      }
    }
  }

  // A rank strictly between its neighbours puts the item at index `k`.
  lemma {:induction false} InsertKeepsOrder(items: Items, items': Items, ids: set<Id>, rest: seq<Id>, k: nat, id: Id)
    requires IsOrder(items, ids, rest) && id !in ids && k <= |rest|
    requires id in items' && forall x :: x in ids ==> x in items' && items'[x].position == items[x].position
    requires k > 0 ==> items[rest[k - 1]].position < items'[id].position
    requires k < |rest| ==> items'[id].position < items[rest[k]].position
    ensures IsOrder(items', ids + {id}, InsertAt(rest, k, id))
  {
    var order := InsertAt(rest, k, id);
    forall x ensures x in order <==> x in ids + {id} {
      assert rest == rest[..k] + rest[k..];
      assert x in order <==> x in rest || x == id;
    }
    forall i | 0 <= i < |rest| ensures rest[i] in ids {
      assert rest[i] in rest;
    }
    InsertRises(items, items', rest, k, id);
  }

  // The neighbour queries find the neighbours in the sibling order.

  lemma {:induction false} Positioned(items: Items, ids: set<Id>, rest: seq<Id>, x: Id) returns (m: nat)
    requires IsOrder(items, ids, rest) && x in ids
    ensures m < |rest| && rest[m] == x
    ensures forall i :: 0 <= i < |rest| ==> rest[i] in ids
    ensures forall i :: 0 <= i < m ==> items[rest[i]].position < items[x].position
    ensures forall i :: m < i < |rest| ==> items[x].position < items[rest[i]].position
  {
    assert x in rest;
    m :| 0 <= m < |rest| && rest[m] == x;
    forall i | 0 <= i < |rest| ensures rest[i] in ids {
      assert rest[i] in rest;
    }
  }

  lemma {:induction false} LowestIs(items: Items, rows: seq<Id>, low: Id)
    requires forall i :: 0 <= i < |rows| ==> rows[i] in items
    requires low in rows && forall x :: x in rows ==> items[low].position <= items[x].position
    ensures LowestRank(items, rows) == Some(items[low].position)
  {
  }

  lemma {:induction false} HighestIs(items: Items, rows: seq<Id>, top: Id)
    requires forall i :: 0 <= i < |rows| ==> rows[i] in items
    requires top in rows && forall x :: x in rows ==> items[x].position <= items[top].position
    ensures HighestRank(items, rows) == Some(items[top].position)
  {
  }

  lemma {:induction false} AnchorAfter(items: Items, ids: set<Id>, rest: seq<Id>, rank: real, k: nat)
    requires IsOrder(items, ids, rest) && k <= |rest|
    requires forall i :: 0 <= i < k ==> items[rest[i]].position <= rank
    requires forall i :: k <= i < |rest| ==> rank < items[rest[i]].position
    ensures RankAbove(items, ids, rank) == if k < |rest| then Some(items[rest[k]].position) else None
  {
    var above := set id | id in ids && items[id].position > rank;
    if k < |rest| { assert rest[k] in rest && rest[k] in above; }
    forall x | x in above ensures k < |rest| && items[rest[k]].position <= items[x].position {
      var m := Positioned(items, ids, rest, x);
    }
    if k < |rest| {
      hide IsOrder;
      InTable(items, ids, Ascending(above));
      LowestIs(items, Ascending(above), rest[k]);
    }
  }

  lemma {:induction false} AnchorBefore(items: Items, ids: set<Id>, rest: seq<Id>, rank: real, k: nat)
    requires IsOrder(items, ids, rest) && k <= |rest|
    requires forall i :: 0 <= i < k ==> items[rest[i]].position < rank
    requires forall i :: k <= i < |rest| ==> rank <= items[rest[i]].position
    ensures RankBelow(items, ids, rank) == if k > 0 then Some(items[rest[k - 1]].position) else None
  {
    var below := set id | id in ids && items[id].position < rank;
    if k > 0 {
      assert rest[k - 1] in rest;
      assert rest[k - 1] in below;
    }
    forall x | x in below ensures k > 0 && items[x].position <= items[rest[k - 1]].position {
      var m := Positioned(items, ids, rest, x);
    }
    if k > 0 {
      InTable(items, ids, Ascending(below));
      HighestIs(items, Ascending(below), rest[k - 1]);
    }
  }

  lemma {:induction false} EndOfScope(items: Items, ids: set<Id>, rest: seq<Id>)
    requires IsOrder(items, ids, rest)
    ensures LastRank(items, ids) == if rest == [] then None else Some(items[rest[|rest| - 1]].position)
  {
    OrderOfNothing(items, ids, rest);
    if rest != [] {
      assert rest[|rest| - 1] in rest;
      forall x | x in ids ensures items[x].position <= items[rest[|rest| - 1]].position {
        var m := Positioned(items, ids, rest, x);
      }
      InTable(items, ids, Ascending(ids));
      HighestIs(items, Ascending(ids), rest[|rest| - 1]);
    }
  }

  lemma {:induction false} WithoutSplits(order: seq<Id>, id: Id, k: nat)
    requires k < |order| && order[k] == id && id !in order[..k] && id !in order[k + 1..]
    ensures Without(order, id) == order[..k] + order[k + 1..]
  {
    if k == 0 {
      WithoutAbsent(order[1..], id);
    } else {
      assert order[0] in order[..k];
      assert order[1..][..k - 1] == order[..k][1..] && order[1..][k..] == order[k + 1..];
      WithoutSplits(order[1..], id, k - 1);
    }
  }

  lemma {:induction false} WithoutAbsent(order: seq<Id>, id: Id)
    requires id !in order
    ensures Without(order, id) == order
  {
    if order != [] {
      assert order[0] in order;
      WithoutAbsent(order[1..], id);
    }
  }

  // Taken out and put back at its own index, an item changes nothing.
  lemma {:induction false} OwnIndex(items: Items, ids: set<Id>, order: seq<Id>, id: Id) returns (k: nat)
    requires IsOrder(items, ids, order) && id in ids
    ensures var rest := Without(order, id);
            && k <= |rest| && order == InsertAt(rest, k, id)
            && (forall i :: 0 <= i < |rest| ==> rest[i] in items)
            && (forall i :: 0 <= i < k ==> items[rest[i]].position < items[id].position)
            && (forall i :: k <= i < |rest| ==> items[id].position < items[rest[i]].position)
  {
    k := Positioned(items, ids, order, id);
    WithoutSplits(order, id, k);
  }

  // A rank that fits at index `k` of the other siblings realises that index.
  lemma {:induction false} RankSettles(items: Items, items': Items, ids: set<Id>, order: seq<Id>, id: Id, k: nat)
    requires IsOrder(items, ids, order)
    requires id in items' && forall x :: x in ids && x != id ==> x in items' && items'[x].position == items[x].position
    requires var rest := Without(order, id); k <= |rest| && (forall i :: 0 <= i < |rest| ==> rest[i] in items)
    requires var rest := Without(order, id);
             && (k > 0 ==> items[rest[k - 1]].position < items'[id].position)
             && (k < |rest| ==> items'[id].position < items[rest[k]].position)
    ensures IsOrder(items', ids + {id}, InsertAt(Without(order, id), k, id))
  {
    WithoutKeepsOrder(items, ids, order, id);
    InsertKeepsOrder(items, items', ids - {id}, Without(order, id), k, id);
    assert ids - {id} + {id} == ids + {id};
  }

  lemma {:induction false} OtherIndex(items: Items, ids: set<Id>, order: seq<Id>, id: Id, anchor: Id) returns (k: nat)
    requires IsOrder(items, ids, order) && anchor in ids && anchor != id
    ensures var rest := Without(order, id);
            && k < |rest| && rest[k] == anchor && k == IndexOf(rest, anchor)
            && (forall i :: 0 <= i < |rest| ==> rest[i] in items)
            && (forall i :: 0 <= i < k ==> items[rest[i]].position < items[anchor].position)
            && (forall i :: k < i < |rest| ==> items[anchor].position < items[rest[i]].position)
  {
    assert ids <= items.Keys;
    hide IsOrder, Rising, Without;
    var rest := Without(order, id);
    WithoutKeepsOrder(items, ids, order, id);
    k := Positioned(items, ids - {id}, rest, anchor);
  }

  // Where the anchor puts the item among the others.
  lemma {:induction false} AnchorIndex(items: Items, ids: set<Id>, order: seq<Id>, id: Id, anchor: Id) returns (k: nat)
    requires IsOrder(items, ids, order) && anchor in ids
    ensures var rest := Without(order, id);
            && k <= |rest|
            && (forall i :: 0 <= i < |rest| ==> rest[i] in items)
            && (anchor != id ==> k < |rest| && rest[k] == anchor)
            && (forall i :: 0 <= i < k ==> items[rest[i]].position < items[anchor].position)
            && (forall i :: (if anchor == id then k else k + 1) <= i < |rest| ==> items[anchor].position < items[rest[i]].position)
            && Arranged(order, id, None, Some(anchor)) == InsertAt(rest, k, id)
            && Arranged(order, id, Some(anchor), None) == InsertAt(rest, if anchor == id then k else k + 1, id)
  {
    assert ids <= items.Keys;
    hide IsOrder, Rising, Without, InsertAt, Arranged;
    if anchor == id {
      k := OwnIndex(items, ids, order, id);
    } else {
      k := OtherIndex(items, ids, order, id, anchor);
    }
  }

  lemma {:induction false} AnchoredAfter(items: Items, items': Items, ids: set<Id>, order: seq<Id>, id: Id, anchor: Id)
    requires IsOrder(items, ids, order) && anchor in ids
    requires id in items' && forall x :: x in ids && x != id ==> x in items' && items'[x].position == items[x].position
    requires var rank := items[anchor].position;
             items'[id].position == match RankAbove(items, ids - {id}, rank)
                                    case Some(next) => (rank + next) / 2.0
                                    case None => rank + 1.0
    ensures IsOrder(items', ids + {id}, Arranged(order, id, Some(anchor), None))
  {
    assert ids <= items.Keys;
    hide IsOrder, Rising, Without, InsertAt, RankAbove, Arranged;
    var i := AnchorIndex(items, ids, order, id, anchor);
    var k := if anchor == id then i else i + 1;
    WithoutKeepsOrder(items, ids, order, id);
    AnchorAfter(items, ids - {id}, Without(order, id), items[anchor].position, k);
    RankSettles(items, items', ids, order, id, k);
  }

  lemma {:induction false} AnchoredBefore(items: Items, items': Items, ids: set<Id>, order: seq<Id>, id: Id, anchor: Id)
    requires IsOrder(items, ids, order) && anchor in ids
    requires id in items' && forall x :: x in ids && x != id ==> x in items' && items'[x].position == items[x].position
    requires var rank := items[anchor].position;
             items'[id].position == match RankBelow(items, ids - {id}, rank)
                                    case Some(prev) => (prev + rank) / 2.0
                                    case None => rank - 1.0
    ensures IsOrder(items', ids + {id}, Arranged(order, id, None, Some(anchor)))
  {
    assert ids <= items.Keys;
    hide IsOrder, Rising, Without, InsertAt, RankBelow, Arranged;
    var k := AnchorIndex(items, ids, order, id, anchor);
    WithoutKeepsOrder(items, ids, order, id);
    AnchorBefore(items, ids - {id}, Without(order, id), items[anchor].position, k);
    RankSettles(items, items', ids, order, id, k);
  }

  lemma {:induction false} EndOfOthers(items: Items, ids: set<Id>, order: seq<Id>, id: Id, looked: set<Id>)
    requires IsOrder(items, ids, order) && (looked == ids || looked == ids - {id})
    ensures var rest := Without(order, id);
            rest != [] ==> rest[|rest| - 1] in items && LastRank(items, looked).Some?
                           && items[rest[|rest| - 1]].position <= LastRank(items, looked).value
  {
    assert ids <= items.Keys && forall x :: x in order ==> x in ids;
    hide IsOrder, Rising, Without, LastRank;
    var rest := Without(order, id);
    WithoutKeepsOrder(items, ids, order, id);
    WithoutElements(order, id);
    if rest != [] {
      var last := rest[|rest| - 1];
      assert last in rest && last in order;
      if looked == ids {
        EndOfScope(items, ids, order);
        var m := Positioned(items, ids, order, last);
      } else {
        EndOfScope(items, looked, rest);
      }
    }
  }

  lemma {:induction false} AppendArranges(order: seq<Id>, id: Id)
    ensures Arranged(order, id, None, None) == InsertAt(Without(order, id), |Without(order, id)|, id)
  {
  }

  lemma {:induction false} Appended(items: Items, items': Items, ids: set<Id>, order: seq<Id>, id: Id, looked: set<Id>)
    requires IsOrder(items, ids, order) && (looked == ids || looked == ids - {id})
    requires id in items' && forall x :: x in ids && x != id ==> x in items' && items'[x].position == items[x].position
    requires items'[id].position == match LastRank(items, looked) case Some(last) => last + 1.0 case None => 1.0
    ensures IsOrder(items', ids + {id}, Arranged(order, id, None, None))
  {
    var rest := Without(order, id);
    WithoutRises(items, order, id);
    EndOfOthers(items, ids, order, id, looked);
    AppendArranges(order, id);
    RankSettles(items, items', ids, order, id, |rest|);
  }

  lemma ScopeOfWrite(items: Items, ws: Id, id: Id, row: ItemRow, parent: Option<Id>)
    requires row.ws == ws && row.parent == parent && row.deletedAt.None?
    ensures Scope(items, ws, parent, Some(id)) == Scope(items, ws, parent, None) - {id}
    ensures Scope(items[id := row], ws, parent, None) == Scope(items, ws, parent, None) + {id}
  {
  }

  lemma LookedUpScopes(items: Items, ws: Id, parent: Option<Id>, id: Id, moving: Option<Id>, tail: Option<Id>)
    requires (moving == Some(id)) || (moving == None && id !in items)
    requires tail == None || tail == Some(id)
    ensures var ids := Scope(items, ws, parent, None);
            && Scope(items, ws, parent, moving) == ids - {id}
            && (Scope(items, ws, parent, tail) == ids || Scope(items, ws, parent, tail) == ids - {id})
  {
  }

  /** Whatever rank `_compute_position` picks realises the intended order. */
  lemma {:induction false} PlacedAsIntended(items: Items, ws: Id, parent: Option<Id>, after: Option<Id>, before: Option<Id>,
                         id: Id, moving: Option<Id>, tail: Option<Id>, order: seq<Id>, items': Items, ids: set<Id>)
    requires ids == Scope(items, ws, parent, None)
    requires IsOrder(items, ids, order)
    requires (moving == Some(id)) || (moving == None && id !in items)
    requires tail == None || tail == Some(id)
    requires id in items' && forall x :: x in ids && x != id ==> x in items' && items'[x].position == items[x].position
    requires Place(items, ws, parent, after, before, moving, tail) == At(items'[id].position)
    ensures IsOrder(items', ids + {id}, Arranged(order, id, after, before))
  {
    hide IsOrder, Rising, Without, Arranged, RankAbove, RankBelow, LastRank;
    LookedUpScopes(items, ws, parent, id, moving, tail);
    if after.Some? {
      AnchoredAfter(items, items', ids, order, id, after.value);
    } else if before.Some? {
      AnchoredBefore(items, items', ids, order, id, before.value);
    } else {
      Appended(items, items', ids, order, id, Scope(items, ws, parent, tail));
    }
  }

  // --- What creating, moving, editing and deleting keep -----------------------------

  // Writing one live row whose scope has an order keeps every scope's ranks distinct.
  lemma {:induction false} WriteKeepsRanks(items: Items, id: Id, row: ItemRow, order: seq<Id>)
    requires RanksDistinct(items) && row.deletedAt.None?
    requires IsOrder(items[id := row], Scope(items[id := row], row.ws, row.parent, None), order)
    ensures RanksDistinct(items[id := row])
  {
    var items' := items[id := row];
    var scope := Scope(items', row.ws, row.parent, None);
    forall x | x in scope && x != id ensures items'[x].position != row.position {
      var m := Positioned(items', scope, order, x);
      var k := Positioned(items', scope, order, id);
    }
  }

  // A scope neither left nor entered keeps its order.
  lemma WriteKeepsOtherScopes(items: Items, id: Id, row: ItemRow, ws: Id, parent: Option<Id>)
    requires RanksDistinct(items) && RanksDistinct(items[id := row])
    requires !(row.ws == ws && row.parent == parent && row.deletedAt.None?)
    requires id !in Scope(items, ws, parent, None)
    ensures Siblings(items[id := row], ws, parent) == Siblings(items, ws, parent)
  {
    var items' := items[id := row];
    var o := Siblings(items, ws, parent);
    assert Scope(items', ws, parent, None) == Scope(items, ws, parent, None);
    assert IsOrder(items', Scope(items', ws, parent, None), o) by {
      forall i | 0 <= i < |o| ensures o[i] != id { assert o[i] in o; }
    }
    OrderIsUnique(items', Scope(items', ws, parent, None), o, Siblings(items', ws, parent));
  }

  // The scope an item leaves closes up behind it.
  lemma WriteClosesScope(items: Items, id: Id, row: ItemRow, ws: Id, parent: Option<Id>)
    requires RanksDistinct(items) && RanksDistinct(items[id := row])
    requires !(row.ws == ws && row.parent == parent && row.deletedAt.None?)
    ensures Siblings(items[id := row], ws, parent) == Without(Siblings(items, ws, parent), id)
  {
    var items' := items[id := row];
    var ids := Scope(items, ws, parent, None);
    var o := Siblings(items, ws, parent);
    var rest := Without(o, id);
    assert Scope(items', ws, parent, None) == ids - {id};
    WithoutKeepsOrder(items, ids, o, id);
    assert IsOrder(items', ids - {id}, rest) by {
      forall i | 0 <= i < |rest| ensures rest[i] in ids - {id} { assert rest[i] in rest; }
    }
    OrderIsUnique(items', ids - {id}, rest, Siblings(items', ws, parent));
  }

  lemma WriteArranges(items: Items, ws: Id, parent: Option<Id>, after: Option<Id>, before: Option<Id>,
                      id: Id, moving: Option<Id>, tail: Option<Id>, row: ItemRow)
    requires RanksDistinct(items)
    requires (moving == Some(id)) || (moving == None && id !in items)
    requires tail == None || tail == Some(id)
    requires row.ws == ws && row.parent == parent && row.deletedAt.None?
    requires Place(items, ws, parent, after, before, moving, tail) == At(row.position)
    ensures RanksDistinct(items[id := row])
    ensures Siblings(items[id := row], ws, parent) == Arranged(Siblings(items, ws, parent), id, after, before)
  {
    var items' := items[id := row];
    var ids := Scope(items, ws, parent, None);
    var o := Siblings(items, ws, parent);
    PlacedAsIntended(items, ws, parent, after, before, id, moving, tail, o, items', ids);
    ScopeOfWrite(items, ws, id, row, parent);
    WriteKeepsRanks(items, id, row, Arranged(o, id, after, before));
    OrderIsUnique(items', ids + {id}, Arranged(o, id, after, before), Siblings(items', ws, parent));
  }

  ghost predicate OtherScopesKept(items: Items, items': Items, ws: Id, parent: Option<Id>, oldParent: Option<Id>)
    requires RanksDistinct(items) && RanksDistinct(items')
  {
    forall w: Id, q: Option<Id> ::
      (w != ws || (q != parent && q != oldParent)) ==> Siblings(items', w, q) == Siblings(items, w, q)
  }

  lemma WriteKeepsAllOtherScopes(items: Items, id: Id, row: ItemRow, oldParent: Option<Id>)
    requires RanksDistinct(items) && RanksDistinct(items[id := row]) && row.deletedAt.None?
    requires id in items ==> items[id].ws == row.ws && items[id].parent == oldParent
    ensures OtherScopesKept(items, items[id := row], row.ws, row.parent, oldParent)
  {
    forall w: Id, q: Option<Id> | w != row.ws || (q != row.parent && q != oldParent)
      ensures Siblings(items[id := row], w, q) == Siblings(items, w, q)
    {
      WriteKeepsOtherScopes(items, id, row, w, q);
    }
  }

  lemma CreateKeepsForest(items: Items, ws: Id, parent: Option<Id>, after: Option<Id>, before: Option<Id>, id: Id,
                          row: ItemRow)
    requires Forest(items) && id !in items
    requires row.ws == ws && row.parent == parent && row.deletedAt.None?
    ensures PlanCreate(items, ws, parent, after, before).At? ==> Forest(items[id := row])
  {
    assert !HasLiveChildren(items, id);
  }

  /** Creating an item shows it exactly where it was asked for and changes no
      other scope. */
  lemma CreateRefinesOrder(items: Items, ws: Id, parent: Option<Id>, after: Option<Id>, before: Option<Id>, id: Id,
                           row: ItemRow)
    requires RanksDistinct(items) && id !in items
    requires PlanCreate(items, ws, parent, after, before) == At(row.position)
    requires row.ws == ws && row.parent == parent && row.deletedAt.None?
    ensures RanksDistinct(items[id := row])
    ensures Siblings(items[id := row], ws, parent) == Arranged(Siblings(items, ws, parent), id, after, before)
    ensures OtherScopesKept(items, items[id := row], ws, parent, parent)
  {
    WriteArranges(items, ws, parent, after, before, id, None, None, row);
    WriteKeepsAllOtherScopes(items, id, row, parent);
  }

  lemma MoveKeepsForest(items: Items, ws: Id, id: Id, parent: Option<Id>, after: Option<Id>, before: Option<Id>,
                        tail: Option<Id>, row: ItemRow)
    requires Forest(items) && Live(items, ws, id)
    requires PlanMove(items, ws, id, parent, after, before, tail).At?
    requires row.ws == ws && row.parent == parent && row.deletedAt.None?
    ensures Forest(items[id := row])
  {
  }

  /** Moving an item, from either entry point, rearranges its new scope as asked
      (to where it was, when it is its own anchor), closes up the old one, and
      changes no other. */
  lemma MoveRefinesOrder(items: Items, ws: Id, id: Id, parent: Option<Id>, after: Option<Id>, before: Option<Id>,
                         tail: Option<Id>, row: ItemRow)
    requires RanksDistinct(items) && Live(items, ws, id)
    requires tail == None || tail == Some(id)
    requires PlanMove(items, ws, id, parent, after, before, tail) == At(row.position)
    requires row.ws == ws && row.parent == parent && row.deletedAt.None?
    ensures RanksDistinct(items[id := row])
    ensures Siblings(items[id := row], ws, parent) == Arranged(Siblings(items, ws, parent), id, after, before)
    ensures items[id].parent != parent ==>
              Siblings(items[id := row], ws, items[id].parent) == Without(Siblings(items, ws, items[id].parent), id)
    ensures OtherScopesKept(items, items[id := row], ws, parent, items[id].parent)
  {
    WriteArranges(items, ws, parent, after, before, id, Some(id), tail, row);
    if items[id].parent != parent {
      WriteClosesScope(items, id, row, ws, items[id].parent);
    }
    WriteKeepsAllOtherScopes(items, id, row, items[id].parent);
  }

  /** What the cascade leaves of each row. */
  lemma {:induction false} BuryAllBuries(db: Db, ids: seq<Id>, now: Time, user: Id)
    requires forall i :: i in ids ==> i in db.items
    requires forall i, j :: 0 <= i < j < |ids| ==> ids[i] != ids[j]
    ensures var db' := BuryAll(db, ids, now, user);
            && db'.events == db.events && db'.notes == db.notes && db'.applied == db.applied
            && forall x :: x in db.items ==> db'.items[x] == if x in ids then Buried(db.items[x], now) else db.items[x]
    decreases |ids|
  {
    if ids != [] {
      var db1 := SaveItem(db, ids[0], Buried(db.items[ids[0]], now), Delete, user);
      forall x | x in ids[1..] ensures x != ids[0] {
        var m :| 0 <= m < |ids| - 1 && ids[1..][m] == x;
      }
      BuryAllBuries(db1, ids[1..], now, user);
    }
  }

  lemma {:induction false} BuryAllKeepsLog(db: Db, ids: seq<Id>, now: Time, user: Id)
    requires LogTells(db)
    requires forall i :: i in ids ==> i in db.items && db.items[i].deletedAt.None?
    requires forall i, j :: 0 <= i < j < |ids| ==> ids[i] != ids[j]
    ensures LogTells(BuryAll(db, ids, now, user))
    decreases |ids|
  {
    if ids != [] {
      var row := Buried(db.items[ids[0]], now);
      SaveItemKeepsLog(db, ids[0], row, Delete, user);
      var db1 := SaveItem(db, ids[0], row, Delete, user);
      forall x | x in ids[1..] ensures x != ids[0] {
        var m :| 0 <= m < |ids| - 1 && ids[1..][m] == x;
      }
      BuryAllKeepsLog(db1, ids[1..], now, user);
    }
  }

  lemma BurySetBuries(db: Db, kids: set<Id>, now: Time, user: Id)
    requires kids <= db.items.Keys
    ensures var db' := BuryAll(db, Ascending(kids), now, user);
            && db'.events == db.events && db'.notes == db.notes && db'.applied == db.applied
            && forall x :: x in db.items ==> db'.items[x] == if x in kids then Buried(db.items[x], now) else db.items[x]
  {
    BuryAllBuries(db, Ascending(kids), now, user);
  }

  /** Deleting a live item soft-deletes exactly it and its live children. */
  lemma DeleteTakesTheTree(db: Db, ws: Id, id: Id, now: Time, user: Id)
    requires Forest(db.items) && Live(db.items, ws, id)
    ensures var db' := DeleteTree(db, ws, id, now, user);
            && db'.events == db.events && db'.notes == db.notes && db'.applied == db.applied
            && db'.items.Keys == db.items.Keys
            && forall x :: x in db.items ==>
                  db'.items[x] == if x == id || x in LiveChildren(db.items, ws, id) then Buried(db.items[x], now) else db.items[x]
  {
    BurySetBuries(db, Doomed(db.items, ws, id), now, user);
  }

  /** Taking a tree away leaves a forest with distinct ranks. */
  lemma TreeGoneKeepsShape(items: Items, ws: Id, id: Id, now: Time, items': Items)
    requires Forest(items) && RanksDistinct(items) && Live(items, ws, id) && items'.Keys == items.Keys
    requires forall x :: x in items ==>
      items'[x] == if x == id || x in LiveChildren(items, ws, id) then Buried(items[x], now) else items[x]
    ensures Forest(items') && RanksDistinct(items')
  {
    forall c | c in items' && items'[c].deletedAt.None? && items'[c].parent.Some?
      ensures Live(items', items'[c].ws, items'[c].parent.value) && items'[items'[c].parent.value].parent.None?
    {
      var p := items[c].parent.value;
      assert Live(items, items[c].ws, p);
      assert p == id ==> c in LiveChildren(items, ws, id);
    }
  }

  lemma DeleteKeepsLog(db: Db, ws: Id, id: Id, now: Time, user: Id)
    requires LogTells(db) && Live(db.items, ws, id)
    ensures LogTells(DeleteTree(db, ws, id, now, user))
  {
    var doomed := Doomed(db.items, ws, id);
    BurySetBuries(db, doomed, now, user);
    BuryAllKeepsLog(db, Ascending(doomed), now, user);
    var db1 := BuryAll(db, Ascending(doomed), now, user);
    assert id !in doomed;
    SaveItemKeepsLog(db1, id, Buried(db1.items[id], now), Delete, user);
  }

  // The order of the rows that keep their place is the order they had.
  lemma {:induction false} RestKeepsOrder(items: Items, items': Items, ids: set<Id>, id: Id, o: seq<Id>, o': seq<Id>)
    requires IsOrder(items, ids, o) && IsOrder(items', ids - {id}, o')
    requires forall x :: x in ids && x != id ==> x in items' && items'[x].position == items[x].position
    ensures o' == Without(o, id)
  {
    WithoutKeepsOrder(items, ids, o, id);
    var rest := Without(o, id);
    forall i | 0 <= i < |rest| ensures rest[i] in ids - {id} { assert rest[i] in rest; }
    assert IsOrder(items', ids - {id}, rest);
    OrderIsUnique(items', ids - {id}, rest, o');
  }

  ghost predicate TreeBuried(items: Items, items': Items, ws: Id, id: Id, now: Time) {
    && items'.Keys == items.Keys
    && forall x :: x in items ==>
         items'[x] == if x == id || x in LiveChildren(items, ws, id) then Buried(items[x], now) else items[x]
  }

  lemma DeleteClosesScopes(items: Items, ws: Id, id: Id, now: Time, items': Items)
    requires Forest(items) && RanksDistinct(items) && RanksDistinct(items')
    requires Live(items, ws, id) && TreeBuried(items, items', ws, id, now)
    ensures Siblings(items', ws, items[id].parent) == Without(Siblings(items, ws, items[id].parent), id)
    ensures Siblings(items', ws, Some(id)) == []
  {
    var parent := items[id].parent;
    var ids := Scope(items, ws, parent, None);
    assert Scope(items', ws, parent, None) == ids - {id};
    assert Scope(items', ws, Some(id), None) == {};
    OrderOfNothing(items', {}, Siblings(items', ws, Some(id)));
    RestKeepsOrder(items, items', ids, id, Siblings(items, ws, parent), Siblings(items', ws, parent));
  }

  /** Deleting leaves the other siblings in order, nothing under the item, and every other
      scope as it was. */
  lemma DeleteRefinesOrder(items: Items, ws: Id, id: Id, now: Time, items': Items)
    requires Forest(items) && RanksDistinct(items) && RanksDistinct(items')
    requires Live(items, ws, id) && TreeBuried(items, items', ws, id, now)
    ensures Siblings(items', ws, items[id].parent) == Without(Siblings(items, ws, items[id].parent), id)
    ensures Siblings(items', ws, Some(id)) == []
    ensures OtherScopesKept(items, items', ws, items[id].parent, Some(id))
  {
    hide OtherScopesKept, TreeBuried, Forest, Siblings, Without;
    DeleteClosesScopes(items, ws, id, now, items');
    DeleteSparesOtherScopes(items, ws, id, now, items');
  }

  lemma DeleteSparesScope(items: Items, ws: Id, id: Id, now: Time, items': Items, w: Id, q: Option<Id>)
    requires RanksDistinct(items) && RanksDistinct(items') && Live(items, ws, id) && TreeBuried(items, items', ws, id, now)
    requires w != ws || (q != items[id].parent && q != Some(id))
    ensures Siblings(items', w, q) == Siblings(items, w, q)
  {
    var ids := Scope(items, w, q, None);
    assert Scope(items', w, q, None) == ids;
    var o := Siblings(items, w, q);
    assert IsOrder(items', ids, o) by {
      forall i | 0 <= i < |o| ensures o[i] in ids { assert o[i] in o; }
    }
    OrderIsUnique(items', ids, o, Siblings(items', w, q));
  }

  lemma DeleteSparesOtherScopes(items: Items, ws: Id, id: Id, now: Time, items': Items)
    requires RanksDistinct(items) && RanksDistinct(items') && Live(items, ws, id) && TreeBuried(items, items', ws, id, now)
    ensures OtherScopesKept(items, items', ws, items[id].parent, Some(id))
  {
    forall w: Id, q: Option<Id> | w != ws || (q != items[id].parent && q != Some(id))
      ensures Siblings(items', w, q) == Siblings(items, w, q)
    {
      DeleteSparesScope(items, ws, id, now, items', w, q);
    }
  }

}