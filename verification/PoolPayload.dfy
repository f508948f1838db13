/** What is left of a scraped payload before anything is written: one item for a key,
    one item for an identity, and none at a vetoed venue. */
module PoolPayload {
  import opened Wrappers
  import opened Pool

  /** Two keys of the form the schema asks for. */
  const KEY := "00000000000000aa"
  const OTHER_KEY := "10000000000000bb"

  function Named(n: Naming, item: Item): Option<Identity> {
    IdentityOf(n, Dumped(item))
  }

  /** No two items are the same candidate under either identity. */
  ghost predicate Separate(n: Naming, items: seq<Item>) {
    && KeysDiffer(items)
    && forall i, j :: 0 <= i < j < |items| && Named(n, items[i]).Some? ==> Named(n, items[i]) != Named(n, items[j])
  }

  ghost predicate KeysDiffer(table: seq<Item>) {
    forall i, j :: 0 <= i < j < |table| ==> table[i].key != table[j].key
  }

  function Keys(table: seq<Item>): set<string> {
    set x | x in table :: x.key
  }

  // A table of a first item and the rest.
  lemma {:induction false} HeadAndTail(head: Item, tail: seq<Item>)
    ensures Keys([head] + tail) == {head.key} + Keys(tail)
    ensures KeysDiffer([head] + tail) <==> KeysDiffer(tail) && head.key !in Keys(tail)
  {
    var table := [head] + tail;
    assert forall x :: x in table <==> x == head || x in tail;
    if KeysDiffer(table) {
      forall i, j | 0 <= i < j < |tail| ensures tail[i].key != tail[j].key {
        assert table[i + 1] == tail[i] && table[j + 1] == tail[j];
      }
      forall x | x in tail ensures x.key != head.key {
        var m :| 0 <= m < |tail| && tail[m] == x;
        assert table[0] == head && table[m + 1] == x;
      }
    }
    if KeysDiffer(tail) && head.key !in Keys(tail) {
      forall i, j | 0 <= i < j < |table| ensures table[i].key != table[j].key {
        assert table[j] == tail[j - 1] && tail[j - 1] in tail;
        if i > 0 { assert table[i] == tail[i - 1]; }
      }
    }
  }

  // --- Last item per key ------------------------------------------------------------

  lemma {:induction false} PutReplaces(table: seq<Item>, item: Item)
    requires KeysDiffer(table)
    ensures KeysDiffer(Put(table, item)) && Keys(Put(table, item)) == Keys(table) + {item.key}
    ensures forall x :: x in Put(table, item) <==> x == item || (x in table && x.key != item.key)
    decreases |table|
  {
    if table == [] {
    } else {
      var head, tail := table[0], table[1..];
      assert table == [head] + tail;
      HeadAndTail(head, tail);
      if head.key == item.key {
        HeadAndTail(item, tail);
        assert forall x :: x in tail ==> x.key in Keys(tail);
      } else {
        PutReplaces(tail, item);
        HeadAndTail(head, Put(tail, item));
      }
    }
  }

  function LastPerKey(items: seq<Item>, key: string): Option<Item> {
    if items == [] then None
    else if items[|items| - 1].key == key then Some(items[|items| - 1])
    else LastPerKey(items[..|items| - 1], key)
  }

  lemma {:induction false} ByKeyIsLastPerKey(items: seq<Item>)
    ensures KeysDiffer(ByKey(items)) && Keys(ByKey(items)) == Keys(items)
    ensures forall x :: x in ByKey(items) ==> x in items && LastPerKey(items, x.key) == Some(x)
  {
    if items != [] {
      var earlier, last := items[..|items| - 1], items[|items| - 1];
      assert items == earlier + [last];
      assert forall x :: x in items <==> x in earlier || x == last;
      ByKeyIsLastPerKey(earlier);
      PutReplaces(ByKey(earlier), last);
    }
  }

  // --- Last item per identity -----------------------------------------------------------

  function LastOfIdentity(n: Naming, table: seq<Item>, i: Identity): (r: Option<Item>)
    ensures r.Some? ==> r.value in table && Named(n, r.value) == Some(i)
    ensures r.None? ==> forall x :: x in table ==> Named(n, x) != Some(i)
  {
    if table == [] then None
    else
      assert forall x :: x in table <==> x in table[..|table| - 1] || x == table[|table| - 1];
      if Named(n, table[|table| - 1]) == Some(i) then Some(table[|table| - 1])
      else LastOfIdentity(n, table[..|table| - 1], i)
  }

  lemma {:induction false} WinnersAreLast(n: Naming, table: seq<Item>)
    ensures forall i :: i in Winners(n, table) <==> LastOfIdentity(n, table, i).Some?
    ensures forall i :: i in Winners(n, table) ==> Winners(n, table)[i] == LastOfIdentity(n, table, i).value.key
  {
    hide IdentityOf, Dumped;
    if table != [] {
      WinnersAreLast(n, table[..|table| - 1]);
    }
  }

  predicate Kept(n: Naming, item: Item, kept: set<string>) {
    Named(n, item).None? || item.key in kept
  }

  lemma {:induction false} KeptOnlyKeeps(n: Naming, table: seq<Item>, kept: set<string>)
    requires KeysDiffer(table)
    ensures forall x :: x in KeptOnly(n, table, kept) <==> x in table && Kept(n, x, kept)
    ensures KeysDiffer(KeptOnly(n, table, kept))
    decreases |table|
  {
    if table != [] {
      var head, tail := table[0], table[1..];
      assert table == [head] + tail;
      HeadAndTail(head, tail);
      KeptOnlyKeeps(n, tail, kept);
      HeadAndTail(head, KeptOnly(n, tail, kept));
    }
  }

  // A kept item with an identity is the last one with it.
  lemma {:induction false} KeptIsLast(n: Naming, table: seq<Item>, x: Item)
    requires KeysDiffer(table) && x in table && Named(n, x).Some? && x.key in Winners(n, table).Values
    ensures LastOfIdentity(n, table, Named(n, x).value) == Some(x)
  {
    WinnersAreLast(n, table);
    var i :| i in Winners(n, table) && Winners(n, table)[i] == x.key;
  }

  lemma {:induction false} AllowedAreNotVetoed(items: seq<Item>, veto: seq<string>)
    ensures forall x :: x in Allowed(items, veto) <==> x in items && !Vetoed(Dumped(x), veto)
    decreases |items|
  {
    hide Vetoed, Dumped;
    if items != [] {
      AllowedAreNotVetoed(items[1..], veto);
      assert items == [items[0]] + items[1..];
    }
  }

  lemma {:induction false} CollapseSeparates(n: Naming, table: seq<Item>)
    requires KeysDiffer(table)
    ensures Separate(n, Collapsed(n, table))
    ensures forall x :: x in Collapsed(n, table) ==> x in table
    ensures forall x :: x in table && Named(n, x).None? ==> x in Collapsed(n, table)
    ensures forall x :: x in table && Named(n, x).Some? ==>
              LastOfIdentity(n, table, Named(n, x).value).Some?
              && LastOfIdentity(n, table, Named(n, x).value).value in Collapsed(n, table)
  {
    hide Named, Winners;
    var kept := Winners(n, table).Values;
    var payload := Collapsed(n, table);
    KeptOnlyKeeps(n, table, kept);
    WinnersAreLast(n, table);
    forall i, j | 0 <= i < j < |payload| && Named(n, payload[i]).Some?
      ensures Named(n, payload[i]) != Named(n, payload[j])
    {
      assert payload[i] in payload && payload[j] in payload;
      KeptIsLast(n, table, payload[i]);
      if Named(n, payload[j]) == Named(n, payload[i]) { KeptIsLast(n, table, payload[j]); }
    }
    forall x | x in table && Named(n, x).Some?
      ensures LastOfIdentity(n, table, Named(n, x).value).Some?
              && LastOfIdentity(n, table, Named(n, x).value).value in payload
    {
      var i := Named(n, x).value;
      assert i in Winners(n, table);
      assert Winners(n, table)[i] in kept;
    }
  }

  /** The payload that reaches the pool: no two items the same candidate by key or by
      identity, each one sent, not vetoed and the last allowed under its key. */
  lemma {:induction false} PayloadIsSeparate(n: Naming, items: seq<Item>, veto: seq<string>)
    ensures Separate(n, Payload(n, items, veto))
    ensures forall x :: x in Payload(n, items, veto) ==>
              x in items && !Vetoed(Dumped(x), veto) && LastPerKey(Allowed(items, veto), x.key) == Some(x)
  {
    hide Vetoed, Dumped, Named;
    AllowedAreNotVetoed(items, veto);
    ByKeyIsLastPerKey(Allowed(items, veto));
    CollapseSeparates(n, ByKey(Allowed(items, veto)));
  }

  /** Every allowed item is represented: the last one under its key is in the payload, or
      gave way to the last of its identity. */
  lemma {:induction false} PayloadRepresents(n: Naming, items: seq<Item>, veto: seq<string>, x: Item) returns (last: Item)
    requires x in items && !Vetoed(Dumped(x), veto)
    ensures LastPerKey(Allowed(items, veto), x.key) == Some(last)
    ensures if Named(n, last).None? then last in Payload(n, items, veto)
            else exists y :: y in Payload(n, items, veto) && Named(n, y) == Named(n, last)
  {
    hide Vetoed, Dumped, Named;
    var allowed := Allowed(items, veto);
    AllowedAreNotVetoed(items, veto);
    ByKeyIsLastPerKey(allowed);
    CollapseSeparates(n, ByKey(allowed));
    assert x.key in Keys(allowed) && x.key in Keys(ByKey(allowed));
    last :| last in ByKey(allowed) && last.key == x.key;
  }
}
