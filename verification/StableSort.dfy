/** Sorting by a key that keeps the order of equal keys, as Python's `list.sort` does. */
module StableSort {

  ghost predicate Sorted<T(!new)>(s: seq<T>, key: T -> int) {
    forall i, j :: 0 <= i < j < |s| ==> key(s[i]) <= key(s[j])
  }

  /** `x` goes behind every element that is not greater. */
  function Inserted<T>(s: seq<T>, x: T, key: T -> int): seq<T> {
    if s == [] || key(s[|s| - 1]) <= key(x) then s + [x]
    else Inserted(s[..|s| - 1], x, key) + [s[|s| - 1]]
  }

  function ByKey<T>(s: seq<T>, key: T -> int): seq<T> {
    if s == [] then [] else Inserted(ByKey(s[..|s| - 1], key), s[|s| - 1], key)
  }

  /** Where an insertion puts its element. */
  lemma {:induction false} InsertedAt<T(!new)>(s: seq<T>, x: T, key: T -> int) returns (k: nat)
    requires Sorted(s, key)
    ensures k <= |s| && Inserted(s, x, key) == s[..k] + [x] + s[k..]
    ensures forall i :: 0 <= i < k ==> key(s[i]) <= key(x)
    ensures forall i :: k <= i < |s| ==> key(x) < key(s[i])
    decreases |s|
  {
    if s == [] || key(s[|s| - 1]) <= key(x) {
      k := |s|;
      assert s[..k] + [x] + s[k..] == s + [x];
    } else {
      var shorter, last := s[..|s| - 1], s[|s| - 1];
      k := InsertedAt(shorter, x, key);
      assert s[..k] == shorter[..k] && s[k..] == shorter[k..] + [last];
      assert s[..k] + [x] + s[k..] == shorter[..k] + [x] + shorter[k..] + [last];
    }
  }

  lemma {:induction false} SplicedIsSorted<T(!new)>(a: seq<T>, x: T, b: seq<T>, key: T -> int)
    requires Sorted(a + b, key)
    requires forall i :: 0 <= i < |a| ==> key(a[i]) <= key(x)
    requires forall i :: 0 <= i < |b| ==> key(x) < key(b[i])
    ensures Sorted(a + [x] + b, key)
  {
    var r, s := a + [x] + b, a + b;
    forall i, j | 0 <= i < j < |r| ensures key(r[i]) <= key(r[j]) {
      if i < |a| && |a| < j {
        assert r[i] == s[i] && r[j] == s[j - 1];
      } else if |a| < i {
        assert r[i] == s[i - 1] && r[j] == s[j - 1];
      } else if j < |a| {
        assert r[i] == s[i] && r[j] == s[j];
      }
    }
  }

  lemma {:induction false} InsertedIsSorted<T(!new)>(s: seq<T>, x: T, key: T -> int)
    requires Sorted(s, key)
    ensures Sorted(Inserted(s, x, key), key) && multiset(Inserted(s, x, key)) == multiset(s) + multiset{x}
    ensures forall y :: y in Inserted(s, x, key) <==> y in s || y == x
  {
    var k := InsertedAt(s, x, key);
    var a, b := s[..k], s[k..];
    assert s == a + b;
    SplicedIsSorted(a, x, b, key);
    hide Sorted, Inserted;
    assert multiset(a + [x] + b) == multiset(a) + multiset{x} + multiset(b);
    assert multiset(s) == multiset(a) + multiset(b);
    assert forall y :: y in s <==> y in a || y in b;
  }

  lemma {:induction false} ByKeySorts<T(!new)>(s: seq<T>, key: T -> int)
    ensures Sorted(ByKey(s, key), key) && multiset(ByKey(s, key)) == multiset(s) && |ByKey(s, key)| == |s|
    ensures forall y :: y in ByKey(s, key) <==> y in s
  {
    if s != [] {
      var shorter := s[..|s| - 1];
      ByKeySorts(shorter, key);
      InsertedIsSorted(ByKey(shorter, key), s[|s| - 1], key);
      assert s == shorter + [s[|s| - 1]];
      assert |multiset(s)| == |s| && |multiset(ByKey(s, key))| == |ByKey(s, key)|;
    }
  }

  lemma {:induction false} AlreadySorted<T(!new)>(s: seq<T>, key: T -> int)
    requires Sorted(s, key)
    ensures ByKey(s, key) == s
  {
    if s != [] {
      var shorter := s[..|s| - 1];
      AlreadySorted(shorter, key);
      if shorter != [] { assert key(s[|s| - 2]) <= key(s[|s| - 1]); }
      assert shorter + [s[|s| - 1]] == s;
    }
  }

  /** The elements with one key, in order. */
  function WithKey<T>(s: seq<T>, key: T -> int, k: int): seq<T> {
    if s == [] then []
    else WithKey(s[..|s| - 1], key, k) + if key(s[|s| - 1]) == k then [s[|s| - 1]] else []
  }

  lemma {:induction false} WithKeyConcat<T>(a: seq<T>, b: seq<T>, key: T -> int, k: int)
    ensures WithKey(a + b, key, k) == WithKey(a, key, k) + WithKey(b, key, k)
    decreases |b|
  {
    if b == [] {
      assert a + b == a;
    } else {
      assert (a + b)[..|a + b| - 1] == a + b[..|b| - 1];
      WithKeyConcat(a, b[..|b| - 1], key, k);
    }
  }

  lemma {:induction false} NoneWithKey<T>(s: seq<T>, key: T -> int, k: int)
    requires forall i :: 0 <= i < |s| ==> key(s[i]) != k
    ensures WithKey(s, key, k) == []
  {
    if s != [] { NoneWithKey(s[..|s| - 1], key, k); }
  }

  /** Stability: sorting does not reorder elements of equal key. */
  lemma {:induction false} ByKeyIsStable<T(!new)>(s: seq<T>, key: T -> int, k: int)
    ensures WithKey(ByKey(s, key), key, k) == WithKey(s, key, k)
  {
    if s != [] {
      var shorter, x := s[..|s| - 1], s[|s| - 1];
      ByKeyIsStable(shorter, key, k);
      ByKeySorts(shorter, key);
      InsertedWithKey(ByKey(shorter, key), x, key, k);
    }
  }

  lemma {:induction false} InsertedWithKey<T(!new)>(s: seq<T>, x: T, key: T -> int, k: int)
    requires Sorted(s, key)
    ensures WithKey(Inserted(s, x, key), key, k) == WithKey(s, key, k) + if key(x) == k then [x] else []
  {
    var m := InsertedAt(s, x, key);
    var a, b := s[..m], s[m..];
    if key(x) == k { NoneWithKey(b, key, k); }
    hide Sorted, Inserted;
    assert s == a + b && WithKey([x], key, k) == if key(x) == k then [x] else [];
    WithKeyConcat(a, b, key, k);
    WithKeyConcat(a + [x], b, key, k);
    WithKeyConcat(a, [x], key, k);
  }
}
