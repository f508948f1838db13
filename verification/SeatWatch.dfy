/** Neighbouring free seats in a hall plan: `find_adjacent` of `infra/claudebox/seat-watch.py`. */
module SeatWatch {
  import opened Wrappers
  import StableSort

  const PITCH_MIN := 12
  const PITCH_MAX := 26
  const ROW_TOLERANCE := 3

  datatype Seat = Seat(left: int, top: int, occupied: bool, category: Option<string>, seatId: Option<string>)

  /** Seats whose `top` is close to an anchor's. */
  datatype Row = Row(anchor: int, seats: seq<Seat>)

  predicate Free(s: Seat, exclude: seq<string>) {
    !s.occupied && (s.category.None? || s.category.value !in exclude)
  }

  function FreeSeats(seats: seq<Seat>, exclude: seq<string>): seq<Seat> {
    if seats == [] then []
    else FreeSeats(seats[..|seats| - 1], exclude) + if Free(seats[|seats| - 1], exclude) then [seats[|seats| - 1]] else []
  }

  predicate Near(anchor: int, s: Seat) {
    -ROW_TOLERANCE <= anchor - s.top <= ROW_TOLERANCE
  }

  /** The seat joins the first row near it, or opens one. */
  function Joined(rows: seq<Row>, s: Seat): seq<Row> {
    if rows == [] then [Row(s.top, [s])]
    else if Near(rows[0].anchor, s) then [rows[0].(seats := rows[0].seats + [s])] + rows[1..]
    else [rows[0]] + Joined(rows[1..], s)
  }

  function Grouped(free: seq<Seat>): seq<Row> {
    if free == [] then [] else Joined(Grouped(free[..|free| - 1]), free[|free| - 1])
  }

  function LeftOf(s: Seat): int { s.left }

  function AnchorOf(r: Row): int { r.anchor }

  function SeatsByLeft(r: Row): seq<Seat> {
    StableSort.ByKey(r.seats, LeftOf)
  }

  /** The free seats as rows from the top, each from left to right. */
  function Rows(seats: seq<Seat>, exclude: seq<string>): seq<Row> {
    StableSort.ByKey(Grouped(FreeSeats(seats, exclude)), AnchorOf)
  }

  predicate Beside(a: Seat, b: Seat) {
    PITCH_MIN <= b.left - a.left <= PITCH_MAX
  }

  // --- What is looked for -----------------------------------------------------------------

  /** A seat that is free, in a category that was not ruled out. */
  predicate Offered(s: Seat, exclude: seq<string>) {
    !s.occupied && !(s.category.Some? && s.category.value in exclude)
  }

  /** Three pixels up or down is the same row. */
  predicate AtHeight(anchor: int, s: Seat) {
    s.top - 3 <= anchor <= s.top + 3
  }

  /** From twelve to twenty-six pixels to the right is the next seat. */
  predicate NextTo(a: Seat, b: Seat) {
    a.left + 12 <= b.left <= a.left + 26
  }

  /** `want` seats side by side from index `i` on. */
  ghost predicate Window(row: seq<Seat>, i: nat, want: nat) {
    i + want <= |row| && forall k :: i < k < i + want ==> NextTo(row[k - 1], row[k])
  }

  ghost predicate NoWindow(row: seq<Seat>, want: nat) {
    forall i: nat :: !Window(row, i, want)
  }

  /** The leftmost window. */
  ghost predicate FirstWindow(row: seq<Seat>, i: nat, want: nat) {
    Window(row, i, want) && forall j: nat :: j < i ==> !Window(row, j, want)
  }

  // --- Rows are what they should be ----------------------------------------------------------

  lemma {:induction false} FreeSeatsExact(seats: seq<Seat>, exclude: seq<string>)
    ensures forall s :: s in FreeSeats(seats, exclude) <==> s in seats && Free(s, exclude)
  {
    if seats != [] {
      var shorter := seats[..|seats| - 1];
      FreeSeatsExact(shorter, exclude);
      assert seats == shorter + [seats[|seats| - 1]];
    }
  }

  ghost predicate InRow(rows: seq<Row>, s: Seat) {
    exists r :: r in rows && s in r.seats
  }

  predicate RowOk(r: Row) {
    r.seats != [] && r.anchor == r.seats[0].top && forall s :: s in r.seats ==> AtHeight(r.anchor, s)
  }

  ghost predicate RowsOk(rows: seq<Row>) {
    && (forall r :: r in rows ==> RowOk(r))
    && (forall i, j :: 0 <= i < j < |rows| ==> rows[i].anchor != rows[j].anchor)
  }

  function Anchors(rows: seq<Row>): set<int> {
    set r | r in rows :: r.anchor
  }

  lemma {:induction false} SplitRows(head: Row, tail: seq<Row>)
    ensures forall t :: InRow([head] + tail, t) <==> t in head.seats || InRow(tail, t)
    ensures Anchors([head] + tail) == {head.anchor} + Anchors(tail)
    ensures RowsOk([head] + tail) <==> RowsOk(tail) && head.anchor !in Anchors(tail) && RowOk(head)
  {
    hide RowOk;
    var rows := [head] + tail;
    assert forall r :: r in rows <==> r == head || r in tail;
    if RowsOk(rows) {
      forall i, j | 0 <= i < j < |tail| ensures tail[i].anchor != tail[j].anchor {
        assert rows[i + 1] == tail[i] && rows[j + 1] == tail[j];
      }
      forall r | r in tail ensures r.anchor != head.anchor {
        var m :| 0 <= m < |tail| && tail[m] == r;
        assert rows[0] == head && rows[m + 1] == r;
      }
    }
    if RowsOk(tail) && head.anchor !in Anchors(tail) && RowOk(head) {
      forall i, j | 0 <= i < j < |rows| ensures rows[i].anchor != rows[j].anchor {
        assert rows[j] == tail[j - 1] && tail[j - 1] in tail;
        if i > 0 { assert rows[i] == tail[i - 1]; }
      }
    }
  }

  /** The seat is in exactly one more place, near that row's anchor. */
  lemma {:induction false} JoinedOk(rows: seq<Row>, s: Seat)
    requires RowsOk(rows)
    ensures RowsOk(Joined(rows, s))
    ensures forall t :: InRow(Joined(rows, s), t) <==> InRow(rows, t) || t == s
    ensures Anchors(Joined(rows, s)) <= Anchors(rows) + {s.top}
    ensures s.top in Anchors(rows) ==> Anchors(Joined(rows, s)) == Anchors(rows)
    decreases |rows|
  {
    if rows == [] {
      SplitRows(Row(s.top, [s]), []);
    } else {
      var head, tail := rows[0], rows[1..];
      assert rows == [head] + tail;
      SplitRows(head, tail);
      if Near(head.anchor, s) {
        SplitRows(head.(seats := head.seats + [s]), tail);
      } else {
        JoinedOk(tail, s);
        SplitRows(head, Joined(tail, s));
      }
    }
  }

  lemma {:induction false} GroupedOk(free: seq<Seat>)
    ensures RowsOk(Grouped(free))
    ensures forall s :: InRow(Grouped(free), s) <==> s in free
  {
    if free != [] {
      var shorter := free[..|free| - 1];
      GroupedOk(shorter);
      JoinedOk(Grouped(shorter), free[|free| - 1]);
      assert free == shorter + [free[|free| - 1]];
    }
  }

  // --- Every seat in one row, as often as it is free -------------------------------------------

  lemma {:induction false} FreeSeatsCount(seats: seq<Seat>, exclude: seq<string>, s: Seat)
    ensures multiset(FreeSeats(seats, exclude))[s] == if Free(s, exclude) then multiset(seats)[s] else 0
  {
    if seats != [] {
      var shorter, last := seats[..|seats| - 1], seats[|seats| - 1];
      FreeSeatsCount(shorter, exclude, s);
      assert seats == shorter + [last];
    }
  }

  /** Each seat is in the first row that is near it, and in no other. */
  ghost predicate FirstNear(rows: seq<Row>) {
    forall i, j, s :: 0 <= i < j < |rows| && s in rows[j].seats ==> !AtHeight(rows[i].anchor, s)
  }

  lemma {:induction false} JoinedAt(rows: seq<Row>, s: Seat) returns (k: nat)
    ensures k <= |rows| && forall i :: 0 <= i < k ==> !Near(rows[i].anchor, s)
    ensures k < |rows| ==>
              Near(rows[k].anchor, s)
              && Joined(rows, s) == rows[..k] + [rows[k].(seats := rows[k].seats + [s])] + rows[k + 1..]
    ensures k == |rows| ==> Joined(rows, s) == rows + [Row(s.top, [s])]
    decreases |rows|
  {
    if rows == [] || Near(rows[0].anchor, s) {
      k := 0;
    } else {
      var k' := JoinedAt(rows[1..], s);
      k := k' + 1;
      assert rows == [rows[0]] + rows[1..];
    }
  }

  /** Every row holds its seats as often as `free` does. */
  ghost predicate CountsKept(rows: seq<Row>, free: seq<Seat>) {
    forall i, s :: 0 <= i < |rows| && s in rows[i].seats ==> multiset(rows[i].seats)[s] == multiset(free)[s]
  }

  lemma {:induction false} GroupedCounts(free: seq<Seat>)
    ensures FirstNear(Grouped(free)) && CountsKept(Grouped(free), free)
  {
    if free != [] {
      var shorter, x := free[..|free| - 1], free[|free| - 1];
      assert free == shorter + [x];
      GroupedCounts(shorter);
      GroupedOk(shorter);
      JoinedCounts(Grouped(shorter), shorter, x);
    }
  }

  lemma {:induction false} JoinedCounts(rows: seq<Row>, free: seq<Seat>, x: Seat)
    requires RowsOk(rows) && FirstNear(rows) && CountsKept(rows, free) && forall s :: InRow(rows, s) <==> s in free
    ensures FirstNear(Joined(rows, x)) && CountsKept(Joined(rows, x), free + [x])
  {
    var k := JoinedAt(rows, x);
    JoinedFirstNear(rows, x, k);
    forall i | 0 <= i < |rows| && x in rows[i].seats ensures i == k {
      assert rows[i] in rows && RowOk(rows[i]);
    }
    hide Joined, Near, RowsOk, FirstNear;
    var rows' := Joined(rows, x);
    forall i, s | 0 <= i < |rows'| && s in rows'[i].seats
      ensures multiset(rows'[i].seats)[s] == multiset(free + [x])[s]
    {
      if i == k && s == x {
        if k < |rows| && x in rows[k].seats {
          assert multiset(rows[k].seats)[x] == multiset(free)[x];
        } else {
          assert !InRow(rows, x);
        }
      }
    }
  }

  lemma {:induction false} JoinedFirstNear(rows: seq<Row>, x: Seat, k: nat)
    requires FirstNear(rows) && k <= |rows| && forall i :: 0 <= i < k ==> !Near(rows[i].anchor, x)
    requires k < |rows| ==> Joined(rows, x) == rows[..k] + [rows[k].(seats := rows[k].seats + [x])] + rows[k + 1..]
    requires k == |rows| ==> Joined(rows, x) == rows + [Row(x.top, [x])]
    ensures FirstNear(Joined(rows, x))
  {
    hide Joined;
  }

  /** The rows hold the free, allowed seats and no others, each seat in one row and there as
      often as it is in the plan, each row within the tolerance of its anchor; anchors
      increase, and within a row the seats go from left to right. */
  lemma {:induction false} RowsExact(seats: seq<Seat>, exclude: seq<string>)
    ensures var rows := Rows(seats, exclude);
            && RowsOk(rows)
            && (forall s :: InRow(rows, s) <==> s in seats && Offered(s, exclude))
            && (forall r, q, s :: r in rows && q in rows && s in r.seats && s in q.seats ==> r == q)
            && (forall r, s :: r in rows && s in r.seats ==> multiset(r.seats)[s] == multiset(seats)[s])
            && (forall i, j :: 0 <= i < j < |rows| ==> rows[i].anchor < rows[j].anchor)
            && (forall r :: r in rows ==> StableSort.Sorted(SeatsByLeft(r), LeftOf)
                                          && multiset(SeatsByLeft(r)) == multiset(r.seats))
  {
    var free := FreeSeats(seats, exclude);
    var rows := Rows(seats, exclude);
    FreeSeatsExact(seats, exclude);
    GroupedOk(free);
    StableSort.ByKeySorts(Grouped(free), AnchorOf);
    SortedAnchors(Grouped(free), rows);
    SeatsInOneRow(seats, exclude);
    forall r | r in rows ensures StableSort.Sorted(SeatsByLeft(r), LeftOf) && multiset(SeatsByLeft(r)) == multiset(r.seats) {
      StableSort.ByKeySorts(r.seats, LeftOf);
    }
  }

  lemma {:induction false} SeatsInOneRow(seats: seq<Seat>, exclude: seq<string>)
    ensures var rows := Grouped(FreeSeats(seats, exclude));
            && (forall r, q, s :: r in rows && q in rows && s in r.seats && s in q.seats ==> r == q)
            && (forall r, s :: r in rows && s in r.seats ==> multiset(r.seats)[s] == multiset(seats)[s])
  {
    var free := FreeSeats(seats, exclude);
    var rows := Grouped(free);
    GroupedOk(free);
    GroupedCounts(free);
    FreeSeatsExact(seats, exclude);
    hide Near, Free;
    forall r, q, s | r in rows && q in rows && s in r.seats && s in q.seats ensures r == q {
      var i :| 0 <= i < |rows| && rows[i] == r;
      var j :| 0 <= j < |rows| && rows[j] == q;
      assert RowOk(r) && RowOk(q);
    }
    forall r, s | r in rows && s in r.seats ensures multiset(r.seats)[s] == multiset(seats)[s] {
      var i :| 0 <= i < |rows| && rows[i] == r;
      assert InRow(rows, s);
      FreeSeatsCount(seats, exclude, s);
    }
  }

  lemma {:induction false} DistinctAsMultiset(rows: seq<Row>, r: Row)
    requires RowsOk(rows)
    ensures multiset(rows)[r] <= 1
    decreases |rows|
  {
    if rows != [] {
      var head, tail := rows[0], rows[1..];
      assert rows == [head] + tail;
      SplitRows(head, tail);
      DistinctAsMultiset(tail, r);
      if r == head { assert head !in tail; assert multiset(tail)[head] == 0; }
    }
  }

  lemma {:induction false} SortedAnchors(grouped: seq<Row>, rows: seq<Row>)
    requires RowsOk(grouped) && multiset(rows) == multiset(grouped) && StableSort.Sorted(rows, AnchorOf)
    requires forall r :: r in rows <==> r in grouped
    ensures RowsOk(rows) && forall i, j :: 0 <= i < j < |rows| ==> rows[i].anchor < rows[j].anchor
    ensures forall s :: InRow(rows, s) <==> InRow(grouped, s)
  {
    forall i, j | 0 <= i < j < |rows| ensures rows[i].anchor < rows[j].anchor {
      assert AnchorOf(rows[i]) <= AnchorOf(rows[j]);
      if rows[i] == rows[j] {
        DistinctAsMultiset(grouped, rows[i]);
        TwiceInMultiset(rows, i, j);
      } else {
        assert rows[i] in grouped && rows[j] in grouped;
        var a :| 0 <= a < |grouped| && grouped[a] == rows[i];
        var b :| 0 <= b < |grouped| && grouped[b] == rows[j];
        assert a != b;
      }
    }
  }

  lemma {:induction false} TwiceInMultiset(rows: seq<Row>, i: nat, j: nat)
    requires i < j < |rows| && rows[i] == rows[j]
    ensures multiset(rows)[rows[i]] >= 2
  {
    assert rows == rows[..j] + rows[j..];
    assert rows[i] in rows[..j] && rows[j] in rows[j..];
  }

  // --- The search ----------------------------------------------------------------------------

  /** How far the run of neighbours ending at `j` reaches back. */
  ghost predicate RunFrom(row: seq<Seat>, start: nat, j: nat) {
    start <= j < |row| && (forall k :: start < k <= j ==> NextTo(row[k - 1], row[k]))
    && (start > 0 ==> !NextTo(row[start - 1], row[start]))
  }

  /** The scan of one row: the leftmost window of two or more seats, or none. */
  method ScanRow(row: seq<Seat>, want: nat) returns (run: seq<Seat>)
    requires row != [] && want >= 1
    ensures want >= 2 ==> (run == [] <==> NoWindow(row, want))
    ensures want >= 2 && run != [] ==> exists i: nat :: FirstWindow(row, i, want) && run == row[i..i + want]
    ensures want == 1 ==> run == if |row| < 2 then [] else if NextTo(row[0], row[1]) then [row[0]] else [row[1]]
  {
    run := [row[0]];
    ghost var start: nat := 0;
    var j := 1;
    while j < |row|
      invariant 1 <= j <= |row|
      invariant RunFrom(row, start, j - 1) && run == row[start..j]
      invariant want == 1 ==> j == 1
      invariant |run| < want || j == 1
      invariant want >= 2 ==> forall i: nat :: i + want <= j ==> !Window(row, i, want)
    {
      if Beside(row[j - 1], row[j]) {
        run := run + [row[j]];
        assert row[start..j] + [row[j]] == row[start..j + 1];
      } else {
        run := [row[j]];
        start := j;
        assert [row[j]] == row[j..j + 1];
      }
      assert run == row[start..j + 1] && RunFrom(row, start, j);
      if |run| >= want {
        if want >= 2 {
          assert Window(row, start, want) && start + want == j + 1;
          assert FirstWindow(row, start, want);
          assert run[..want] == row[start..start + want];
        }
        return run[..want];
      }
      j := j + 1;
    }
    run := [];
    if want >= 2 {
      forall i: nat ensures !Window(row, i, want) {}
    }
  }

  /** The rows, filled seat by seat. */
  method GroupSeats(free: seq<Seat>) returns (rows: seq<Row>)
    ensures rows == Grouped(free)
  {
    rows := [];
    var i := 0;
    while i < |free|
      invariant 0 <= i <= |free| && rows == Grouped(free[..i])
    {
      assert free[..i + 1][..i] == free[..i];
      rows := JoinRow(rows, free[i]);
      i := i + 1;
    }
    assert free[..i] == free;
  }

  method JoinRow(rows: seq<Row>, s: Seat) returns (joined: seq<Row>)
    ensures joined == Joined(rows, s)
  {
    var j := 0;
    while j < |rows| && !Near(rows[j].anchor, s)
      invariant 0 <= j <= |rows|
      invariant Joined(rows, s) == rows[..j] + Joined(rows[j..], s)
    {
      var rest := rows[j..];
      assert rest[0] == rows[j] && rest[1..] == rows[j + 1..];
      assert rows[..j] + ([rows[j]] + Joined(rows[j + 1..], s)) == rows[..j + 1] + Joined(rows[j + 1..], s);
      j := j + 1;
    }
    if j < |rows| {
      assert rows[j..][0] == rows[j] && rows[j..][1..] == rows[j + 1..];
      joined := rows[..j] + [rows[j].(seats := rows[j].seats + [s])] + rows[j + 1..];
    } else {
      joined := rows + [Row(s.top, [s])];
    }
  }

  /** The leftmost window of the first row that has one. */
  ghost predicate FirstHit(rows: seq<Row>, r: nat, i: nat, want: nat) {
    && r < |rows| && FirstWindow(SeatsByLeft(rows[r]), i, want)
    && forall q :: 0 <= q < r ==> NoWindow(SeatsByLeft(rows[q]), want)
  }

  /** The first row with two seats or more; of it a request for one seat gets the first seat,
      or the second when the two are not side by side. */
  ghost predicate SingleHit(rows: seq<Row>, r: nat, found: seq<Seat>) {
    && r < |rows| && |rows[r].seats| >= 2 && (forall q :: 0 <= q < r ==> |rows[q].seats| < 2)
    && |SeatsByLeft(rows[r])| >= 2
    && found == [if NextTo(SeatsByLeft(rows[r])[0], SeatsByLeft(rows[r])[1]) then SeatsByLeft(rows[r])[0]
                 else SeatsByLeft(rows[r])[1]]
  }

  method SearchRows(rows: seq<Row>, want: nat) returns (found: seq<Seat>)
    requires want >= 1 && forall q :: 0 <= q < |rows| ==> rows[q].seats != []
    ensures want >= 2 ==> (found == [] <==> forall q :: 0 <= q < |rows| ==> NoWindow(SeatsByLeft(rows[q]), want))
    ensures want >= 2 && found != [] ==>
      exists r: nat, i: nat :: FirstHit(rows, r, i, want) && found == SeatsByLeft(rows[r])[i..i + want]
    ensures want == 1 ==> (found != [] <==> exists q :: 0 <= q < |rows| && |rows[q].seats| >= 2)
    ensures want == 1 && found != [] ==> exists r: nat :: SingleHit(rows, r, found)
  {
    hide NoWindow, NextTo;
    var r := 0;
    while r < |rows|
      invariant 0 <= r <= |rows|
      invariant forall q :: 0 <= q < r ==> if want >= 2 then NoWindow(SeatsByLeft(rows[q]), want) else |rows[q].seats| < 2
    {
      StableSort.ByKeySorts(rows[r].seats, LeftOf);
      hide StableSort.ByKey, StableSort.Sorted;
      var row := SeatsByLeft(rows[r]);
      found := ScanRow(row, want);
      if found != [] {
        if want >= 2 {
          ghost var i: nat :| FirstWindow(row, i, want) && found == row[i..i + want];
          assert FirstHit(rows, r, i, want);
        } else {
          assert |row| == |rows[r].seats| by { assert |multiset(row)| == |multiset(rows[r].seats)|; }
          assert SingleHit(rows, r, found);
        }
        return;
      }
      r := r + 1;
    }
    found := [];
  }

  /** `find_adjacent`. For two seats or more: the leftmost window of the topmost row that
      has one, and nothing exactly when no row has any. For a single seat it answers only
      where a row holds at least two. */
  method FindAdjacent(seats: seq<Seat>, want: nat, exclude: seq<string>) returns (found: seq<Seat>)
    requires want >= 1
    ensures var rows := Rows(seats, exclude);
            want >= 2 ==> (found == [] <==> forall q :: 0 <= q < |rows| ==> NoWindow(SeatsByLeft(rows[q]), want))
    ensures want >= 2 && found != [] ==>
      exists r: nat, i: nat :: FirstHit(Rows(seats, exclude), r, i, want) && found == SeatsByLeft(Rows(seats, exclude)[r])[i..i + want]
    ensures var rows := Rows(seats, exclude);
            want == 1 ==> (found != [] <==> exists q :: 0 <= q < |rows| && |rows[q].seats| >= 2)
    ensures want == 1 && found != [] ==> exists r: nat :: SingleHit(Rows(seats, exclude), r, found)
  {
    var grouped := GroupSeats(FreeSeats(seats, exclude));
    var rows := StableSort.ByKey(grouped, AnchorOf);
    RowsExact(seats, exclude);
    assert rows == Rows(seats, exclude) && forall q :: 0 <= q < |rows| ==> RowOk(rows[q]);
    hide FreeSeats, Grouped, Rows, RowsOk, InRow, NoWindow, FirstHit;
    found := SearchRows(rows, want);
  }

  /** So where a single seat is free in the whole plan, a request for one seat gets none. */
  lemma {:induction false} LoneSeatIsNotFound(seats: seq<Seat>, exclude: seq<string>, s: Seat)
    requires FreeSeats(seats, exclude) == [s]
    ensures Rows(seats, exclude) == [Row(s.top, [s])]
    ensures !exists q :: 0 <= q < |Rows(seats, exclude)| && |Rows(seats, exclude)[q].seats| >= 2
  {
    var rows := Grouped([s]);
    assert [s][..0] == [];
    assert rows == Joined(Grouped([s][..0]), s) == [Row(s.top, [s])];
    assert rows[..0] == [];
    assert StableSort.ByKey(rows, AnchorOf) == StableSort.Inserted([], rows[0], AnchorOf);
  }

  /** What a hit is: `want` free, allowed seats of one row, each within the tolerance of
      the row's anchor, neighbours one pitch apart. */
  lemma {:induction false} HitMeans(seats: seq<Seat>, exclude: seq<string>, r: nat, i: nat, want: nat)
    requires FirstHit(Rows(seats, exclude), r, i, want)
    ensures var row := Rows(seats, exclude)[r];
            var hit := SeatsByLeft(row)[i..i + want];
            && |hit| == want
            && (forall s :: s in hit ==> s in seats && Offered(s, exclude) && AtHeight(row.anchor, s))
            && (forall k :: 0 < k < |hit| ==> NextTo(hit[k - 1], hit[k]))
  {
    var row := Rows(seats, exclude)[r];
    RowsExact(seats, exclude);
    StableSort.ByKeySorts(row.seats, LeftOf);
    var sorted := SeatsByLeft(row);
    var hit := sorted[i..i + want];
    forall s | s in hit ensures s in seats && Offered(s, exclude) && AtHeight(row.anchor, s) {
      assert s in sorted;
      assert row in Rows(seats, exclude) && s in row.seats;
      assert InRow(Rows(seats, exclude), s);
    }
    forall k | 0 < k < |hit| ensures NextTo(hit[k - 1], hit[k]) {
      assert hit[k - 1] == sorted[i + k - 1] && hit[k] == sorted[i + k];
    }
  }
}
