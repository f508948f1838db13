/** Paged pulls of the change log and the replica a phone folds out of them:
    `fetch_changes` in `sync/service.py`.

    Sequence numbers become visible in increasing order (a number is assigned at
    commit); they may have gaps. */
module Replica {
  import opened Wrappers
  import opened ChangeLog

  datatype Page = Page(changes: seq<Entry>, nextSeq: nat, hasMore: bool, serverTime: Time)

  /** The workspace's entries beyond `since`, in sequence order: the windowed read
      without its limit. */
  function Beyond(log: seq<Entry>, ws: Id, since: nat): seq<Entry> {
    if log == [] then []
    else
      var e := log[|log| - 1];
      Beyond(log[..|log| - 1], ws, since) + if e.ws == ws && e.seqNo > since then [e] else []
  }

  function MaxSeq(rows: seq<Entry>, default: nat): nat {
    if rows == [] then default
    else if |rows| == 1 then rows[0].seqNo
    else
      var m := MaxSeq(rows[..|rows| - 1], default);
      if m < rows[|rows| - 1].seqNo then rows[|rows| - 1].seqNo else m
  }

  function Take<T>(s: seq<T>, n: nat): seq<T> {
    if n < |s| then s[..n] else s
  }

  /** `fetch_changes`: one row more than asked for is read, to learn whether there
      is more. The clock is read before the rows are. */
  function FetchChanges(log: seq<Entry>, ws: Id, since: nat, limit: nat, clock: Time): Page {
    var probed := Take(Beyond(log, ws, since), limit + 1);
    var rows := Take(probed, limit);
    Page(rows, MaxSeq(rows, since), |probed| > limit, clock)
  }

  lemma {:induction false} ProbeTells(log: seq<Entry>, ws: Id, since: nat, limit: nat, clock: Time)
    ensures var page := FetchChanges(log, ws, since, limit, clock);
            && page.changes == Take(Beyond(log, ws, since), limit)
            && (page.hasMore <==> |Beyond(log, ws, since)| > limit)
  {
  }

  /** The phone's side of the protocol: where it has read to, and what it read. */
  datatype Phone = Phone(cursor: nat, received: seq<Entry>)

  const NEW_PHONE := Phone(0, [])

  function ForWorkspace(log: seq<Entry>, ws: Id): seq<Entry> {
    Beyond(log, ws, 0)
  }

  function Pull(log: seq<Entry>, ws: Id, p: Phone, limit: nat): Phone {
    var page := FetchChanges(log, ws, p.cursor, limit, 0);
    Phone(page.nextSeq, p.received + page.changes)
  }

  /** `k` entries of the workspace lie at or before the cursor, and they are what
      the phone holds. */
  ghost predicate InStepAt(log: seq<Entry>, ws: Id, p: Phone, k: nat) {
    Aligned(ForWorkspace(log, ws), p, k) && p.cursor <= LastSeq(log)
  }

  ghost predicate Aligned(all: seq<Entry>, p: Phone, k: nat) {
    && k <= |all|
    && p.received == all[..k]
    && (forall i :: 0 <= i < k ==> all[i].seqNo <= p.cursor)
    && (forall i :: k <= i < |all| ==> p.cursor < all[i].seqNo)
  }

  ghost predicate InStep(log: seq<Entry>, ws: Id, p: Phone) {
    exists k: nat :: InStepAt(log, ws, p, k)
  }

  /** `log'` is `log` with more appended under later numbers. */
  ghost predicate Grows(log: seq<Entry>, log': seq<Entry>) {
    && |log| <= |log'|
    && log'[..|log|] == log
    && SeqsIncrease(log')
  }

  ghost predicate Rising(rows: seq<Entry>) {
    forall i, j :: 0 <= i < j < |rows| ==> rows[i].seqNo < rows[j].seqNo
  }

  /** Every row is the workspace's and lies after `lo`, up to `hi`. */
  ghost predicate Between(rows: seq<Entry>, ws: Id, lo: nat, hi: nat) {
    forall i :: 0 <= i < |rows| ==> lo < rows[i].seqNo <= hi && rows[i].ws == ws
  }

  lemma {:induction false} BeyondIsOrdered(log: seq<Entry>, ws: Id, since: nat)
    requires SeqsIncrease(log)
    ensures Rising(Beyond(log, ws, since))
    ensures Between(Beyond(log, ws, since), ws, since, LastSeq(log))
  {
    if log != [] {
      var shorter := log[..|log| - 1];
      var e := log[|log| - 1];
      BeyondIsOrdered(shorter, ws, since);
      assert LastSeq(shorter) <= LastSeq(log) == e.seqNo;
    }
  }

  /** What is read beyond a cursor are the workspace's entries with a later number, all of
      them and no others. */
  lemma {:induction false} BeyondIsExact(log: seq<Entry>, ws: Id, since: nat)
    ensures forall e :: multiset(Beyond(log, ws, since))[e] == if e.ws == ws && e.seqNo > since then multiset(log)[e] else 0
  {
    if log != [] {
      var shorter := log[..|log| - 1];
      BeyondIsExact(shorter, ws, since);
      assert log == shorter + [log[|log| - 1]];
    }
  }

  /** The read beyond a cursor is the tail of the workspace's entries. */
  lemma {:induction false} BeyondIsTail(log: seq<Entry>, ws: Id, since: nat, k: nat)
    requires SeqsIncrease(log)
    requires k <= |ForWorkspace(log, ws)|
    requires forall i :: 0 <= i < k ==> ForWorkspace(log, ws)[i].seqNo <= since
    requires forall i :: k <= i < |ForWorkspace(log, ws)| ==> since < ForWorkspace(log, ws)[i].seqNo
    ensures Beyond(log, ws, since) == ForWorkspace(log, ws)[k..]
  {
    if log != [] {
      var shorter := log[..|log| - 1];
      var e := log[|log| - 1];
      var all, before := ForWorkspace(log, ws), ForWorkspace(shorter, ws);
      assert all == before + if e.ws == ws then [e] else [];
      forall i | 0 <= i < |before| ensures before[i] == all[i] {}
      var k0 := if k <= |before| then k else |before|;
      BeyondIsTail(shorter, ws, since, k0);
      if e.ws == ws {
        assert all[|before|] == e;
        assert e.seqNo > since <==> k <= |before|;
      } else {
        assert all == before;
      }
    }
  }

  lemma {:induction false} MaxOfOrdered(rows: seq<Entry>, default: nat)
    requires forall i, j :: 0 <= i < j < |rows| ==> rows[i].seqNo < rows[j].seqNo
    ensures MaxSeq(rows, default) == if rows == [] then default else rows[|rows| - 1].seqNo
  {
    if |rows| > 1 {
      MaxOfOrdered(rows[..|rows| - 1], default);
    }
  }

  lemma {:induction false} PageAligns(all: seq<Entry>, p: Phone, limit: nat, k: nat, k': nat)
    requires Aligned(all, p, k)
    requires forall i, j :: 0 <= i < j < |all| ==> all[i].seqNo < all[j].seqNo
    requires k' == if k + limit < |all| then k + limit else |all|
    ensures Take(all[k..], limit) == all[k..k']
    ensures Aligned(all, Phone(MaxSeq(all[k..k'], p.cursor), p.received + all[k..k']), k')
    ensures MaxSeq(all[k..k'], p.cursor) == if k < k' then all[k' - 1].seqNo else p.cursor
  {
    MaxOfOrdered(all[k..k'], p.cursor);
    assert all[..k] + all[k..k'] == all[..k'];
  }

  /** One pull, any limit: the phone gains the next `limit` entries and no other,
      and knows whether that was all. */
  lemma {:induction false} PullAdvances(log: seq<Entry>, ws: Id, p: Phone, limit: nat, k: nat) returns (k': nat)
    requires SeqsIncrease(log) && InStepAt(log, ws, p, k)
    ensures InStepAt(log, ws, Pull(log, ws, p, limit), k')
    ensures k' == if k + limit < |ForWorkspace(log, ws)| then k + limit else |ForWorkspace(log, ws)|
    ensures FetchChanges(log, ws, p.cursor, limit, 0).hasMore <==> k' < |ForWorkspace(log, ws)|
  {
    var all := ForWorkspace(log, ws);
    BeyondIsTail(log, ws, p.cursor, k);
    BeyondIsOrdered(log, ws, 0);
    assert all == Beyond(log, ws, 0);
    forall i, j | 0 <= i < j < |all| ensures all[i].seqNo < all[j].seqNo {}
    k' := if k + limit < |all| then k + limit else |all|;
    PageAligns(all, p, limit, k, k');
  }

  lemma {:induction false} GrowthAppends(log: seq<Entry>, log': seq<Entry>, ws: Id)
    requires Grows(log, log')
    ensures ForWorkspace(log, ws) <= ForWorkspace(log', ws)
    ensures LastSeq(log) <= LastSeq(log')
    ensures forall i :: |ForWorkspace(log, ws)| <= i < |ForWorkspace(log', ws)| ==> LastSeq(log) < ForWorkspace(log', ws)[i].seqNo
    decreases |log'|
  {
    if |log'| == |log| {
      assert log' == log;
    } else {
      var shorter := log'[..|log'| - 1];
      assert shorter[..|log|] == log;
      GrowthAppends(log, shorter, ws);
      var e := log'[|log'| - 1];
      if log != [] { assert log'[|log| - 1] == log[|log| - 1]; }
    }
  }

  /** Whatever is appended meanwhile, a phone in step stays in step. */
  lemma {:induction false} GrowthKeepsInStep(log: seq<Entry>, log': seq<Entry>, ws: Id, p: Phone)
    requires Grows(log, log') && SeqsIncrease(log) && InStep(log, ws, p)
    ensures InStep(log', ws, p)
  {
    var k: nat :| InStepAt(log, ws, p, k);
    GrowthAppends(log, log', ws);
    var all, all' := ForWorkspace(log, ws), ForWorkspace(log', ws);
    forall i | 0 <= i < |all| ensures all'[i] == all[i] {
      assert all'[..|all|] == all;
    }
    assert InStepAt(log', ws, p, k);
  }

  /** A run of the protocol: each round the log may have grown, then the phone
      pulls one page of at most `limit` entries. */
  datatype Round = Round(log: seq<Entry>, limit: nat)

  ghost predicate Rounds(log: seq<Entry>, rounds: seq<Round>)
    decreases |rounds|
  {
    rounds == [] || (Grows(log, rounds[0].log) && rounds[0].limit >= 1 && Rounds(rounds[0].log, rounds[1..]))
  }

  function PullAll(ws: Id, p: Phone, rounds: seq<Round>): Phone
    decreases |rounds|
  {
    if rounds == [] then p else PullAll(ws, Pull(rounds[0].log, ws, p, rounds[0].limit), rounds[1..])
  }

  function FinalLog(log: seq<Entry>, rounds: seq<Round>): seq<Entry> {
    if rounds == [] then log else rounds[|rounds| - 1].log
  }

  /** A phone that starts in step has, after any run of pulls against a growing
      log, received the workspace's entries up to its cursor, each once and in order. */
  lemma {:induction false} EveryRunStaysInStep(log: seq<Entry>, ws: Id, p: Phone, rounds: seq<Round>)
    requires SeqsIncrease(log) && InStep(log, ws, p) && Rounds(log, rounds)
    ensures InStep(FinalLog(log, rounds), ws, PullAll(ws, p, rounds))
    decreases |rounds|
  {
    if rounds != [] {
      GrowthKeepsInStep(log, rounds[0].log, ws, p);
      var k: nat :| InStepAt(rounds[0].log, ws, p, k);
      var k' := PullAdvances(rounds[0].log, ws, p, rounds[0].limit, k);
      EveryRunStaysInStep(rounds[0].log, ws, Pull(rounds[0].log, ws, p, rounds[0].limit), rounds[1..]);
      assert FinalLog(log, rounds) == FinalLog(rounds[0].log, rounds[1..]);
    }
  }

  lemma {:induction false} NewPhoneInStep(log: seq<Entry>, ws: Id)
    requires SeqsIncrease(log)
    ensures InStep(log, ws, NEW_PHONE)
  {
    BeyondIsOrdered(log, ws, 0);
    assert InStepAt(log, ws, NEW_PHONE, 0);
  }

  /** What is left to read: the termination measure of draining. */
  function Remaining(log: seq<Entry>, ws: Id, p: Phone): nat {
    |Beyond(log, ws, p.cursor)|
  }

  /** Every page with `has_more` brings the phone closer by its whole limit; the
      first page without it leaves nothing unread. */
  lemma {:induction false} PullTerminates(log: seq<Entry>, ws: Id, p: Phone, limit: nat)
    requires SeqsIncrease(log) && InStep(log, ws, p) && limit >= 1
    ensures var p' := Pull(log, ws, p, limit);
            if FetchChanges(log, ws, p.cursor, limit, 0).hasMore then
              Remaining(log, ws, p') == Remaining(log, ws, p) - limit
            else
              Remaining(log, ws, p') == 0 && p'.received == ForWorkspace(log, ws)
  {
    var k: nat :| InStepAt(log, ws, p, k);
    var k' := PullAdvances(log, ws, p, limit, k);
    BeyondIsTail(log, ws, p.cursor, k);
    BeyondIsTail(log, ws, Pull(log, ws, p, limit).cursor, k');
    if k' == |ForWorkspace(log, ws)| {
      assert ForWorkspace(log, ws)[..k'] == ForWorkspace(log, ws);
    }
  }

  /** The phone's drain: pull pages until one says there is no more. */
  method Drain(log: seq<Entry>, ws: Id, p: Phone, limit: nat, clock: Time) returns (p': Phone)
    requires SeqsIncrease(log) && InStep(log, ws, p) && limit >= 1
    ensures InStep(log, ws, p') && p'.received == ForWorkspace(log, ws)
  {
    p' := p;
    var more := true;
    while more
      invariant InStep(log, ws, p')
      invariant !more ==> p'.received == ForWorkspace(log, ws)
      decreases Remaining(log, ws, p') + if more then 1 else 0
    {
      var page := FetchChanges(log, ws, p'.cursor, limit, clock);
      ProbeTells(log, ws, p'.cursor, limit, clock);
      PullTerminates(log, ws, p', limit);
      ghost var k: nat :| InStepAt(log, ws, p', k);
      ghost var k' := PullAdvances(log, ws, p', limit, k);
      p' := Phone(page.nextSeq, p'.received + page.changes);
      more := page.hasMore;
    }
  }

  /** The local store: the last payload of each entity, tombstones included. */
  function Fold(received: seq<Entry>): map<Key, Snapshot> {
    if received == [] then map[]
    else
      var e := received[|received| - 1];
      Fold(received[..|received| - 1])[e.key := e.payload]
  }

  /** The workspace's rows as the server holds them. */
  ghost predicate Mirrors(store: map<Key, Snapshot>, db: Db, ws: Id) {
    forall k: Key ::
      match Lookup(db, k)
      case Some(row) => if row.Ws() == ws then k in store && store[k] == row else k !in store
      case None => k !in store
  }

  // Folding a workspace's entries finds, for each entity of that workspace, the
  // end of its history.
  lemma {:induction false} FoldFindsLast(log: seq<Entry>, ws: Id, k: Key)
    requires SeqsIncrease(log)
    requires forall i :: 0 <= i < |History(log, k)| ==> History(log, k)[i].ws == ws
    ensures var h := History(log, k);
            var store := Fold(ForWorkspace(log, ws));
            if h == [] then k !in store else k in store && store[k] == h[|h| - 1].payload
  {
    if log != [] {
      var shorter := log[..|log| - 1];
      var e := log[|log| - 1];
      var h, h0 := History(log, k), History(shorter, k);
      forall i | 0 <= i < |h0| ensures h0[i].ws == ws { assert h[i] == h0[i]; }
      FoldFindsLast(shorter, ws, k);
      if e.key == k { assert h[|h| - 1] == e; } else { assert h == h0; }
      var all := ForWorkspace(log, ws);
      if e.ws == ws { assert all[..|all| - 1] == ForWorkspace(shorter, ws); } else { assert all == ForWorkspace(shorter, ws); }
    }
  }

  lemma {:induction false} FoldSkipsOthers(log: seq<Entry>, ws: Id, k: Key)
    requires SeqsIncrease(log)
    requires forall i :: 0 <= i < |History(log, k)| ==> History(log, k)[i].ws != ws
    ensures k !in Fold(ForWorkspace(log, ws))
  {
    if log != [] {
      var shorter := log[..|log| - 1];
      var e := log[|log| - 1];
      var h, h0 := History(log, k), History(shorter, k);
      forall i | 0 <= i < |h0| ensures h0[i].ws != ws { assert h[i] == h0[i]; }
      FoldSkipsOthers(shorter, ws, k);
      if e.key == k { assert h[|h| - 1] == e; } else { assert h == h0; }
      var all := ForWorkspace(log, ws);
      if e.ws == ws { assert all[..|all| - 1] == ForWorkspace(shorter, ws); } else { assert all == ForWorkspace(shorter, ws); }
    }
  }

  lemma DrainedFoldMirrors(db: Db, ws: Id)
    requires LogTells(db)
    ensures Mirrors(Fold(ForWorkspace(db.log, ws)), db, ws)
  {
    var store := Fold(ForWorkspace(db.log, ws));
    forall k: Key ensures match Lookup(db, k)
                          case Some(row) => if row.Ws() == ws then k in store && store[k] == row else k !in store
                          case None => k !in store
    {
      var h := History(db.log, k);
      assert Chronicle(h, Lookup(db, k));
      if Lookup(db, k).Some? && Lookup(db, k).value.Ws() != ws {
        FoldSkipsOthers(db.log, ws, k);
      } else {
        FoldFindsLast(db.log, ws, k);
      }
    }
  }

  /** Convergence: a replica that pulled from 0 with any limits while the log grew,
      and last saw `has_more` false on the server's present log, folds to exactly
      the server's rows. */
  lemma {:induction false} ReplicaConverges(db: Db, ws: Id, rounds: seq<Round>, limit: nat)
    requires LogTells(db) && limit >= 1
    requires Rounds([], rounds) && Grows(FinalLog([], rounds), db.log)
    ensures var before := PullAll(ws, NEW_PHONE, rounds);
            var p := Pull(db.log, ws, before, limit);
            !FetchChanges(db.log, ws, before.cursor, limit, 0).hasMore ==>
              p.received == ForWorkspace(db.log, ws) && Mirrors(Fold(p.received), db, ws)
  {
    NewPhoneInStep([], ws);
    EveryRunStaysInStep([], ws, NEW_PHONE, rounds);
    LastRoundIncreases([], rounds);
    GrowthKeepsInStep(FinalLog([], rounds), db.log, ws, PullAll(ws, NEW_PHONE, rounds));
    PullTerminates(db.log, ws, PullAll(ws, NEW_PHONE, rounds), limit);
    DrainedFoldMirrors(db, ws);
  }

  lemma {:induction false} LastRoundIncreases(log: seq<Entry>, rounds: seq<Round>)
    requires SeqsIncrease(log) && Rounds(log, rounds)
    ensures SeqsIncrease(FinalLog(log, rounds))
    decreases |rounds|
  {
    if rounds != [] {
      LastRoundIncreases(rounds[0].log, rounds[1..]);
      assert FinalLog(log, rounds) == FinalLog(rounds[0].log, rounds[1..]);
    }
  }
}
