/** `put_pool` in its own form: rows, scenarios, the two indexes and the counters change
    in place while the payload is walked. */
module PoolStore {
  import opened Wrappers
  import opened Pool
  import opened PoolPayload
  import opened PoolIngest
  import opened PoolMarks
  import opened PoolScenarios

  /** The inner list of `_merge_candidate`. */
  method RewriteMembers(members: seq<Id>, loser: Id, winner: Id) returns (rewritten: seq<Id>)
    ensures rewritten == Rewritten(members, loser, winner)
  {
    rewritten := [];
    var i := 0;
    while i < |members|
      invariant 0 <= i <= |members|
      invariant rewritten == Rewritten(members[..i], loser, winner)
    {
      assert members[..i + 1][..i] == members[..i];
      var member := if members[i] == loser then winner else members[i];
      if member !in rewritten {
        rewritten := rewritten + [member];
      }
      i := i + 1;
    }
    assert members[..i] == members;
  }

  /** `_collapse_by_identity`. */
  method CollapseByIdentity(n: Naming, table: seq<Item>) returns (kept: seq<Item>)
    ensures kept == Collapsed(n, table)
  {
    var winners: map<Identity, string> := map[];
    var i := 0;
    while i < |table|
      invariant 0 <= i <= |table|
      invariant winners == Winners(n, table[..i])
    {
      assert table[..i + 1][..i] == table[..i];
      var identity := IdentityOf(n, Dumped(table[i]));
      if identity.Some? {
        winners := winners[identity.value := table[i].key];
      }
      i := i + 1;
    }
    assert table[..i] == table;
    var keys := winners.Values;
    kept := KeptOnly(n, table, keys);
  }

  lemma {:induction false} PurgeOne(rows: map<Id, Row>, id: Id, veto: seq<string>, now: Time)
    requires Live(rows, id)
    ensures var row := PurgedRow(rows[id], veto, now);
            && row == (if Vetoed(rows[id].content, veto) then Retired(rows[id], now) else rows[id])
            && |LiveIds(rows[id := row])| == |LiveIds(rows)| - if Vetoed(rows[id].content, veto) then 1 else 0
  {
    hide Vetoed;
    var row := PurgedRow(rows[id], veto, now);
    assert LiveIds(rows[id := row]) == if Vetoed(rows[id].content, veto) then LiveIds(rows) - {id} else LiveIds(rows);
  }

  lemma {:induction false} PurgedAll(before: map<Id, Row>, rows: map<Id, Row>, pool: seq<Id>, veto: seq<string>, now: Time)
    requires ScanOrder(before, pool) && rows.Keys == before.Keys
    requires forall k :: 0 <= k < |pool| ==> pool[k] in rows && rows[pool[k]] == PurgedRow(before[pool[k]], veto, now)
    requires forall id :: id in rows && id !in pool ==> rows[id] == before[id]
    ensures rows == Purged(before, veto, now)
  {
    forall id | id in rows ensures rows[id] == PurgedRow(before[id], veto, now) {
      assert id in pool <==> Live(before, id);
    }
  }

  lemma MergeNone(w: Work, id: Id, now: Time)
    requires id in w.season.rows
    ensures Except([], id) == [] && MergeAll(w, [], id, now) == w
  {
  }

  class Ingest {
    const naming: Naming
    var rows: map<Id, Row>
    var scenarios: map<Id, Scenario>
    var byDedupKey: map<string, Id>
    var byIdentity: map<Identity, seq<Id>>
    var counts: Counts
    ghost var home: map<Id, Id>

    constructor (naming: Naming, rows: map<Id, Row>, scenarios: map<Id, Scenario>)
      ensures this.naming == naming && this.rows == rows && this.scenarios == scenarios
    {
      this.naming := naming;
      this.rows, this.scenarios := rows, scenarios;
      byDedupKey, byIdentity, counts, home := map[], map[], Counts(0, 0, 0, 0, 0), map[];
    }

    ghost function State(): Work
      reads this
    {
      Work(Season(rows, scenarios), byDedupKey, byIdentity, counts, home)
    }

    /** `_purge_vetoed`, over the rows in the order the database returned them. */
    method PurgeVetoed(pool: seq<Id>, veto: seq<string>, now: Time) returns (purged: int)
      requires ScanOrder(rows, pool)
      modifies this`rows
      ensures rows == Purged(old(rows), veto, now)
      ensures purged == |LiveIds(old(rows))| - |LiveIds(rows)|
    {
      assert forall id :: id in pool ==> id in rows;
      purged := 0;
      var i := 0;
      while i < |pool|
        invariant 0 <= i <= |pool|
        invariant rows.Keys == old(rows.Keys)
        invariant forall k :: 0 <= k < |pool| ==> rows[pool[k]] == if k < i then PurgedRow(old(rows)[pool[k]], veto, now) else old(rows)[pool[k]]
        invariant forall id :: id in rows && id !in pool ==> rows[id] == old(rows)[id]
        invariant |LiveIds(rows)| + purged == |LiveIds(old(rows))|
      {
        hide Vetoed, LiveIds, ScanOrder;
        assert pool[i] in pool;
        PurgeOne(rows, pool[i], veto, now);
        if Vetoed(rows[pool[i]].content, veto) {
          rows := rows[pool[i] := rows[pool[i]].(deletedAt := Some(now), version := rows[pool[i]].version + 1)];
          purged := purged + 1;
        }
        i := i + 1;
      }
      PurgedAll(old(rows), rows, pool, veto, now);
    }

    /** `_merge_candidate`. */
    method MergeCandidate(loser: Id, winner: Id, now: Time)
      requires loser in rows && winner in rows
      modifies this`rows, this`scenarios
      ensures Season(rows, scenarios) == MergedInto(Season(old(rows), old(scenarios)), loser, winner, now)
    {
      var row := rows[winner];
      if row.status == Undecided && rows[loser].status != Undecided {
        row := row.(status := rows[loser].status, statusAt := rows[loser].statusAt);
      }
      if row.note.None? { row := row.(note := rows[loser].note); }
      if rows[loser].firstSeen < row.firstSeen { row := row.(firstSeen := rows[loser].firstSeen); }
      rows := rows[winner := row.(version := row.version + 1)];
      assert rows[winner] == Absorbed(old(rows)[winner], old(rows)[loser]);
      RewriteScenarios(loser, winner);
      rows := rows[loser := rows[loser].(deletedAt := Some(now), version := rows[loser].version + 1)];
    }

    method RewriteScenarios(loser: Id, winner: Id)
      modifies this`scenarios
      ensures scenarios == map k | k in old(scenarios) :: RewrittenScenario(old(scenarios)[k], loser, winner)
    {
      var todo := scenarios.Keys;
      while todo != {}
        invariant todo <= scenarios.Keys == old(scenarios.Keys)
        invariant forall k :: k in scenarios ==>
          scenarios[k] == if k in todo then old(scenarios)[k] else RewrittenScenario(old(scenarios)[k], loser, winner)
        decreases |todo|
      {
        var k :| k in todo;
        if loser in scenarios[k].members {
          var rewritten := RewriteMembers(scenarios[k].members, loser, winner);
          scenarios := scenarios[k := Scenario(rewritten, scenarios[k].version + 1)];
        }
        todo := todo - {k};
      }
    }

    /** The inner loop of `put_pool`. */
    method MergeTwins(losers: seq<Id>, winner: Id, now: Time)
      requires winner in rows && forall i :: 0 <= i < |losers| ==> losers[i] in rows
      modifies this`rows, this`scenarios, this`byDedupKey, this`counts, this`home
      ensures State() == MergeAll(old(State()), losers, winner, now)
    {
      hide MergedInto;
      var i := 0;
      while i < |losers|
        invariant 0 <= i <= |losers| && rows.Keys == old(rows.Keys)
        invariant MergeAll(State(), losers[i..], winner, now) == MergeAll(old(State()), losers, winner, now)
      {
        var twin := losers[i];
        assert losers[i..][1..] == losers[i + 1..];
        ghost var before := State();
        var key := rows[twin].key;
        MergeCandidate(twin, winner, now);
        byDedupKey := byDedupKey - {key};
        counts := counts.(merged := counts.merged + 1);
        home := Rehomed(home, twin, winner);
        assert State() == MergeOne(before, twin, winner, now);
        i := i + 1;
      }
      assert losers[i..] == [];
    }

    /** One turn of the outer loop. */
    method IngestItem(item: Item, now: Time, hint: nat)
      modifies this
      ensures State() == Ingested(old(State()), naming, item, now, hint)
    {
      hide IdentityOf, Dumped, Merged, MergeAll, NewId, Absorbed;
      var row := if item.key in byDedupKey && byDedupKey[item.key] in rows then Some(byDedupKey[item.key]) else None;
      var identity := IdentityOf(naming, Dumped(item));
      var twins := if identity.Some? && identity.value in byIdentity then LiveOnly(rows, byIdentity[identity.value]) else [];
      if twins != [] {
        if row.None? {
          var id := LatestSeen(rows, twins);
          row := Some(id);
          rows := rows[id := rows[id].(key := item.key)];
          byDedupKey := byDedupKey[item.key := id];
          counts := counts.(rekeyed := counts.rekeyed + 1);
        }
        MergeTwins(Except(twins, row.value), row.value, now);
      } else if row.Some? {
        MergeNone(State(), row.value, now);
      }
      if row.None? {
        CreateCandidate(item, now, hint);
      } else {
        RefreshCandidate(row.value, item, now);
      }
    }

    method CreateCandidate(item: Item, now: Time, hint: nat)
      modifies this`rows, this`byDedupKey, this`byIdentity, this`counts
      ensures State() == Created(old(State()), naming, item, now, hint)
    {
      hide Dumped, IdentityOf, NewId;
      var data := Dumped(item);
      var id := NewId(rows.Keys, hint);
      rows := rows[id := Row(item.key, data, data, Undecided, None, None, now, now, 1, None)];
      counts := counts.(created := counts.created + 1);
      var identity := IdentityOf(naming, data);
      if identity.Some? {
        var group := if identity.value in byIdentity then byIdentity[identity.value] else [];
        byIdentity := byIdentity[identity.value := group + [id]];
      }
      byDedupKey := byDedupKey[item.key := id];
    }

    method RefreshCandidate(id: Id, item: Item, now: Time)
      requires id in rows
      modifies this`rows, this`counts
      ensures State() == Refreshed(old(State()), id, item, now)
    {
      hide Merged;
      var content := Merged(rows[id].content, item);
      if rows[id].hashed == content {
        rows := rows[id := rows[id].(lastSeen := now)];
        counts := counts.(kept := counts.kept + 1);
      } else {
        rows := rows[id := rows[id].(content := content)];
        rows := rows[id := rows[id].(hashed := content, lastSeen := now, version := rows[id].version + 1)];
        counts := counts.(updated := counts.updated + 1);
      }
    }

    method IndexIdentities(live: seq<Id>)
      requires forall i :: 0 <= i < |live| ==> live[i] in rows
      modifies this`byIdentity
      ensures byIdentity == IdentityIndex(naming, rows, live)
    {
      hide IdentityOf;
      byIdentity := map[];
      var i := 0;
      while i < |live|
        invariant 0 <= i <= |live|
        invariant byIdentity == IdentityIndex(naming, rows, live[..i])
      {
        assert live[..i + 1][..i] == live[..i];
        var identity := IdentityOf(naming, rows[live[i]].content);
        if identity.Some? {
          var group := if identity.value in byIdentity then byIdentity[identity.value] else [];
          byIdentity := byIdentity[identity.value := group + [live[i]]];
        }
        i := i + 1;
      }
      assert live[..i] == live;
    }

    /** The request: refuse, collapse, purge, index, and walk the payload. */
    method PutPool(pool: seq<Id>, items: seq<Item>, veto: seq<string>, now: Time, hint: nat) returns (r: PutResult)
      requires ScanOrder(rows, pool)
      modifies this
      ensures (State(), r) == Pool.PutPool(naming, Season(old(rows), old(scenarios)), pool, items, veto, now, hint)
    {
      hide Allowed, ByKey, KeptOnly, Purged, Ingested, KeyIndex, IdentityIndex, LiveIds;
      var allowed := Allowed(items, veto);
      var payload := CollapseByIdentity(naming, ByKey(allowed));
      var purged := PurgeVetoed(pool, veto, now);
      var live := LiveOnly(rows, pool);
      byDedupKey := KeyIndex(rows, live);
      IndexIdentities(live);
      counts, home := Counts(0, 0, 0, 0, 0), map id | id in live :: id;
      ghost var start := State();
      assert start == PurgedWork(naming, Season(old(rows), old(scenarios)), pool, veto, now);
      var i := 0;
      while i < |payload|
        invariant 0 <= i <= |payload|
        invariant IngestAll(State(), naming, payload[i..], now, hint) == IngestAll(start, naming, payload, now, hint)
      {
        assert payload[i..][1..] == payload[i + 1..];
        IngestItem(payload[i], now, hint);
        i := i + 1;
      }
      assert payload[i..] == [];
      r := PutResult(counts, |payload|, |items| - |allowed|, purged, |allowed| - |payload|);
    }
  }
}
