/** Scenario membership through a push, and the conservation of rows. */
module PoolScenarios {
  import opened Wrappers
  import opened Pool
  import opened PoolPayload
  import opened PoolIngest
  import opened PoolMarks

  /** First occurrences, in order. */
  function Firsts(ids: seq<Id>): seq<Id> {
    if ids == [] then []
    else
      var earlier := Firsts(ids[..|ids| - 1]);
      if ids[|ids| - 1] in earlier then earlier else earlier + [ids[|ids| - 1]]
  }

  function Home(home: map<Id, Id>, m: Id): Id {
    if m in home then home[m] else m
  }

  /** The members, each replaced by where it ended up. */
  function Image(home: map<Id, Id>, members: seq<Id>): seq<Id> {
    if members == [] then [] else Image(home, members[..|members| - 1]) + [Home(home, members[|members| - 1])]
  }

  ghost predicate SomeMoved(home: map<Id, Id>, members: seq<Id>) {
    exists m :: m in members && Home(home, m) != m
  }

  /** A scenario is the image of what it was, first occurrences only, in a new version; one
      with no merged member is untouched. */
  ghost predicate Carried(home: map<Id, Id>, before: Scenario, after: Scenario) {
    && after.members == (if SomeMoved(home, before.members) then Firsts(Image(home, before.members)) else before.members)
    && (if SomeMoved(home, before.members) then after.version > before.version else after == before)
  }

  ghost predicate AllCarried(home: map<Id, Id>, before: map<Id, Scenario>, after: map<Id, Scenario>) {
    after.Keys == before.Keys && forall k :: k in before ==> Carried(home, before[k], after[k])
  }

  // --- Lists -----------------------------------------------------------------------------

  function Swapped(members: seq<Id>, loser: Id, winner: Id): seq<Id> {
    if members == [] then []
    else Swapped(members[..|members| - 1], loser, winner) + [Replaced(members[|members| - 1], loser, winner)]
  }

  lemma {:induction false} FirstsMembers(ids: seq<Id>)
    ensures forall x :: x in Firsts(ids) <==> x in ids
  {
    if ids != [] {
      FirstsMembers(ids[..|ids| - 1]);
      assert ids == ids[..|ids| - 1] + [ids[|ids| - 1]];
    }
  }

  lemma {:induction false} SwappedMembers(ids: seq<Id>, loser: Id, winner: Id)
    ensures forall x :: x in ids ==> Replaced(x, loser, winner) in Swapped(ids, loser, winner)
    ensures loser !in ids ==> Swapped(ids, loser, winner) == ids
  {
    if ids != [] {
      var earlier := ids[..|ids| - 1];
      SwappedMembers(earlier, loser, winner);
      assert ids == earlier + [ids[|ids| - 1]];
      assert forall x :: x in ids <==> x in earlier || x == ids[|ids| - 1];
    }
  }

  lemma {:induction false} RewrittenIsFirsts(members: seq<Id>, loser: Id, winner: Id)
    ensures Rewritten(members, loser, winner) == Firsts(Swapped(members, loser, winner))
  {
    if members != [] {
      var earlier := members[..|members| - 1];
      RewrittenIsFirsts(earlier, loser, winner);
      var s := Swapped(members, loser, winner);
      assert s[..|s| - 1] == Swapped(earlier, loser, winner);
    }
  }

  // Dropping repeats before a merge makes no difference after it.
  lemma {:induction false} FirstsThroughSwap(ids: seq<Id>, loser: Id, winner: Id)
    ensures Firsts(Swapped(Firsts(ids), loser, winner)) == Firsts(Swapped(ids, loser, winner))
  {
    if ids != [] {
      var earlier, last := ids[..|ids| - 1], ids[|ids| - 1];
      FirstsThroughSwap(earlier, loser, winner);
      FirstsMembers(earlier);
      var long := Swapped(ids, loser, winner);
      assert long[..|long| - 1] == Swapped(earlier, loser, winner);
      FirstsMembers(Swapped(earlier, loser, winner));
      SwappedMembers(earlier, loser, winner);
      if last !in Firsts(earlier) {
        var kept := Firsts(ids);
        assert kept[..|kept| - 1] == Firsts(earlier);
        var short := Swapped(kept, loser, winner);
        assert short[..|short| - 1] == Swapped(Firsts(earlier), loser, winner);
      }
    }
  }

  lemma {:induction false} ImageThroughMerge(home: map<Id, Id>, members: seq<Id>, loser: Id, winner: Id)
    requires loser in home
    ensures Image(Rehomed(home, loser, winner), members) == Swapped(Image(home, members), loser, winner)
  {
    if members != [] {
      var earlier := members[..|members| - 1];
      ImageThroughMerge(home, earlier, loser, winner);
      var im := Image(home, members);
      assert im[..|im| - 1] == Image(home, earlier);
    }
  }

  lemma {:induction false} UnmovedImage(home: map<Id, Id>, members: seq<Id>)
    requires !SomeMoved(home, members)
    ensures Image(home, members) == members
  {
    if members != [] {
      var earlier := members[..|members| - 1];
      assert members == earlier + [members[|members| - 1]];
      assert forall m :: m in earlier ==> m in members;
      UnmovedImage(home, earlier);
    }
  }

  lemma {:induction false} ImageMembers(home: map<Id, Id>, members: seq<Id>)
    ensures forall m :: m in members ==> Home(home, m) in Image(home, members)
  {
    if members != [] {
      var earlier := members[..|members| - 1];
      assert members == earlier + [members[|members| - 1]];
      ImageMembers(home, earlier);
    }
  }

  // --- One merge -------------------------------------------------------------------------

  lemma MergeCarries(home: map<Id, Id>, before: Scenario, s: Scenario, loser: Id, winner: Id)
    requires Carried(home, before, s) && loser != winner
    requires loser in home && home[loser] == loser && winner in home && home[winner] == winner
    ensures Carried(Rehomed(home, loser, winner), before, RewrittenScenario(s, loser, winner))
  {
    var home' := Rehomed(home, loser, winner);
    var ms := before.members;
    ImageThroughMerge(home, ms, loser, winner);
    RewrittenIsFirsts(s.members, loser, winner);
    if SomeMoved(home, ms) {
      MovedCarries(home, before, s, loser, winner);
    } else {
      UnmovedImage(home, ms);
      if loser in ms {
        assert Home(home', loser) == winner;
        assert SomeMoved(home', ms);
      } else {
        forall m | m in ms ensures Home(home', m) == m { assert Home(home, m) == m; }
      }
    }
  }

  lemma MovedCarries(home: map<Id, Id>, before: Scenario, s: Scenario, loser: Id, winner: Id)
    requires SomeMoved(home, before.members) && s.members == Firsts(Image(home, before.members))
    requires loser != winner && loser in home && home[loser] == loser && winner in home && home[winner] == winner
    ensures SomeMoved(Rehomed(home, loser, winner), before.members)
    ensures RewrittenScenario(s, loser, winner).members == Firsts(Image(Rehomed(home, loser, winner), before.members))
  {
    var home' := Rehomed(home, loser, winner);
    var im := Image(home, before.members);
    ImageThroughMerge(home, before.members, loser, winner);
    FirstsMembers(im);
    if loser in s.members {
      RewrittenIsFirsts(s.members, loser, winner);
      FirstsThroughSwap(im, loser, winner);
    } else {
      SwappedMembers(im, loser, winner);
    }
    ImageMembers(home, before.members);
    var m :| m in before.members && Home(home, m) != m;
    assert m != winner && Home(home', m) != m;
  }

  // --- The push ---------------------------------------------------------------------------

  lemma {:induction false} MergeAllCarries(before: map<Id, Row>, scenarios: map<Id, Scenario>, w: Work,
                                           losers: seq<Id>, winner: Id, now: Time)
    requires AllCarried(w.home, scenarios, w.season.scenarios) && Homes(w.season.rows, w.home)
    requires Mergeable(w, losers, winner) && Live(w.season.rows, winner) && winner in w.home
    requires forall l :: l in losers ==> Live(w.season.rows, l) && l in w.home
    ensures AllCarried(MergeAll(w, losers, winner, now).home, scenarios, MergeAll(w, losers, winner, now).season.scenarios)
    decreases |losers|
  {
    if losers != [] {
      var loser := losers[0];
      MergeOneEffect(w, losers, winner, now);
      MergesOne(w, loser, winner, now);
      var w1 := MergeOne(w, loser, winner, now);
      MergeKeepsHomes(w.season.rows, w1.season.rows, w.home, loser, winner);
      forall k | k in scenarios ensures Carried(w1.home, scenarios[k], w1.season.scenarios[k]) {
        MergeCarries(w.home, scenarios[k], w.season.scenarios[k], loser, winner);
      }
      assert AllCarried(w1.home, scenarios, w1.season.scenarios);
      assert forall l :: l in losers[1..] ==> Live(w1.season.rows, l) && l in w1.home;
      hide MergeOne, MergedInto, AllCarried, Homes, OneMerged;
      MergeAllCarries(before, scenarios, w1, losers[1..], winner, now);
    }
  }

  lemma TurnCarries(n: Naming, before: map<Id, Row>, scenarios: map<Id, Scenario>, w: Work, item: Item, now: Time, hint: nat)
    requires KeysLive(w) && Awaited(n, w, item) && Following(before, w)
    requires AllCarried(w.home, scenarios, w.season.scenarios)
    ensures var w' := Ingested(w, n, item, now, hint);
            AllCarried(w'.home, scenarios, w'.season.scenarios)
  {
    var id, w1, losers := TurnCases(n, w, item, now, hint);
    ChosenAreKnown(n, w, item, id, losers);
    hide Ingested, MergeAll, AllCarried, Merged, Updated, Chosen, Awaited, Rekeyed;
    if id in w.season.rows {
      RekeyedGathers(before, w, id, item.key);
      RekeyedHome(w, id, item.key);
      hide AllGathered;
      MergeAllCarries(before, scenarios, w1, losers, id, now);
    }
  }

  lemma {:induction false} LoopCarries(n: Naming, before: map<Id, Row>, scenarios: map<Id, Scenario>, w: Work, all: seq<Item>,
                                       k: nat, now: Time, hint: nat)
    requires k <= |all| && Tidy(n, w, all[k..]) && Separate(n, all)
    requires Following(before, w) && AllCarried(w.home, scenarios, w.season.scenarios)
    ensures var w' := IngestAll(w, n, all[k..], now, hint);
            AllCarried(w'.home, scenarios, w'.season.scenarios)
    decreases |all| - k
  {
    SliceSeparate(n, all, k);
    hide Separate, Ingested, Following, AllCarried, TurnDone, Chosen, Awaited;
    if k < |all| {
      var id, losers := TurnKeepsTidy(n, w, all[k..], now, hint);
      TurnGathers(n, before, w, all[k], now, hint);
      TurnCarries(n, before, scenarios, w, all[k], now, hint);
      LoopCarries(n, before, scenarios, Ingested(w, n, all[k], now, hint), all, k + 1, now, hint);
    }
  }

  /** Over every push each scenario becomes its image under where its members ended up, in
      first-occurrence order. */
  lemma {:induction false} PushCarriesScenarios(n: Naming, s: Season, order: seq<Id>, items: seq<Item>, veto: seq<string>,
                                                now: Time, hint: nat)
    requires ScanOrder(s.rows, order)
    ensures var w := PutPool(n, s, order, items, veto, now, hint).0;
            AllCarried(w.home, s.scenarios, w.season.scenarios)
  {
    var payload, before, w0 := Payload(n, items, veto), Purged(s.rows, veto, now), PurgedWork(n, s, order, veto, now);
    PurgedStartsTidy(n, s, order, items, veto, now);
    PurgeKeepsOrder(s.rows, order, veto, now);
    assert payload[0..] == payload;
    StartsGathered(before, w0);
    assert AllCarried(w0.home, s.scenarios, w0.season.scenarios);
    hide Separate, Payload, Purged, Tidy, AllCarried, Following;
    LoopCarries(n, before, s.scenarios, w0, payload, 0, now, hint);
  }

  // --- Conservation ------------------------------------------------------------------------

  function AsSet(ids: seq<Id>): set<Id> {
    set x | x in ids
  }

  lemma {:induction false} SizeOfDistinct(ids: seq<Id>)
    requires Distinct(ids)
    ensures |AsSet(ids)| == |ids|
  {
    if ids != [] {
      SizeOfDistinct(ids[1..]);
      assert ids == [ids[0]] + ids[1..];
      assert AsSet(ids) == {ids[0]} + AsSet(ids[1..]);
    }
  }

  lemma {:induction false} LiveAfterTurn(n: Naming, w: Work, w': Work, item: Item, now: Time, id: Id, losers: seq<Id>)
    requires Chosen(n, w, item, id, losers) && TurnDone(n, w, w', item, now, id, losers)
    ensures LiveIds(w'.season.rows) == LiveIds(w.season.rows) - AsSet(losers) + {id}
    ensures AsSet(losers) <= LiveIds(w.season.rows) && id !in AsSet(losers) && Distinct(losers)
    ensures id in LiveIds(w.season.rows) <==> id in w.season.rows
  {
    hide TurnDone, Chosen, Distinct;
    TurnLives(n, w, w', item, now, id, losers);
    ChosenBasics(n, w, item, id, losers);
  }

  lemma {:induction false} SizeAfter(live: set<Id>, losers: seq<Id>, id: Id)
    requires AsSet(losers) <= live && id !in AsSet(losers) && Distinct(losers)
    ensures |live - AsSet(losers) + {id}| == |live| - |losers| + if id in live then 0 else 1
  {
    SizeOfDistinct(losers);
    var left := live - AsSet(losers);
    assert |left| == |live| - |AsSet(losers)|;
    if id in live { assert left + {id} == left; }
  }

  /** Rows only appear by being created and only disappear by being merged, and every item
      is created, updated or unchanged. */
  lemma {:induction false} TurnConserves(n: Naming, w: Work, w': Work, item: Item, now: Time, id: Id, losers: seq<Id>)
    requires Chosen(n, w, item, id, losers) && TurnDone(n, w, w', item, now, id, losers)
    ensures |LiveIds(w'.season.rows)| + w'.counts.merged + w.counts.created
         == |LiveIds(w.season.rows)| + w.counts.merged + w'.counts.created
    ensures w'.counts.created + w'.counts.updated + w'.counts.kept == w.counts.created + w.counts.updated + w.counts.kept + 1
  {
    LiveAfterTurn(n, w, w', item, now, id, losers);
    hide TurnRows, TurnIndexes, LiveIds, AsSet, Distinct, Chosen, SaysNothingNew;
    SizeAfter(LiveIds(w.season.rows), losers, id);
  }

  lemma {:induction false} LoopConserves(n: Naming, w: Work, all: seq<Item>, k: nat, now: Time, hint: nat)
    requires k <= |all| && Tidy(n, w, all[k..]) && Separate(n, all)
    ensures var w' := IngestAll(w, n, all[k..], now, hint);
            && |LiveIds(w'.season.rows)| + w'.counts.merged + w.counts.created
            == |LiveIds(w.season.rows)| + w.counts.merged + w'.counts.created
            && w'.counts.created + w'.counts.updated + w'.counts.kept
            == w.counts.created + w.counts.updated + w.counts.kept + |all| - k
    decreases |all| - k
  {
    SliceSeparate(n, all, k);
    hide Separate, Ingested, Tidy, LiveIds, TurnDone, Chosen;
    if k < |all| {
      var id, losers := TurnKeepsTidy(n, w, all[k..], now, hint);
      var w' := Ingested(w, n, all[k], now, hint);
      TurnConserves(n, w, w', all[k], now, id, losers);
      LoopConserves(n, w', all, k + 1, now, hint);
    }
  }

  /** Over every push the reported counters balance: live rows after = live rows before -
      purged - merged + created, and each item of the payload was created, updated or
      unchanged. */
  lemma {:induction false} PushConserves(n: Naming, s: Season, order: seq<Id>, items: seq<Item>, veto: seq<string>, now: Time,
                                         hint: nat)
    requires ScanOrder(s.rows, order)
    ensures var (w, r) := PutPool(n, s, order, items, veto, now, hint);
            && |LiveIds(w.season.rows)| == |LiveIds(s.rows)| - r.purged - r.counts.merged + r.counts.created
            && r.counts.created + r.counts.updated + r.counts.kept == r.total
  {
    var payload := Payload(n, items, veto);
    PurgedStartsTidy(n, s, order, items, veto, now);
    assert payload[0..] == payload;
    hide Separate, Payload, Purged, Tidy, LiveIds;
    LoopConserves(n, PurgedWork(n, s, order, veto, now), payload, 0, now, hint);
  }
}
