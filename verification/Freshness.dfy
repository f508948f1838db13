/** When a page is asked for: a cached one is handed out only while it is fresh, or while
    its host may not be asked; and when a host may not be asked. */
module Freshness {
  import opened Wrappers
  import opened Texts
  import opened HostLimits
  import opened Fetcher

  // --- When a host may not be asked ------------------------------------------------------------

  /** The requests of the day before `now`. */
  function OfTheDay(requests: seq<Time>, now: Time): set<nat> {
    set i: nat | i < |requests| && now - requests[i] < 86400.0
  }

  lemma {:induction false} RecentCounts(requests: seq<Time>, now: Time)
    ensures |Recent(requests, now)| == |OfTheDay(requests, now)|
  {
    if requests == [] {
      assert OfTheDay(requests, now) == {};
    } else {
      var rest := OfTheDay(requests[1..], now);
      RecentCounts(requests[1..], now);
      var moved := set i | i in rest :: i + 1;
      ShiftedSize(rest, moved);
      assert OfTheDay(requests, now) == moved + if now - requests[0] < 86400.0 then {0} else {} by {
        forall i: nat | 0 < i < |requests| ensures i in OfTheDay(requests, now) <==> i in moved {
          assert requests[i] == requests[1..][i - 1];
          assert i - 1 in rest <==> i in moved;
        }
      }
      assert 0 !in moved;
    }
  }

  lemma {:induction false} ShiftedSize(s: set<nat>, t: set<nat>)
    requires forall y: nat :: y in t <==> y > 0 && y - 1 in s
    ensures |t| == |s|
    decreases s
  {
    if s == {} {
      assert t == {};
    } else {
      var x :| x in s;
      assert x + 1 in t;
      ShiftedSize(s - {x}, t - {x + 1});
    }
  }

  function BudgetOf(host: string): nat {
    if host == "www.fok.cz" then 25 else 80
  }

  /** The host is closed, or has had its requests of the day. */
  predicate Unavailable(st: HostState, host: string, entered: Time) {
    entered < st.cooldownUntil || |OfTheDay(st.requests, entered)| >= BudgetOf(host)
  }

  lemma AdmitReads(p: Policy, st: HostState, turn: Turn)
    ensures Admit(p, st, turn).Cooling? <==> turn.entered < st.cooldownUntil
    ensures Admit(p, st, turn).Spent? <==> turn.entered >= st.cooldownUntil && |OfTheDay(st.requests, turn.entered)| >= p.dailyBudget
  {
    RecentCounts(st.requests, turn.entered);
    hide OfTheDay, Recent, Wait;
  }

  lemma AdmittedExactly(st: HostState, host: string, turn: Turn)
    ensures Admit(PolicyOf(host), st, turn).Asked? <==> !Unavailable(st, host, turn.entered)
  {
    AdmitReads(PolicyOf(host), st, turn);
    hide OfTheDay, Admit;
  }

  // --- When a page is asked for ------------------------------------------------------------------

  /** Four weeks for a listing or a page of its own, six days for a feed, three days for a
      watched page; up to a quarter less, by the page's share; nothing under refresh. */
  function Limit(cfg: Config, url: Url, kind: string): Time {
    if "all" in cfg.refresh || kind in cfg.refresh then 0.0
    else (if url in cfg.freshUrls then 259_200.0 else if kind == "feed" then 518_400.0 else 2_419_200.0)
         * (1.0 - 0.25 * cfg.jitter(url))
  }

  /** What the reference last heard of the page is younger than its limit. */
  predicate IsFresh(cfg: Config, m: Memory, url: Url, kind: string, now: Time) {
    url in m && now - m[url].at < Limit(cfg, url, kind)
  }

  lemma FreshIsFresh(cfg: Config, s: Store, m: Memory, url: Url, kind: string, now: Time)
    requires Agrees(s, m) && kind in MAX_AGE
    ensures Fresh(cfg, Load(s, url), url, kind, now) <==> IsFresh(cfg, m, url, kind, now)
  {
    assert AgreesOn(s, m, url);
    assert kind == "listing" || kind == "detail" || kind == "feed";
    assert MAX_AGE["listing"] == 2_419_200.0 && MAX_AGE["detail"] == 2_419_200.0 && MAX_AGE["feed"] == 518_400.0;
  }

  /** The state of the host a URL names, as the cache directory has it. */
  function StateOf(d: Disk, url: Url): HostState
    requires url.host.Some?
  {
    if url.host.value in d.hosts then d.hosts[url.host.value] else NEW_HOST
  }

  /** A valid call sends nothing exactly when the page is fresh or its host may not be asked:
      a page past its limit is asked for whenever the host is open and has budget left. */
  lemma AskedForExactly(cfg: Config, d: Disk, m: Memory, pruned: bool, url: Url, kind: string, r: Readings)
    requires Agrees(d.store, m)
    ensures var o := GetSpec(cfg, d, pruned, url, kind, r).1;
            && (o.UnknownKind? <==> kind !in {"listing", "detail", "feed"})
            && (o.NotAUrl? <==> kind in {"listing", "detail", "feed"} && (url.host.None? || url.host.value == ""))
            && (o.Got? ==>
                  (o.sent.None? <==> IsFresh(cfg, Remembered(d, m, pruned, r), url, kind, r.now)
                                     || Unavailable(StateOf(d, url), url.host.value, r.turn.entered)))
  {
    assert MAX_AGE.Keys == {"listing", "detail", "feed"};
    PruneForgets(d.store, m, r.prune);
    hide Agrees, Pruned, Forget;
    if kind in MAX_AGE && url.host.GetOr("") != "" {
      var d1, m1 := MaybePruned(d, pruned, r), Remembered(d, m, pruned, r);
      assert Agrees(d1.store, m1) && d1.hosts == d.hosts;
      FreshIsFresh(cfg, d1.store, m1, url, kind, r.now);
      AdmittedExactly(HostOf(d.hosts, url.host.value), url.host.value, r.turn);
      hide Fresh, IsFresh, Unavailable, Admit, PolicyOf, AfterTurn, Definitive;
    }
  }

  // --- What an answer counts as ------------------------------------------------------------------

  /** The request failed on this side: refused by the proxy, or curl gave up for a reason that
      is not the host's. */
  predicate OurFault(resp: Response) {
    resp.proxyRefused || (resp.status == 0 && resp.curlExit !in {6, 7, 28, 35, 52, 55, 56})
  }

  predicate TurnedAway(resp: Response) {
    resp.status in {0, 403, 429} || resp.status >= 500
  }

  /** A request is charged unless it failed on this side; a charged one that the host turned
      away is one more strike and closes it, any other answer clears the strikes. */
  lemma EveryAnswerIsJudged(p: Policy, st: HostState, turn: Turn)
    requires Admit(p, st, turn).Asked?
    ensures var st' := AfterTurn(p, st, turn);
            var contacts, at := ContactOf(p, st, turn), Admit(p, st, turn).at;
            && (contacts == [] <==> OurFault(turn.resp)) && |contacts| <= 1
            && (contacts != [] ==> contacts[0].at == at && (contacts[0].Refused() <==> TurnedAway(turn.resp)))
            && st'.requests == Recent(st.requests, turn.entered) + (if OurFault(turn.resp) then [] else [at])
            && st'.strikes == (if OurFault(turn.resp) then st.strikes else if TurnedAway(turn.resp) then st.strikes + 1 else 0)
            && (OurFault(turn.resp) || !TurnedAway(turn.resp) ==> st'.cooldownUntil == st.cooldownUntil)
  {
    hide Recent, Wait, RetryAfter, Span;
  }

  /** `Retry-After` counts when it is a number of seconds, blanks around it aside. */
  lemma RetryAfterReads(headers: map<string, string>)
    ensures RetryAfter(headers).Some? <==>
              "retry-after" in headers && exists digits :: Trims(digits, headers["retry-after"]) && AllDigits(digits)
    ensures forall digits :: RetryAfter(headers).Some? && Trims(digits, headers["retry-after"]) ==>
              AllDigits(digits) && RetryAfter(headers).value == Decimal(digits) as real
  {
    if "retry-after" in headers {
      var value := headers["retry-after"];
      StripTrims(value);
      hide Strip, Trims, Decimal;
      forall digits | Trims(digits, value) ensures digits == Strip(value) {
        NotBlankTrims(digits, value);
        TrimsOnce(digits, Strip(value), value);
      }
    }
  }

  lemma NotBlankTrims(t: string, s: string)
    requires Trims(t, s)
    ensures !Blank(Some(s))
  {
    TrimsOnce(t, t, s);
  }

  predicate AllDigits(s: string) {
    forall c :: c in s ==> '0' <= c <= '9'
  }

  /** Two seconds apart and eighty a day, but six and twenty-five at www.fok.cz. */
  lemma PolicyReads(host: string)
    ensures PolicyOf(host).minInterval == (if host == "www.fok.cz" then 6.0 else 2.0)
    ensures PolicyOf(host).dailyBudget == BudgetOf(host)
  {
  }

  // --- What keeps a host closed -----------------------------------------------------------------

  /** Six hours after the first refusal in a row, doubling up to a week. */
  function Rest(refusals: nat): Time {
    if refusals == 1 then 21_600.0
    else if refusals == 2 then 43_200.0
    else if refusals == 3 then 86_400.0
    else if refusals == 4 then 172_800.0
    else if refusals == 5 then 345_600.0
    else 604_800.0
  }

  lemma SpanIsRest(strike: nat)
    requires strike >= 1
    ensures Span(strike) == Rest(strike)
  {
    if strike >= 6 {
      DoublingGrows(5, strike - 1);
      assert Doubled(5) == 32.0 by { PowersOfTwo(); }
    } else {
      PowersOfTwo();
    }
  }

  lemma PowersOfTwo()
    ensures Doubled(0) == 1.0 && Doubled(1) == 2.0 && Doubled(2) == 4.0
    ensures Doubled(3) == 8.0 && Doubled(4) == 16.0 && Doubled(5) == 32.0
  {
    assert Doubled(2) == 2.0 * Doubled(1);
    assert Doubled(3) == 2.0 * Doubled(2);
    assert Doubled(4) == 2.0 * Doubled(3);
    assert Doubled(5) == 2.0 * Doubled(4);
  }

  /** The refusal that is the k-th in a row closes the host for its rest, or for as long as
      the server asks if that is longer, up to a week. */
  lemma ClosedExactly(st: HostState, now: Time, retryAfter: Option<Time>)
    ensures var st' := CooledDown(st, now, retryAfter);
            && st' == st.(strikes := st.strikes + 1, cooldownUntil := st'.cooldownUntil)
            && var rest := Rest(st.strikes + 1);
               st'.cooldownUntil == now + (if retryAfter.Some? && retryAfter.value > rest && rest < 604_800.0
                                           then (if retryAfter.value < 604_800.0 then retryAfter.value else 604_800.0)
                                           else rest)
  {
    SpanIsRest(st.strikes + 1);
    hide Span, Rest;
    assert Rest(st.strikes + 1) <= 604_800.0 by { RestIsBounded(st.strikes + 1); }
    assert Rest(st.strikes + 1) > 0.0 by { RestIsBounded(st.strikes + 1); }
  }

  lemma RestIsBounded(refusals: nat)
    ensures 0.0 < Rest(refusals) <= 604_800.0
  {
  }

  // --- Over every run ----------------------------------------------------------------------------

  ghost predicate ClosedByOne(log: seq<Contact>, until: Time) {
    until == 0.0 || exists i :: 0 <= i < |log| && log[i].closedUntil == Some(until)
  }

  lemma {:induction false} ClosedByOneOf(p: Policy, st: HostState, log: seq<Contact>, turns: seq<Turn>)
    requires ClosedByOne(log, st.cooldownUntil)
    ensures ClosedByOne(log + Contacts(p, st, turns), StateAfter(p, st, turns).cooldownUntil)
    decreases |turns|
  {
    if turns == [] {
      assert log + [] == log;
    } else {
      var st1, more := AfterTurn(p, st, turns[0]), ContactOf(p, st, turns[0]);
      TurnClosesByOne(p, st, log, turns[0]);
      ClosedByOneOf(p, st1, log + more, turns[1..]);
      assert log + more + Contacts(p, st1, turns[1..]) == log + Contacts(p, st, turns);
    }
  }

  lemma {:induction false} TurnClosesByOne(p: Policy, st: HostState, log: seq<Contact>, turn: Turn)
    requires ClosedByOne(log, st.cooldownUntil)
    ensures ClosedByOne(log + ContactOf(p, st, turn), AfterTurn(p, st, turn).cooldownUntil)
  {
    var more := log + ContactOf(p, st, turn);
    var st' := AfterTurn(p, st, turn);
    if Admit(p, st, turn).Asked? && !Local(turn.resp) && Refusal(turn.resp) {
      assert more[|log|].closedUntil == Some(st'.cooldownUntil);
    } else {
      assert st'.cooldownUntil == st.cooldownUntil;
      if st.cooldownUntil != 0.0 {
        var i :| 0 <= i < |log| && log[i].closedUntil == Some(st.cooldownUntil);
        assert more[i] == log[i];
      }
    }
  }

  /** The contacts of the day before `now`. */
  function ContactsOfTheDay(log: seq<Contact>, now: Time): set<nat> {
    set i: nat | i < |log| && now - log[i].at < 86400.0
  }

  lemma {:induction false} TailCounts(ts: seq<Time>, k: nat, now: Time)
    requires Sorted(ts) && k <= |ts| && (k > 0 ==> ts[k - 1] + 86400.0 <= now)
    ensures |OfTheDay(ts[k..], now)| == |OfTheDay(ts, now)|
  {
    if k > 0 {
      TailCounts(ts[1..], k - 1, now);
      assert ts[1..][k - 1..] == ts[k..];
      var rest := OfTheDay(ts[1..], now);
      var moved := set i | i in rest :: i + 1;
      ShiftedSize(rest, moved);
      assert ts[0] <= ts[k - 1];
      forall i: nat | i < |ts| ensures i in OfTheDay(ts, now) <==> i in moved {
        if i > 0 {
          assert ts[i] == ts[1..][i - 1];
          assert i - 1 in rest <==> i in moved;
        }
      }
      assert OfTheDay(ts, now) == moved;
    } else {
      assert ts[0..] == ts;
    }
  }

  // The state before a turn, at some clock reading up to its entry.
  lemma {:induction false} RunRemembers(p: Policy, st: HostState, log: seq<Contact>, now: Time, k0: nat,
                                        turns: seq<Turn>, turn: Turn) returns (later: Time, k: nat)
    requires Sane(p) && Remembers(st, log, now, k0) && Polite(p, log) && AllTimely(p, st, now, turns + [turn])
    ensures later <= turn.entered && Remembers(StateAfter(p, st, turns), log + Contacts(p, st, turns), later, k)
    decreases |turns|
  {
    hide AfterTurn, Admit, Timely, AllTimely, Remembers, Polite, ContactOf, Left;
    TimelySplits(p, st, now, turns, turn);
    if turns == [] {
      assert log + [] == log;
      later, k := now, k0;
    } else {
      var k1 := TurnKeepsPolite(p, st, log, now, k0, turns[0]);
      var st' := AfterTurn(p, st, turns[0]);
      later, k := RunRemembers(p, st', log + ContactOf(p, st, turns[0]), Left(p, st, turns[0]), k1, turns[1..], turn);
      assert log + Contacts(p, st, turns) == log + ContactOf(p, st, turns[0]) + Contacts(p, st', turns[1..]);
    }
  }

  lemma {:induction false} TimelySplits(p: Policy, st: HostState, now: Time, turns: seq<Turn>, turn: Turn)
    requires AllTimely(p, st, now, turns + [turn])
    ensures turns == [] ==> now <= turn.entered
    ensures turns != [] ==> Timely(p, st, now, turns[0])
                            && AllTimely(p, AfterTurn(p, st, turns[0]), Left(p, st, turns[0]), turns[1..] + [turn])
                            && now <= Left(p, st, turns[0])
  {
    if turns == [] {
      assert turns + [turn] == [turn];
    } else {
      assert (turns + [turn])[0] == turns[0] && (turns + [turn])[1..] == turns[1..] + [turn];
    }
  }

  lemma {:induction false} DayOfContacts(log: seq<Contact>, now: Time)
    ensures ContactsOfTheDay(log, now) == OfTheDay(Times(log), now)
  {
  }

  lemma {:induction false} RememberedDay(requests: seq<Time>, log: seq<Contact>, now: Time, later: Time, k: nat)
    requires RemembersFrom(requests, Times(log), now, k) && now <= later
    ensures |OfTheDay(requests, later)| == |ContactsOfTheDay(log, later)|
  {
    TailCounts(Times(log), k, later);
    DayOfContacts(log, later);
    hide OfTheDay, ContactsOfTheDay;
  }

  /** Over every run a host is passed over for cause only: while a refusal keeps it closed, or
      when the day before holds its whole budget. */
  lemma {:induction false} PassedOverForCause(p: Policy, now: Time, turns: seq<Turn>, turn: Turn)
    requires Sane(p) && 0.0 <= now && AllTimely(p, NEW_HOST, now, turns + [turn])
    ensures var log, verdict := Contacts(p, NEW_HOST, turns), Admit(p, StateAfter(p, NEW_HOST, turns), turn);
            && (verdict.Cooling? <==> exists i :: 0 <= i < |log| && log[i].Refused() && turn.entered < log[i].closedUntil.value)
            && (verdict.Spent? <==> !verdict.Cooling? && |ContactsOfTheDay(log, turn.entered)| >= p.dailyBudget)
  {
    hide AllTimely, Contacts, StateAfter, Admit, Recent, OfTheDay, ContactsOfTheDay, Wait, Sane, Polite;
    var log, st := Contacts(p, NEW_HOST, turns), StateAfter(p, NEW_HOST, turns);
    assert Times([]) == [];
    assert [] + log == log;
    assert Polite(p, []) by { NothingIsPolite(p); }
    var later, k := RunRemembers(p, NEW_HOST, [], now, 0, turns, turn);
    ClosedByOneOf(p, NEW_HOST, [], turns);
    RememberedDay(st.requests, log, later, turn.entered, k);
    AdmitReads(p, st, turn);
    EntersLater(p, NEW_HOST, now, turns, turn);
    hide RemembersFrom;
    if i :| 0 <= i < |log| && log[i].Refused() && turn.entered < log[i].closedUntil.value {
      assert ClosedBy(log, i, st.cooldownUntil);
    }
  }

  lemma NothingIsPolite(p: Policy)
    ensures Polite(p, [])
  {
    assert Times([]) == [];
  }

  lemma {:induction false} EntersLater(p: Policy, st: HostState, now: Time, turns: seq<Turn>, turn: Turn)
    requires AllTimely(p, st, now, turns + [turn])
    ensures now <= turn.entered
    decreases |turns|
  {
    TimelySplits(p, st, now, turns, turn);
    hide AllTimely, AfterTurn, Left;
    if turns != [] { EntersLater(p, AfterTurn(p, st, turns[0]), Left(p, st, turns[0]), turns[1..], turn); }
  }

  // --- Pruning ------------------------------------------------------------------------------------

  /** The call forgets what is old before it looks. */
  predicate Prunes(d: Disk, c: Call) {
    c.kind in {"listing", "detail", "feed"} && c.url.host.GetOr("") != "" && !c.pruned && c.r.check - d.prunedAt >= 86400.0
  }

  lemma {:induction false} PrunedSince(d: Disk, calls: seq<Call>)
    ensures d.prunedAt <= Run(d, calls).0.prunedAt
    decreases |calls|
  {
    hide UnderLock, Fresh, AfterTurn, Pruned;
    if calls != [] {
      var c := calls[0];
      PrunedSince(GetSpec(c.cfg, d, c.pruned, c.url, c.kind, c.r).0, calls[1..]);
    }
  }

  /** Over every run of calls, by whichever process: two prunes are at least a day apart. */
  lemma {:induction false} PrunesAreADayApart(d: Disk, calls: seq<Call>, i: nat, j: nat)
    requires i < j < |calls| && Prunes(Run(d, calls[..i]).0, calls[i]) && Prunes(Run(d, calls[..j]).0, calls[j])
    ensures calls[i].r.check + 86400.0 <= calls[j].r.check
  {
    RunOnward(d, calls, i);
    RunBetween(d, calls, i, j);
    var after := Run(d, calls[..i + 1]).0;
    assert after.prunedAt == calls[i].r.check by {
      var before, c := Run(d, calls[..i]).0, calls[i];
      assert MAX_AGE.Keys == {"listing", "detail", "feed"};
      hide Run, UnderLock, Fresh, AfterTurn, Pruned;
    }
    hide Run;
    PrunedSince(after, calls[i + 1..j]);
  }

  lemma {:induction false} RunOnward(d: Disk, calls: seq<Call>, i: nat)
    requires i < |calls|
    ensures var c := calls[i];
            Run(d, calls[..i + 1]).0 == GetSpec(c.cfg, Run(d, calls[..i]).0, c.pruned, c.url, c.kind, c.r).0
    decreases i
  {
    hide GetSpec;
    if i == 0 {
      assert calls[..1][1..] == [];
    } else {
      var c := calls[0];
      RunOnward(GetSpec(c.cfg, d, c.pruned, c.url, c.kind, c.r).0, calls[1..], i - 1);
      assert calls[..i][1..] == calls[1..][..i - 1] && calls[..i + 1][1..] == calls[1..][..i];
    }
  }

  lemma {:induction false} RunBetween(d: Disk, calls: seq<Call>, i: nat, j: nat)
    requires i < j < |calls|
    ensures Run(d, calls[..j]).0 == Run(Run(d, calls[..i + 1]).0, calls[i + 1..j]).0
    decreases i
  {
    hide GetSpec;
    var c := calls[0];
    var d1 := GetSpec(c.cfg, d, c.pruned, c.url, c.kind, c.r).0;
    assert calls[..j][1..] == calls[1..j];
    if i == 0 {
      assert calls[..1][1..] == [];
      assert Run(d, calls[..1]).0 == Run(d1, []).0 == d1;
    } else {
      RunBetween(d1, calls[1..], i - 1, j - 1);
      assert calls[1..][..j - 1] == calls[1..j] && calls[..i + 1][1..] == calls[1..][..i] && calls[1..][i..j - 1] == calls[i + 1..j];
    }
  }
}
