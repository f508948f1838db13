/** One host's politeness: the rolling budget, the minimum gap and the cooldown that
    `skills/lib/kp_fetch.py` keeps in `hosts/<host>.json` under an exclusive lock.

    Times are exact seconds. The clock does not run backwards from one holder of the
    lock to the next, and sleeping for `w` takes at least `w`. */
module HostLimits {
  import opened Wrappers
  import opened Texts

  type Time = real

  const DAY: Time := 86400.0
  const COOLDOWN_BASE: Time := 6.0 * 3600.0
  const COOLDOWN_MAX: Time := 7.0 * DAY

  datatype Policy = Policy(minInterval: Time, dailyBudget: nat, timeout: nat)

  const DEFAULT_POLICY := Policy(2.0, 80, 30)

  const HOST_POLICY: map<string, Policy> :=
    map["www.fok.cz" := Policy(6.0, 25, 30), "goout.net" := Policy(2.0, 80, 40)]

  function PolicyOf(host: string): Policy {
    if host in HOST_POLICY then HOST_POLICY[host] else DEFAULT_POLICY
  }

  /** What the limits below need of a policy. */
  predicate Sane(p: Policy) {
    0.0 <= p.minInterval <= DAY && p.dailyBudget >= 1
  }

  lemma EveryPolicyIsSane(host: string)
    ensures Sane(PolicyOf(host))
  {
  }

  type Bytes = seq<bv8>

  /** `status` is 0 when the host did not answer. */
  datatype Response = Response(status: nat, body: Bytes, headers: map<string, string>, curlExit: nat, proxyRefused: bool)

  /** curl's exit codes that mean the host did not answer. */
  const HOST_FAILURES: set<nat> := {6, 7, 28, 35, 52, 55, 56}

  /** The request failed on this side: the host was not asked. */
  predicate Local(resp: Response) {
    resp.proxyRefused || (resp.status == 0 && resp.curlExit !in HOST_FAILURES)
  }

  predicate Refusal(resp: Response) {
    resp.status == 0 || resp.status == 403 || resp.status == 429 || resp.status >= 500
  }

  predicate IsDigit(c: char) {
    '0' <= c <= '9'
  }

  function Decimal(digits: string): nat
    requires forall c :: c in digits ==> IsDigit(c)
  {
    if digits == "" then 0
    else
      assert digits[|digits| - 1] in digits && IsDigit(digits[|digits| - 1]);
      10 * Decimal(digits[..|digits| - 1]) + (digits[|digits| - 1] as int - '0' as int)
  }

  /** `_retry_after`: whole seconds, or nothing this client understands. */
  function RetryAfter(headers: map<string, string>): Option<Time> {
    if "retry-after" !in headers then None
    else
      var value := Strip(headers["retry-after"]);
      if value != "" && forall c :: c in value ==> IsDigit(c) then Some(Decimal(value) as real) else None
  }

  datatype HostState = HostState(requests: seq<Time>, strikes: nat, cooldownUntil: Time)

  const NEW_HOST := HostState([], 0, 0.0)

  function Min(a: Time, b: Time): Time {
    if a <= b then a else b
  }

  function Max(a: Time, b: Time): Time {
    if a >= b then a else b
  }

  function Doubled(n: nat): (r: real)
    ensures r >= 1.0
  {
    if n == 0 then 1.0 else 2.0 * Doubled(n - 1)
  }

  /** How long the n-th strike in a row closes a host. */
  function Span(strike: nat): Time
    requires strike >= 1
  {
    Min(COOLDOWN_BASE * Doubled(strike - 1), COOLDOWN_MAX)
  }

  /** `_cool_down`. */
  function CooledDown(st: HostState, now: Time, retryAfter: Option<Time>): HostState {
    var strikes := st.strikes + 1;
    var span := match retryAfter
      case Some(s) => if s != 0.0 then Max(Span(strikes), Min(s, COOLDOWN_MAX)) else Span(strikes)
      case None => Span(strikes);
    st.(strikes := strikes, cooldownUntil := now + span)
  }

  function Recent(requests: seq<Time>, now: Time): seq<Time> {
    if requests == [] then []
    else (if now - requests[0] < DAY then [requests[0]] else []) + Recent(requests[1..], now)
  }

  function Latest(requests: seq<Time>): Time
    requires requests != []
  {
    if |requests| == 1 then requests[0] else Max(requests[0], Latest(requests[1..]))
  }

  /** How long the next request must still wait. */
  function Wait(p: Policy, recent: seq<Time>, now: Time): Time {
    if recent == [] then 0.0 else p.minInterval - (now - Latest(recent))
  }

  /** One holder's turn under the lock: the clock on entry, the clock after the sleep
      if there is one, and what the network answered if it was asked. */
  datatype Turn = Turn(entered: Time, resumed: Time, resp: Response)

  datatype Verdict = Cooling | Spent | Asked(at: Time)

  function Admit(p: Policy, st: HostState, turn: Turn): Verdict {
    if turn.entered < st.cooldownUntil then Cooling
    else
      var recent := Recent(st.requests, turn.entered);
      if |recent| >= p.dailyBudget then Spent
      else Asked(if Wait(p, recent, turn.entered) > 0.0 then turn.resumed else turn.entered)
  }

  /** The host's state as the turn writes it back. */
  function AfterTurn(p: Policy, st: HostState, turn: Turn): HostState {
    match Admit(p, st, turn)
    case Cooling => st
    case Spent => st.(requests := Recent(st.requests, turn.entered))
    case Asked(at) =>
      var pruned := st.(requests := Recent(st.requests, turn.entered));
      if Local(turn.resp) then pruned
      else
        var charged := pruned.(requests := pruned.requests + [at]);
        if Refusal(turn.resp) then CooledDown(charged, at, RetryAfter(turn.resp.headers))
        else charged.(strikes := 0)
  }

  // --- Every run ---------------------------------------------------------------

  /** A request the host was charged for; a refusal closed the host until a moment. */
  datatype Contact = Contact(at: Time, closedUntil: Option<Time>) {
    predicate Refused() { closedUntil.Some? }
  }

  function ContactAt(p: Policy, st: HostState, turn: Turn, at: Time): Contact {
    Contact(at, if Refusal(turn.resp) then Some(AfterTurn(p, st, turn).cooldownUntil) else None)
  }

  function ContactOf(p: Policy, st: HostState, turn: Turn): seq<Contact> {
    match Admit(p, st, turn)
    case Asked(at) => if Local(turn.resp) then [] else [ContactAt(p, st, turn, at)]
    case _ => []
  }

  function Contacts(p: Policy, st: HostState, turns: seq<Turn>): seq<Contact>
    decreases |turns|
  {
    if turns == [] then []
    else ContactOf(p, st, turns[0]) + Contacts(p, AfterTurn(p, st, turns[0]), turns[1..])
  }

  function StateAfter(p: Policy, st: HostState, turns: seq<Turn>): HostState
    decreases |turns|
  {
    if turns == [] then st else StateAfter(p, AfterTurn(p, st, turns[0]), turns[1..])
  }

  /** The last clock reading of a turn. */
  function Left(p: Policy, st: HostState, turn: Turn): Time {
    match Admit(p, st, turn) case Asked(at) => at case _ => turn.entered
  }

  ghost predicate Timely(p: Policy, st: HostState, now: Time, turn: Turn) {
    && now <= turn.entered
    && turn.entered + Wait(p, Recent(st.requests, turn.entered), turn.entered) <= turn.resumed
  }

  ghost predicate AllTimely(p: Policy, st: HostState, now: Time, turns: seq<Turn>)
    decreases |turns|
  {
    turns == [] || (Timely(p, st, now, turns[0])
                    && AllTimely(p, AfterTurn(p, st, turns[0]), Left(p, st, turns[0]), turns[1..]))
  }

  /** How many of the latest contacts were refusals, without an answer between. */
  function Streak(log: seq<Contact>): nat {
    if log == [] || !log[|log| - 1].Refused() then 0 else 1 + Streak(log[..|log| - 1])
  }

  function Times(log: seq<Contact>): (r: seq<Time>)
    ensures |r| == |log| && forall i :: 0 <= i < |r| ==> r[i] == log[i].at
  {
    seq(|log|, i requires 0 <= i < |log| => log[i].at)
  }

  /** Any two times that are `stride` or more places apart are `gap` or more apart. */
  ghost predicate Apart(ts: seq<Time>, stride: nat, gap: Time) {
    forall i, j :: 0 <= i && i + stride <= j < |ts| ==> ts[i] + gap <= ts[j]
  }

  ghost predicate Budgeted(p: Policy, log: seq<Contact>) {
    Apart(Times(log), p.dailyBudget, DAY)
  }

  ghost predicate Gapped(p: Policy, log: seq<Contact>) {
    Apart(Times(log), 1, p.minInterval)
  }

  /** A refusal closes the host for its strike's span or longer, for at most a week;
      meanwhile nothing is sent. */
  ghost predicate RestsAfter(log: seq<Contact>, i: nat)
    requires i < |log|
  {
    log[i].Refused() ==>
      && log[i].at + Span(Streak(log[..i + 1])) <= log[i].closedUntil.value <= log[i].at + COOLDOWN_MAX
      && forall j :: i < j < |log| ==> log[i].closedUntil.value <= log[j].at
  }

  ghost predicate Rested(log: seq<Contact>) {
    forall i: nat :: i < |log| ==> RestsAfter(log, i)
  }

  ghost predicate Sorted(ts: seq<Time>) {
    forall i, j :: 0 <= i < j < |ts| ==> ts[i] <= ts[j]
  }

  /** The first `k` contacts fell out of the window; the state holds the rest. */
  ghost predicate RemembersFrom(requests: seq<Time>, times: seq<Time>, now: Time, k: nat) {
    && Sorted(times)
    && k <= |times|
    && requests == times[k..]
    && (times != [] ==> times[|times| - 1] <= now)
    && (k > 0 ==> times[k - 1] + DAY <= now)
  }

  /** The strikes count the refusals in a row, and the host is closed at least as long
      as each refusal said and at most a week after the last one. */
  ghost predicate Struck(st: HostState, log: seq<Contact>) {
    && st.strikes == Streak(log)
    && (forall i: nat :: i < |log| ==> ClosedBy(log, i, st.cooldownUntil))
    && (if log == [] then st.cooldownUntil <= 0.0 else st.cooldownUntil <= log[|log| - 1].at + COOLDOWN_MAX)
  }

  /** The refusal at `i` closed the host no longer than until `until`. */
  ghost predicate ClosedBy(log: seq<Contact>, i: nat, until: Time)
    requires i < |log|
  {
    log[i].Refused() ==> log[i].closedUntil.value <= until
  }

  ghost predicate Remembers(st: HostState, log: seq<Contact>, now: Time, k: nat) {
    RemembersFrom(st.requests, Times(log), now, k) && Struck(st, log)
  }

  ghost predicate Polite(p: Policy, log: seq<Contact>) {
    Budgeted(p, log) && Gapped(p, log) && Rested(log)
  }

  // --- Pruning the window ------------------------------------------------------------

  lemma {:induction false} AllRecent(requests: seq<Time>, now: Time)
    requires forall i :: 0 <= i < |requests| ==> now < requests[i] + DAY
    ensures Recent(requests, now) == requests
  {
    if requests != [] {
      AllRecent(requests[1..], now);
      assert requests == [requests[0]] + requests[1..];
    }
  }

  lemma {:induction false} RecentIsTail(requests: seq<Time>, now: Time) returns (k: nat)
    requires Sorted(requests)
    ensures k <= |requests| && Recent(requests, now) == requests[k..]
    ensures k > 0 ==> requests[k - 1] + DAY <= now
    ensures k < |requests| ==> now < requests[k] + DAY
  {
    if requests == [] || now < requests[0] + DAY {
      k := 0;
      AllRecent(requests, now);
    } else {
      var k' := RecentIsTail(requests[1..], now);
      k := k' + 1;
      assert requests[k..] == requests[1..][k'..];
    }
  }

  lemma {:induction false} LatestIsLast(requests: seq<Time>)
    requires requests != [] && Sorted(requests)
    ensures Latest(requests) == requests[|requests| - 1]
  {
    if |requests| > 1 { LatestIsLast(requests[1..]); }
  }

  /** After the window is pruned on entry, what is left are exactly the contacts of
      the last 24 hours. */
  lemma {:induction false} WindowOnEntry(requests: seq<Time>, times: seq<Time>, now: Time, entered: Time,
                                         k0: nat) returns (k: nat)
    requires RemembersFrom(requests, times, now, k0) && now <= entered
    ensures RemembersFrom(Recent(requests, entered), times, entered, k)
    ensures k < |times| ==> entered < times[k] + DAY
  {
    var k1 := RecentIsTail(requests, entered);
    k := k0 + k1;
    assert times[k0..][k1..] == times[k..];
    if k1 > 0 { assert requests[k1 - 1] == times[k - 1]; }
    if k < |times| { assert requests[k1] == times[k]; }
  }

  // --- One more contact ----------------------------------------------------------------

  // What a charged or local request is known to wait for, from its window alone.
  lemma {:induction false} AskedAfterWait(p: Policy, times: seq<Time>, k: nat, turn: Turn, at: Time)
    requires Sane(p) && Sorted(times) && k <= |times| && |times| - k < p.dailyBudget
    requires k > 0 ==> times[k - 1] + DAY <= turn.entered
    requires turn.entered + Wait(p, times[k..], turn.entered) <= turn.resumed
    requires at == if Wait(p, times[k..], turn.entered) > 0.0 then turn.resumed else turn.entered
    ensures turn.entered <= at
    ensures times != [] ==> times[|times| - 1] + p.minInterval <= at
    ensures |times| >= p.dailyBudget ==> times[|times| - p.dailyBudget] + DAY <= at
  {
    if k < |times| {
      LatestIsLast(times[k..]);
    }
    if |times| >= p.dailyBudget {
      assert times[|times| - p.dailyBudget] <= times[k - 1];
    }
  }

  // Where the next request starts: after the wait, within the budget, past the cooldown.
  lemma {:induction false} AskedInTime(p: Policy, st: HostState, times: seq<Time>, now: Time, k0: nat,
                                       turn: Turn) returns (k: nat)
    requires Sane(p) && RemembersFrom(st.requests, times, now, k0)
    requires Timely(p, st, now, turn) && Admit(p, st, turn).Asked?
    ensures RemembersFrom(Recent(st.requests, turn.entered), times, turn.entered, k)
    ensures var at := Admit(p, st, turn).at;
            && turn.entered <= at && st.cooldownUntil <= turn.entered
            && (times != [] ==> times[|times| - 1] + p.minInterval <= at)
            && (|times| >= p.dailyBudget ==> times[|times| - p.dailyBudget] + DAY <= at)
  {
    k := WindowOnEntry(st.requests, times, now, turn.entered, k0);
    hide Recent, Sorted;
    AskedAfterWait(p, times, k, turn, Admit(p, st, turn).at);
  }

  lemma StreakBounds(strike: nat)
    requires strike >= 1
    ensures 0.0 < Span(strike) <= COOLDOWN_MAX
  {
  }

  lemma {:induction false} DoublingGrows(a: nat, b: nat)
    requires a <= b
    ensures Doubled(a) <= Doubled(b)
  {
    if a < b { DoublingGrows(a, b - 1); }
  }

  lemma SpanGrows(a: nat, b: nat)
    requires 1 <= a <= b
    ensures Span(a) <= Span(b)
  {
    DoublingGrows(a - 1, b - 1);
  }

  /** Every cooldown lasts at least its strike's span and at most seven days, whatever
      the server asked for. */
  lemma CooldownIsBounded(st: HostState, now: Time, retryAfter: Option<Time>)
    ensures var st' := CooledDown(st, now, retryAfter);
            && st'.strikes == st.strikes + 1 && st'.requests == st.requests
            && now + Span(st'.strikes) <= st'.cooldownUntil <= now + COOLDOWN_MAX
  {
  }

  // A time that keeps its distance from the one a whole stride earlier keeps it from all.
  lemma {:induction false} ApartGrows(ts: seq<Time>, stride: nat, gap: Time, t: Time)
    requires Sorted(ts) && Apart(ts, stride, gap) && stride >= 1
    requires |ts| >= stride ==> ts[|ts| - stride] + gap <= t
    ensures Apart(ts + [t], stride, gap)
  {
  }

  lemma {:induction false} SortedGrows(ts: seq<Time>, t: Time)
    requires Sorted(ts) && (ts != [] ==> ts[|ts| - 1] <= t)
    ensures Sorted(ts + [t])
  {
  }

  lemma {:induction false} ContactKeepsDistances(p: Policy, log: seq<Contact>, c: Contact)
    requires Sane(p) && Sorted(Times(log)) && Budgeted(p, log) && Gapped(p, log)
    requires log != [] ==> log[|log| - 1].at + p.minInterval <= c.at
    requires |log| >= p.dailyBudget ==> log[|log| - p.dailyBudget].at + DAY <= c.at
    ensures Sorted(Times(log + [c])) && Budgeted(p, log + [c]) && Gapped(p, log + [c])
  {
    hide Sorted, Apart;
    assert Times(log + [c]) == Times(log) + [c.at];
    SortedGrows(Times(log), c.at);
    ApartGrows(Times(log), p.dailyBudget, DAY, c.at);
    ApartGrows(Times(log), 1, p.minInterval, c.at);
  }

  lemma {:induction false} PrefixOfGrown(log: seq<Contact>, c: Contact, i: nat)
    requires i < |log|
    ensures (log + [c])[..i + 1] == log[..i + 1]
  {
  }

  lemma {:induction false} ContactKeepsRests(st: HostState, log: seq<Contact>, c: Contact)
    requires Rested(log) && Struck(st, log) && st.cooldownUntil <= c.at
    requires c.Refused() ==> c.at + Span(st.strikes + 1) <= c.closedUntil.value <= c.at + COOLDOWN_MAX
    ensures Rested(log + [c])
  {
    StreakOfGrown(log, c);
    hide Span, Streak;
    var log' := log + [c];
    assert log'[..|log| + 1] == log';
    forall i: nat | i < |log'| ensures RestsAfter(log', i) {
      if i < |log| {
        PrefixOfGrown(log, c, i);
        assert RestsAfter(log, i) && ClosedBy(log, i, st.cooldownUntil);
      }
    }
  }

  lemma {:induction false} StreakOfGrown(log: seq<Contact>, c: Contact)
    ensures Streak(log + [c]) == if c.Refused() then 1 + Streak(log) else 0
  {
  }

  // What a charged request does to the state, in terms of the request alone.
  lemma ChargedTurn(p: Policy, st: HostState, turn: Turn, at: Time)
    requires Admit(p, st, turn) == Asked(at) && !Local(turn.resp)
    ensures var st' := AfterTurn(p, st, turn);
            && st'.requests == Recent(st.requests, turn.entered) + [at]
            && (if Refusal(turn.resp) then
                  && st'.strikes == st.strikes + 1
                  && at + Span(st'.strikes) <= st'.cooldownUntil <= at + COOLDOWN_MAX
                else st'.strikes == 0 && st'.cooldownUntil == st.cooldownUntil)
  {
  }

  lemma {:induction false} ContactIsStruck(st: HostState, log: seq<Contact>, c: Contact, st': HostState)
    requires Struck(st, log) && st.cooldownUntil <= c.at
    requires if c.Refused() then
               && st'.strikes == st.strikes + 1
               && c.at + Span(st'.strikes) <= st'.cooldownUntil <= c.at + COOLDOWN_MAX
               && c.closedUntil.value == st'.cooldownUntil
             else st'.strikes == 0 && st'.cooldownUntil == st.cooldownUntil
    ensures Struck(st', log + [c])
  {
    StreakOfGrown(log, c);
    StreakBounds(st.strikes + 1);
    hide Span, Streak;
    var log' := log + [c];
    assert log'[..|log| + 1] == log';
    forall i: nat | i < |log'| ensures ClosedBy(log', i, st'.cooldownUntil) {
      if i < |log| {
        PrefixOfGrown(log, c, i);
        assert ClosedBy(log, i, st.cooldownUntil);
      }
    }
  }

  lemma {:induction false} RequestsGrow(requests: seq<Time>, log: seq<Contact>, now: Time, k: nat, c: Contact)
    requires RemembersFrom(requests, Times(log), now, k) && now <= c.at && Sorted(Times(log + [c]))
    ensures RemembersFrom(requests + [c.at], Times(log + [c]), c.at, k)
  {
  }

  lemma {:induction false} ChargeKeepsPolite(p: Policy, st: HostState, log: seq<Contact>, now: Time, k0: nat,
                                             turn: Turn) returns (k: nat)
    requires Sane(p) && Remembers(st, log, now, k0) && Timely(p, st, now, turn) && Polite(p, log)
    requires Admit(p, st, turn).Asked? && !Local(turn.resp)
    ensures var c := ContactAt(p, st, turn, Admit(p, st, turn).at);
            Polite(p, log + [c]) && Remembers(AfterTurn(p, st, turn), log + [c], c.at, k)
  {
    hide AfterTurn, Admit, Timely, Struck, RemembersFrom, Budgeted, Gapped, Rested, Refusal, Local, Recent, Sorted;
    assert Sorted(Times(log)) by { TimesSorted(st.requests, log, now, k0); }
    var c := ContactAt(p, st, turn, Admit(p, st, turn).at);
    k := AskedInTime(p, st, Times(log), now, k0, turn);
    ChargedTurn(p, st, turn, c.at);
    ContactKeepsDistances(p, log, c);
    ContactKeepsRests(st, log, c);
    ContactIsStruck(st, log, c, AfterTurn(p, st, turn));
    RequestsGrow(Recent(st.requests, turn.entered), log, turn.entered, k, c);
  }

  lemma {:induction false} TimesSorted(requests: seq<Time>, log: seq<Contact>, now: Time, k: nat)
    requires RemembersFrom(requests, Times(log), now, k)
    ensures Sorted(Times(log))
  {
  }

  lemma {:induction false} RemembersLater(requests: seq<Time>, times: seq<Time>, now: Time, later: Time, k: nat)
    requires RemembersFrom(requests, times, now, k) && now <= later
    ensures RemembersFrom(requests, times, later, k)
  {
  }

  // A turn that charges nothing only prunes.
  lemma {:induction false} IdleKeepsPolite(p: Policy, st: HostState, log: seq<Contact>, now: Time, k0: nat,
                                           turn: Turn) returns (k: nat)
    requires Sane(p) && Remembers(st, log, now, k0) && Timely(p, st, now, turn)
    requires ContactOf(p, st, turn) == []
    ensures Remembers(AfterTurn(p, st, turn), log, Left(p, st, turn), k)
  {
    hide Struck, Sorted, RemembersFrom, Recent, Wait, Local, Refusal, CooledDown;
    if Admit(p, st, turn).Asked? {
      k := AskedInTime(p, st, Times(log), now, k0, turn);
      RemembersLater(Recent(st.requests, turn.entered), Times(log), turn.entered, Admit(p, st, turn).at, k);
    } else if Admit(p, st, turn).Cooling? {
      k := k0;
      RemembersLater(st.requests, Times(log), now, turn.entered, k0);
    } else {
      k := WindowOnEntry(st.requests, Times(log), now, turn.entered, k0);
    }
    StruckIgnoresRequests(st, AfterTurn(p, st, turn), log);
  }

  lemma {:induction false} StruckIgnoresRequests(st: HostState, st': HostState, log: seq<Contact>)
    requires Struck(st, log) && st'.strikes == st.strikes && st'.cooldownUntil == st.cooldownUntil
    ensures Struck(st', log)
  {
  }

  lemma {:induction false} TurnKeepsPolite(p: Policy, st: HostState, log: seq<Contact>, now: Time, k0: nat,
                                           turn: Turn) returns (k: nat)
    requires Sane(p) && Remembers(st, log, now, k0) && Timely(p, st, now, turn) && Polite(p, log)
    ensures var log' := log + ContactOf(p, st, turn);
            Polite(p, log') && Remembers(AfterTurn(p, st, turn), log', Left(p, st, turn), k)
  {
    hide AfterTurn, Admit, Timely, Remembers, Polite;
    if ContactOf(p, st, turn) == [] {
      assert log + ContactOf(p, st, turn) == log;
      k := IdleKeepsPolite(p, st, log, now, k0, turn);
    } else {
      k := ChargeKeepsPolite(p, st, log, now, k0, turn);
    }
  }

  lemma {:induction false} RunKeepsPolite(p: Policy, st: HostState, log: seq<Contact>, now: Time, k0: nat, turns: seq<Turn>)
    requires Sane(p) && Remembers(st, log, now, k0) && AllTimely(p, st, now, turns) && Polite(p, log)
    ensures Polite(p, log + Contacts(p, st, turns))
    decreases |turns|
  {
    hide AfterTurn, Admit, Timely, Remembers, Polite, ContactOf;
    if turns == [] {
      assert log + [] == log;
    } else {
      var k := TurnKeepsPolite(p, st, log, now, k0, turns[0]);
      var st' := AfterTurn(p, st, turns[0]);
      RunKeepsPolite(p, st', log + ContactOf(p, st, turns[0]), Left(p, st, turns[0]), k, turns[1..]);
      assert log + Contacts(p, st, turns) == log + ContactOf(p, st, turns[0]) + Contacts(p, st', turns[1..]);
    }
  }

  /** Any number of processes taking any number of turns from a host never seen before:
      the budget, the gap and the cooldowns hold over the whole history, although the
      request list is pruned and the sleep comes after the budget is counted. */
  lemma {:induction false} EveryRunIsPolite(p: Policy, now: Time, turns: seq<Turn>)
    requires Sane(p) && 0.0 <= now && AllTimely(p, NEW_HOST, now, turns)
    ensures Polite(p, Contacts(p, NEW_HOST, turns))
  {
    hide AllTimely, Contacts, Sane;
    assert Times([]) == [];
    assert Remembers(NEW_HOST, [], now, 0);
    RunKeepsPolite(p, NEW_HOST, [], now, 0, turns);
    assert [] + Contacts(p, NEW_HOST, turns) == Contacts(p, NEW_HOST, turns);
  }

  // --- What polite means ----------------------------------------------------------------

  function InWindow(log: seq<Contact>, start: Time): set<nat> {
    set i: nat | i < |log| && start <= log[i].at < start + DAY
  }

  lemma {:induction false} IndexSpan(s: set<nat>, lo: nat, hi: nat)
    requires forall i :: i in s ==> lo <= i < hi
    requires lo <= hi
    ensures |s| <= hi - lo
    decreases hi - lo
  {
    if s == {} {
    } else if lo < hi {
      IndexSpan(s - {hi - 1}, lo, hi - 1);
      if hi - 1 !in s { assert s - {hi - 1} == s; }
    }
  }

  /** No half-open window of 24 hours, wherever it starts, holds more than the budget. */
  lemma {:induction false} WindowWithinBudget(p: Policy, log: seq<Contact>, start: Time)
    requires Budgeted(p, log) && Gapped(p, log) && Sane(p)
    ensures |InWindow(log, start)| <= p.dailyBudget
  {
    var w := InWindow(log, start);
    if w != {} {
      var lo := MinNat(w);
      forall i | i in w ensures lo <= i < lo + p.dailyBudget {
        assert Times(log)[lo] == log[lo].at && Times(log)[i] == log[i].at;
      }
      IndexSpan(w, lo, lo + p.dailyBudget);
    }
  }

  /** Neighbouring contacts start at least the minimum gap apart. */
  lemma {:induction false} NeighboursKeepTheGap(p: Policy, log: seq<Contact>, i: nat)
    requires Gapped(p, log) && i + 1 < |log|
    ensures log[i].at + p.minInterval <= log[i + 1].at
  {
  }

  function SpanSum(n: nat): Time {
    if n == 0 then 0.0 else SpanSum(n - 1) + Span(n)
  }

  lemma {:induction false} StreakCovers(log: seq<Contact>, i: nat)
    requires i <= |log| && forall m :: i <= m < |log| ==> log[m].Refused()
    ensures Streak(log) >= |log| - i
  {
    if i < |log| { StreakCovers(log[..|log| - 1], i); }
  }

  /** With no answer in between, the refusal `j - i` after refusal `i` comes no sooner
      than that many doubling cooldowns. */
  lemma {:induction false} RefusalsSpreadOut(log: seq<Contact>, i: nat, j: nat)
    requires Rested(log) && i <= j < |log|
    requires forall m :: i <= m <= j ==> log[m].Refused()
    ensures log[i].at + SpanSum(j - i) <= log[j].at
  {
    if i < j {
      RefusalsSpreadOut(log, i, j - 1);
      assert RestsAfter(log, j - 1);
      StreakCovers(log[..j], i);
      SpanGrows(j - i, Streak(log[..j]));
    }
  }

  /** A host is closed for no longer than a week after its last contact. */
  lemma {:induction false} CooldownEnds(p: Policy, st: HostState, log: seq<Contact>, now: Time, k: nat, turn: Turn)
    requires Remembers(st, log, now, k) && log != [] && log[|log| - 1].at + COOLDOWN_MAX <= turn.entered
    ensures !Admit(p, st, turn).Cooling?
  {
  }

  // --- Retry-After ------------------------------------------------------------------------

  /** The server's wish is honoured exactly when it is a week or less; a longer one is cut
      to a week. */
  lemma RetryAfterIsHonouredExactly(st: HostState, now: Time, s: Time)
    requires s > 0.0
    ensures var until := CooledDown(st, now, Some(s)).cooldownUntil;
            && (now + s <= until <==> s <= COOLDOWN_MAX)
            && (s > COOLDOWN_MAX ==> until == now + COOLDOWN_MAX)
  {
  }

  lemma {:induction false} ContactsConcat(p: Policy, st: HostState, a: seq<Turn>, b: seq<Turn>)
    ensures Contacts(p, st, a + b) == Contacts(p, st, a) + Contacts(p, StateAfter(p, st, a), b)
    decreases |a|
  {
    hide AfterTurn, ContactOf;
    if a == [] {
      assert a + b == b;
    } else {
      assert (a + b)[1..] == a[1..] + b;
      ContactsConcat(p, AfterTurn(p, st, a[0]), a[1..], b);
    }
  }

  lemma {:induction false} RestedLater(log: seq<Contact>, c: Contact, later: seq<Contact>, until: Time)
    requires Rested(log + [c] + later) && c.closedUntil == Some(until)
    ensures forall x :: x in later ==> until <= x.at
  {
    var all := log + [c] + later;
    assert all[|log|] == c && RestsAfter(all, |log|);
    forall x | x in later ensures until <= x.at {
      var j :| 0 <= j < |later| && later[j] == x;
      assert all[|log| + 1 + j] == x;
    }
  }

  /** Over every run: after a refusal that asked for `s` seconds the host is not asked again
      by anyone for that long, or for a week if that was longer. */
  lemma {:induction false} RetryAfterIsKept(p: Policy, now: Time, earlier: seq<Turn>, turn: Turn, later: seq<Turn>, s: Time)
    requires Sane(p) && 0.0 <= now && AllTimely(p, NEW_HOST, now, earlier + [turn] + later)
    requires var st := StateAfter(p, NEW_HOST, earlier);
             && Admit(p, st, turn).Asked? && !Local(turn.resp) && Refusal(turn.resp)
             && RetryAfter(turn.resp.headers) == Some(s) && s > 0.0
    ensures var st := StateAfter(p, NEW_HOST, earlier);
            forall c :: c in Contacts(p, AfterTurn(p, st, turn), later) ==> Admit(p, st, turn).at + Min(s, COOLDOWN_MAX) <= c.at
  {
    var st := StateAfter(p, NEW_HOST, earlier);
    var st' := AfterTurn(p, st, turn);
    var c := ContactAt(p, st, turn, Admit(p, st, turn).at);
    RefusedUntil(p, st, turn, s);
    EveryRunIsPolite(p, now, earlier + [turn] + later);
    hide AllTimely, AfterTurn, Admit, Rested, Local, Refusal, RetryAfter, Contacts;
    assert earlier + [turn] + later == earlier + ([turn] + later);
    ContactsConcat(p, NEW_HOST, earlier, [turn] + later);
    OneTurn(p, st, turn, later);
    var log, rest := Contacts(p, NEW_HOST, earlier), Contacts(p, st', later);
    assert log + ([c] + rest) == log + [c] + rest;
    RestedLater(log, c, rest, c.closedUntil.value);
  }

  lemma {:induction false} OneTurn(p: Policy, st: HostState, turn: Turn, later: seq<Turn>)
    ensures Contacts(p, st, [turn] + later) == ContactOf(p, st, turn) + Contacts(p, AfterTurn(p, st, turn), later)
  {
    assert ([turn] + later)[1..] == later;
  }

  lemma RefusedUntil(p: Policy, st: HostState, turn: Turn, s: Time)
    requires Admit(p, st, turn).Asked? && !Local(turn.resp) && Refusal(turn.resp)
    requires RetryAfter(turn.resp.headers) == Some(s) && s > 0.0
    ensures var at := Admit(p, st, turn).at;
            var c := ContactAt(p, st, turn, at);
            ContactOf(p, st, turn) == [c] && c.closedUntil.Some? && at + Min(s, COOLDOWN_MAX) <= c.closedUntil.value
  {
    hide Admit, RetryAfter, Recent;
  }

  lemma {:induction false} OneMoreDigit(digits: string, d: char)
    requires (forall c :: c in digits ==> IsDigit(c)) && IsDigit(d)
    ensures (forall c :: c in digits + [d] ==> IsDigit(c))
            && Decimal(digits + [d]) == 10 * Decimal(digits) + (d as int - '0' as int)
  {
    assert (digits + [d])[..|digits|] == digits;
  }

  const LONG_WISH: Response := Response(429, [], map["retry-after" := "700000"], 0, false)

  lemma SevenHundred()
    ensures (forall c :: c in "700" ==> IsDigit(c)) && Decimal("700") == 700
  {
    OneMoreDigit("", '7');
    OneMoreDigit("7", '0');
    OneMoreDigit("70", '0');
    assert "" + ['7'] == "7" && "7" + ['0'] == "70" && "70" + ['0'] == "700";
  }

  lemma LongWish()
    ensures RetryAfter(LONG_WISH.headers) == Some(700000.0)
  {
    SevenHundred();
    hide Decimal;
    OneMoreDigit("700", '0');
    OneMoreDigit("7000", '0');
    OneMoreDigit("70000", '0');
    assert "700" + ['0'] == "7000" && "7000" + ['0'] == "70000" && "70000" + ['0'] == "700000";
    assert Strip("700000") == "700000";
  }

  /** So a wish of more than a week is not kept: asked to stay away for 700000 seconds, the
      client is back after 604800. */
  lemma LongRetryAfterIsCutShort(p: Policy)
    requires Sane(p)
    ensures var turns := [Turn(0.0, 0.0, LONG_WISH), Turn(COOLDOWN_MAX, COOLDOWN_MAX, LONG_WISH)];
            var contacts := Contacts(p, NEW_HOST, turns);
            && RetryAfter(LONG_WISH.headers) == Some(700000.0) && AllTimely(p, NEW_HOST, 0.0, turns)
            && |contacts| == 2 && contacts[0].at == 0.0 && contacts[0].Refused() && contacts[1].at < 700000.0
  {
    LongWish();
    hide RetryAfter;
    var a, b := Turn(0.0, 0.0, LONG_WISH), Turn(COOLDOWN_MAX, COOLDOWN_MAX, LONG_WISH);
    var turns := [a, b];
    assert turns[1..] == [b] && [b][1..] == [];
    assert Recent([], 0.0) == [];
    var st := AfterTurn(p, NEW_HOST, a);
    assert Span(1) <= COOLDOWN_MAX by { StreakBounds(1); }
    assert st == HostState([0.0], 1, COOLDOWN_MAX) by { assert [] + [0.0] == [0.0]; }
    assert Recent([0.0], COOLDOWN_MAX) == [] by { assert [0.0][1..] == []; }
    assert Admit(p, st, b) == Asked(COOLDOWN_MAX);
    assert Contacts(p, NEW_HOST, turns) == ContactOf(p, NEW_HOST, a) + (ContactOf(p, st, b) + Contacts(p, AfterTurn(p, st, b), []));
    assert AllTimely(p, st, 0.0, [b]);
  }
}
