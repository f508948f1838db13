/** The season planner's rules: `check_schedule`, `check_works` and `cmd_fit` of
    `skills/kulturni-sezona/bin/kp_validate.py`.

    A local date is its day number (day 0 is 1970-01-01, a Thursday); parsing dates,
    normalising names and rendering the report are outside. */
module PlannerRules {
  import opened Wrappers
  import StableSort

  const WEEK_CAP := 2
  const MIN_GAP_DAYS := 2
  const HOUR := 3600

  /** `day` is the local date of `startsAt`, `works` the normalised work keys. */
  datatype Event = Event(title: string, startsAt: int, day: int, seasonEvent: bool, works: seq<string>, dedupKey: Option<string>)

  datatype Conflict = Conflict(start: int, end: int, title: string)

  /** A conflict that does not parse is skipped: None. */
  datatype Calendar = Calendar(blockedDays: set<int>, conflicts: seq<Option<Conflict>>)

  datatype Violation =
    | WeekOver(week: int, titles: seq<string>)
    | TooClose(titleA: string, dayA: int, titleB: string, dayB: int)
    | Blocked(title: string, day: int, conflict: string, dedupKey: Option<string>)
    | DuplicateWork(work: string, first: string, again: string)
    | HeardThisYear(title: string, work: string)

  datatype Warning = HeardLastYear(title: string, work: string)

  datatype Dated = Dated(event: Event, booked: bool)

  /** ISO weeks run from Monday to Sunday. */
  function Week(day: int): int {
    (day + 3) / 7
  }

  function DayOf(d: Dated): int { d.event.day }

  function AsDated(events: seq<Event>, booked: bool): seq<Dated> {
    if events == [] then [] else AsDated(events[..|events| - 1], booked) + [Dated(events[|events| - 1], booked)]
  }

  /** Events before booked ones on the same day. */
  function Schedule(events: seq<Event>, booked: seq<Event>): seq<Dated> {
    StableSort.ByKey(AsDated(events, false) + AsDated(booked, true), DayOf)
  }

  // --- The rules -----------------------------------------------------------------------

  function WeeksOf(dated: seq<Dated>): seq<int> {
    if dated == [] then []
    else
      var earlier, week := WeeksOf(dated[..|dated| - 1]), Week(dated[|dated| - 1].event.day);
      if week in earlier then earlier else earlier + [week]
  }

  function TitlesIn(dated: seq<Dated>, week: int): seq<string> {
    if dated == [] then []
    else
      var last := dated[|dated| - 1].event;
      TitlesIn(dated[..|dated| - 1], week) + if Week(last.day) == week then [last.title] else []
  }

  function WeekViolations(dated: seq<Dated>, weeks: seq<int>): seq<Violation> {
    if weeks == [] then []
    else
      var week := weeks[|weeks| - 1];
      var titles := TitlesIn(dated, week);
      WeekViolations(dated, weeks[..|weeks| - 1]) + if |titles| > WEEK_CAP then [WeekOver(week, titles)] else []
  }

  function Distance(a: int, b: int): nat {
    if a <= b then b - a else a - b
  }

  function PairViolation(a: Dated, b: Dated): seq<Violation> {
    if Distance(a.event.day, b.event.day) < MIN_GAP_DAYS && !a.event.seasonEvent && !b.event.seasonEvent
    then [TooClose(a.event.title, a.event.day, b.event.title, b.event.day)] else []
  }

  /** Over `zip(dated, dated[1:])`. */
  function GapViolations(dated: seq<Dated>): seq<Violation> {
    if |dated| < 2 then []
    else GapViolations(dated[..|dated| - 1]) + PairViolation(dated[|dated| - 2], dated[|dated| - 1])
  }

  function FirstConflict(start: int, conflicts: seq<Option<Conflict>>): Option<string> {
    if conflicts == [] then None
    else
      match conflicts[0]
      case Some(c) =>
        if c.start - 2 * HOUR <= start <= c.end + HOUR then Some(c.title) else FirstConflict(start, conflicts[1..])
      case None => FirstConflict(start, conflicts[1..])
  }

  const BLOCKED_DAY := "blocked day"

  /** `timed_conflict`. */
  function TimedConflict(e: Event, blocked: Option<Calendar>): Option<string> {
    match blocked
    case None => None
    case Some(calendar) =>
      if e.day in calendar.blockedDays then Some(BLOCKED_DAY) else FirstConflict(e.startsAt, calendar.conflicts)
  }

  function BlockedViolation(d: Dated, blocked: Option<Calendar>): seq<Violation> {
    if d.booked then []
    else
      match TimedConflict(d.event, blocked)
      case None => []
      case Some(conflict) => [Blocked(d.event.title, d.event.day, conflict, d.event.dedupKey)]
  }

  function BlockedViolations(dated: seq<Dated>, blocked: Option<Calendar>): seq<Violation> {
    if dated == [] then []
    else BlockedViolations(dated[..|dated| - 1], blocked) + BlockedViolation(dated[|dated| - 1], blocked)
  }

  function ScheduleViolations(events: seq<Event>, booked: seq<Event>, blocked: Option<Calendar>): seq<Violation> {
    var dated := Schedule(events, booked);
    WeekViolations(dated, WeeksOf(dated)) + GapViolations(dated) + BlockedViolations(dated, blocked)
  }

  /** The works heard before, by year, under a key with author and work run together. */
  datatype History = History(flat: string -> string, thisYear: set<string>, lastYear: set<string>)

  /** What `check_works` carries from one work to the next. */
  datatype Heard = Heard(seen: map<string, string>, violations: seq<Violation>, warnings: seq<Warning>)

  function HearWork(h: Heard, key: string, title: string, past: History): Heard {
    var duplicate := if key in h.seen then [DuplicateWork(key, h.seen[key], title)] else [];
    Heard(if key in h.seen then h.seen else h.seen[key := title],
          h.violations + duplicate + (if past.flat(key) in past.thisYear then [HeardThisYear(title, key)] else []),
          h.warnings + if past.flat(key) !in past.thisYear && past.flat(key) in past.lastYear then [HeardLastYear(title, key)] else [])
  }

  function HearWorks(h: Heard, works: seq<string>, title: string, past: History): Heard {
    if works == [] then h
    else HearWork(HearWorks(h, works[..|works| - 1], title, past), works[|works| - 1], title, past)
  }

  function HearAll(events: seq<Event>, past: History): Heard {
    if events == [] then Heard(map[], [], [])
    else
      var last := events[|events| - 1];
      HearWorks(HearAll(events[..|events| - 1], past), last.works, last.title, past)
  }

  function AllViolations(events: seq<Event>, booked: seq<Event>, blocked: Option<Calendar>, past: History): seq<Violation> {
    ScheduleViolations(events, booked, blocked) + HearAll(events, past).violations
  }

  /** The violations of the trial that the baseline does not report, compared as rendered. */
  function NewViolations(trial: seq<Violation>, baseline: seq<Violation>, render: Violation -> string): seq<Violation> {
    if trial == [] then []
    else
      NewViolations(trial[..|trial| - 1], baseline, render)
      + if exists b :: b in baseline && render(b) == render(trial[|trial| - 1]) then [] else [trial[|trial| - 1]]
  }

  /** `cmd_fit`. */
  function Fit(candidate: Event, selected: seq<Event>, booked: seq<Event>, blocked: Option<Calendar>, past: History,
               render: Violation -> string): seq<Violation>
  {
    NewViolations(AllViolations(selected + [candidate], booked, blocked, past),
                  AllViolations(selected, booked, blocked, past), render)
  }

  // --- Inserting one element into a stable sort ------------------------------------------------

  ghost predicate OneMore<T(!new)>(s: seq<T>, s': seq<T>, x: T, p: nat) {
    p <= |s| && s' == s[..p] + [x] + s[p..]
  }

  lemma {:induction false} OneMoreAppend<T(!new)>(s: seq<T>, s': seq<T>, x: T, p: nat, l: T)
    requires OneMore(s, s', x, p)
    ensures OneMore(s + [l], s' + [l], x, p)
  {
  }

  lemma {:induction false} OneMorePrefix<T(!new)>(s: seq<T>, s': seq<T>, x: T, p: nat)
    requires OneMore(s, s', x, p) && p < |s|
    ensures OneMore(s[..|s| - 1], s'[..|s'| - 1], x, p) && s'[|s'| - 1] == s[|s| - 1]
  {
  }

  lemma {:induction false} InsertAroundLast<T(!new)>(s: seq<T>, x: T, y: T, key: T -> int) returns (q: nat)
    requires StableSort.Sorted(s + [x], key)
    ensures OneMore(StableSort.Inserted(s, y, key), StableSort.Inserted(s + [x], y, key), x, q)
  {
    var s' := s + [x];
    assert s'[..|s|] == s;
    if s != [] { assert key(s'[|s| - 1]) <= key(s'[|s|]); }
    hide StableSort.Sorted;
    if key(x) <= key(y) {
      q := |s|;
      assert StableSort.Inserted(s, y, key) == s + [y] && StableSort.Inserted(s', y, key) == s' + [y];
      assert (s + [y])[..q] == s && (s + [y])[q..] == [y];
    } else {
      var t := StableSort.Inserted(s, y, key);
      q := |t|;
      assert StableSort.Inserted(s', y, key) == t + [x];
      assert t[..q] == t && t[q..] == [];
    }
  }

  lemma {:induction false} InsertionsCommute<T(!new)>(s: seq<T>, s': seq<T>, x: T, p: nat, y: T,
                                               key: T -> int) returns (q: nat)
    requires StableSort.Sorted(s', key) && OneMore(s, s', x, p)
    ensures OneMore(StableSort.Inserted(s, y, key), StableSort.Inserted(s', y, key), x, q)
    decreases |s|
  {
    if p == |s| {
      assert s' == s + [x];
      q := InsertAroundLast(s, x, y, key);
    } else {
      OneMorePrefix(s, s', x, p);
      var l := s[|s| - 1];
      if key(l) <= key(y) {
        OneMoreAppend(s, s', x, p, y);
        q := p;
      } else {
        q := InsertionsCommute(s[..|s| - 1], s'[..|s'| - 1], x, p, y, key);
        OneMoreAppend(StableSort.Inserted(s[..|s| - 1], y, key), StableSort.Inserted(s'[..|s'| - 1], y, key), x, q, l);
      }
    }
  }

  /** Sorting with one element more is sorting without it, and putting it somewhere. */
  lemma {:induction false} SortWithOneMore<T(!new)>(a: seq<T>, x: T, b: seq<T>, key: T -> int) returns (p: nat)
    ensures OneMore(StableSort.ByKey(a + b, key), StableSort.ByKey(a + [x] + b, key), x, p)
    decreases |b|
  {
    if b == [] {
      assert a + b == a && a + [x] + b == a + [x] && (a + [x])[..|a|] == a;
      StableSort.ByKeySorts(a, key);
      p := StableSort.InsertedAt(StableSort.ByKey(a, key), x, key);
    } else {
      var b0, y := b[..|b| - 1], b[|b| - 1];
      var q := SortWithOneMore(a, x, b0, key);
      assert (a + b)[..|a + b| - 1] == a + b0;
      assert (a + [x] + b)[..|a + [x] + b| - 1] == a + [x] + b0;
      StableSort.ByKeySorts(a + [x] + b0, key);
      hide StableSort.Sorted, StableSort.Inserted, OneMore;
      p := InsertionsCommute(StableSort.ByKey(a + b0, key), StableSort.ByKey(a + [x] + b0, key), x, q, y, key);
    }
  }

  // --- What the rules report ---------------------------------------------------------------------

  lemma {:induction false} TitlesConcat(a: seq<Dated>, b: seq<Dated>, week: int)
    ensures TitlesIn(a + b, week) == TitlesIn(a, week) + TitlesIn(b, week)
    decreases |b|
  {
    if b == [] {
      assert a + b == a;
    } else {
      assert (a + b)[..|a + b| - 1] == a + b[..|b| - 1];
      TitlesConcat(a, b[..|b| - 1], week);
    }
  }

  lemma {:induction false} WeeksExact(dated: seq<Dated>, week: int)
    ensures week in WeeksOf(dated) <==> TitlesIn(dated, week) != []
  {
    if dated != [] { WeeksExact(dated[..|dated| - 1], week); }
  }

  lemma {:induction false} WeekViolationsExact(dated: seq<Dated>, weeks: seq<int>, v: Violation)
    ensures v in WeekViolations(dated, weeks) <==>
      v.WeekOver? && v.week in weeks && v.titles == TitlesIn(dated, v.week) && |v.titles| > WEEK_CAP
  {
    if weeks != [] {
      WeekViolationsExact(dated, weeks[..|weeks| - 1], v);
      assert weeks == weeks[..|weeks| - 1] + [weeks[|weeks| - 1]];
    }
  }

  /** The week rule reports exactly the weeks with more than WEEK_CAP events, each once
      with its events in date order. */
  lemma {:induction false} WeekRule(dated: seq<Dated>, v: Violation)
    ensures v in WeekViolations(dated, WeeksOf(dated)) <==>
      v.WeekOver? && v.titles == TitlesIn(dated, v.week) && |v.titles| > WEEK_CAP
  {
    WeekViolationsExact(dated, WeeksOf(dated), v);
    if v.WeekOver? { WeeksExact(dated, v.week); }
  }

  ghost predicate FromPair(dated: seq<Dated>, i: int, v: Violation) {
    0 <= i < |dated| - 1 && v in PairViolation(dated[i], dated[i + 1])
  }

  lemma {:induction false} GapRule(dated: seq<Dated>, v: Violation)
    ensures v in GapViolations(dated) <==> exists i :: FromPair(dated, i, v)
  {
    if |dated| >= 2 {
      var shorter := dated[..|dated| - 1];
      GapRule(shorter, v);
      if exists i :: FromPair(shorter, i, v) {
        var i :| FromPair(shorter, i, v);
        assert FromPair(dated, i, v);
      }
      if v in PairViolation(dated[|dated| - 2], dated[|dated| - 1]) { assert FromPair(dated, |dated| - 2, v); }
      if exists i :: FromPair(dated, i, v) {
        var i :| FromPair(dated, i, v);
        if i < |dated| - 2 { assert FromPair(shorter, i, v); }
      }
    }
  }

  ghost predicate FromEvent(dated: seq<Dated>, i: int, blocked: Option<Calendar>, v: Violation) {
    0 <= i < |dated| && v in BlockedViolation(dated[i], blocked)
  }

  lemma {:induction false} BlockedRule(dated: seq<Dated>, blocked: Option<Calendar>, v: Violation)
    ensures v in BlockedViolations(dated, blocked) <==> exists i :: FromEvent(dated, i, blocked, v)
  {
    if dated != [] {
      var shorter := dated[..|dated| - 1];
      BlockedRule(shorter, blocked, v);
      if exists i :: FromEvent(shorter, i, blocked, v) {
        var i :| FromEvent(shorter, i, blocked, v);
        assert FromEvent(dated, i, blocked, v);
      }
      if v in BlockedViolation(dated[|dated| - 1], blocked) { assert FromEvent(dated, |dated| - 1, blocked, v); }
      if exists i :: FromEvent(dated, i, blocked, v) {
        var i :| FromEvent(dated, i, blocked, v);
        if i < |dated| - 1 { assert FromEvent(shorter, i, blocked, v); }
      }
    }
  }

  // --- What one candidate changes ------------------------------------------------------------------

  lemma {:induction false} OtherWeeksStay(dated: seq<Dated>, dated': seq<Dated>, x: Dated, p: nat, week: int)
    requires OneMore(dated, dated', x, p)
    ensures week != Week(x.event.day) ==> TitlesIn(dated', week) == TitlesIn(dated, week)
    ensures week == Week(x.event.day) ==> |TitlesIn(dated', week)| == |TitlesIn(dated, week)| + 1
  {
    var a, b := dated[..p], dated[p..];
    assert dated == a + b && [x][..0] == [];
    TitlesConcat(a, b, week);
    TitlesConcat(a + [x], b, week);
    TitlesConcat(a, [x], week);
  }

  lemma {:induction false} OtherPairsStay(dated: seq<Dated>, dated': seq<Dated>, x: Dated, p: nat, i: int, v: Violation)
    requires OneMore(dated, dated', x, p) && FromPair(dated', i, v) && i != p && i + 1 != p
    ensures v in GapViolations(dated)
  {
    GapRule(dated, v);
    var j := if i < p then i else i - 1;
    assert dated'[i] == dated[j] && dated'[i + 1] == dated[j + 1];
    assert FromPair(dated, j, v);
  }

  lemma {:induction false} OtherEventsStay(dated: seq<Dated>, dated': seq<Dated>, x: Dated, p: nat, i: int,
                                           blocked: Option<Calendar>, v: Violation)
    requires OneMore(dated, dated', x, p) && FromEvent(dated', i, blocked, v) && i != p
    ensures v in BlockedViolations(dated, blocked)
  {
    BlockedRule(dated, blocked, v);
    var j := if i < p then i else i - 1;
    assert dated'[i] == dated[j];
    assert FromEvent(dated, j, blocked, v);
  }

  ghost predicate AboutWorks(v: Violation, works: seq<string>, title: string) {
    match v
    case DuplicateWork(work, _, again) => work in works && again == title
    case HeardThisYear(t, work) => work in works && t == title
    case _ => false
  }

  lemma {:induction false} HearingOnlyAdds(h: Heard, works: seq<string>, title: string,
                                           past: History) returns (more: seq<Violation>)
    ensures HearWorks(h, works, title, past).violations == h.violations + more
    ensures forall v :: v in more ==> AboutWorks(v, works, title)
  {
    if works == [] {
      more := [];
    } else {
      var earlier, work := works[..|works| - 1], works[|works| - 1];
      var more0 := HearingOnlyAdds(h, earlier, title, past);
      assert works == earlier + [work];
      var more1 := OneWorkAdds(HearWorks(h, earlier, title, past), work, title, past);
      more := more0 + more1;
      forall v | v in more ensures AboutWorks(v, works, title) {
        if v in more0 { assert AboutWorks(v, earlier, title); } else { assert AboutWorks(v, [work], title); }
      }
    }
  }

  lemma {:induction false} OneWorkAdds(h: Heard, work: string, title: string, past: History) returns (more: seq<Violation>)
    ensures HearWork(h, work, title, past).violations == h.violations + more
    ensures forall v :: v in more ==> AboutWorks(v, [work], title)
  {
    more := (if work in h.seen then [DuplicateWork(work, h.seen[work], title)] else [])
            + if past.flat(work) in past.thisYear then [HeardThisYear(title, work)] else [];
  }

  /** The candidate takes part in the violation: its own week, a pair of neighbours it is
      one of, its own blocked day, one of its works. */
  ghost predicate Involves(v: Violation, candidate: Event, dated: seq<Dated>, p: nat, blocked: Option<Calendar>)
    requires p < |dated|
  {
    match v
    case WeekOver(week, _) => week == Week(candidate.day)
    case TooClose(_, _, _, _) => FromPair(dated, p, v) || FromPair(dated, p - 1, v)
    case Blocked(_, _, _, _) => v in BlockedViolation(Dated(candidate, false), blocked)
    case DuplicateWork(_, _, _) => AboutWorks(v, candidate.works, candidate.title)
    case HeardThisYear(_, _) => AboutWorks(v, candidate.works, candidate.title)
  }

  lemma {:induction false} TrialIsOneMore(candidate: Event, selected: seq<Event>, booked: seq<Event>) returns (p: nat)
    ensures OneMore(Schedule(selected, booked), Schedule(selected + [candidate], booked), Dated(candidate, false), p)
  {
    p := SortWithOneMore(AsDated(selected, false), Dated(candidate, false), AsDated(booked, true), DayOf);
  }

  lemma {:induction false} ScheduleBlame(candidate: Event, dated: seq<Dated>, dated': seq<Dated>, p: nat,
                                         blocked: Option<Calendar>, v: Violation)
    requires OneMore(dated, dated', Dated(candidate, false), p)
    requires v in WeekViolations(dated', WeeksOf(dated')) || v in GapViolations(dated') || v in BlockedViolations(dated', blocked)
    ensures || Involves(v, candidate, dated', p, blocked)
            || v in WeekViolations(dated, WeeksOf(dated)) || v in GapViolations(dated) || v in BlockedViolations(dated, blocked)
  {
    var x := Dated(candidate, false);
    WeekRule(dated', v);
    GapRule(dated', v);
    BlockedRule(dated', blocked, v);
    hide OneMore, WeekViolations, GapViolations, BlockedViolations;
    if v in WeekViolations(dated', WeeksOf(dated')) {
      WeekRule(dated, v);
      OtherWeeksStay(dated, dated', x, p, v.week);
    } else if v in GapViolations(dated') {
      var i :| FromPair(dated', i, v);
      if i != p && i + 1 != p { OtherPairsStay(dated, dated', x, p, i, v); }
    } else {
      var i :| FromEvent(dated', i, blocked, v);
      if i != p { OtherEventsStay(dated, dated', x, p, i, blocked, v); }
      assert OneMore(dated, dated', x, p) && dated'[p] == x by { NewElement(dated, dated', x, p); }
    }
  }

  lemma {:induction false} NewElement<T(!new)>(s: seq<T>, s': seq<T>, x: T, p: nat)
    requires OneMore(s, s', x, p)
    ensures p < |s'| && s'[p] == x && |s'| == |s| + 1
  {
  }

  lemma {:induction false} NewViolationsExact(trial: seq<Violation>, baseline: seq<Violation>,
                                              render: Violation -> string, v: Violation)
    ensures v in NewViolations(trial, baseline, render) <==>
      v in trial && forall b :: b in baseline ==> render(b) != render(v)
  {
    if trial != [] {
      NewViolationsExact(trial[..|trial| - 1], baseline, render, v);
      assert trial == trial[..|trial| - 1] + [trial[|trial| - 1]];
    }
  }

  lemma {:induction false} WorksBlame(candidate: Event, selected: seq<Event>, past: History, v: Violation)
    requires v in HearAll(selected + [candidate], past).violations
    ensures v in HearAll(selected, past).violations || AboutWorks(v, candidate.works, candidate.title)
  {
    var events := selected + [candidate];
    assert events[..|selected|] == selected;
    var h, h' := HearAll(selected, past), HearAll(events, past);
    var more := HearingOnlyAdds(h, candidate.works, candidate.title, past);
    assert h'.violations == h.violations + more;
  }

  lemma {:induction false} TrialBlame(candidate: Event, selected: seq<Event>, booked: seq<Event>, blocked: Option<Calendar>,
                                      past: History, p: nat, v: Violation)
    requires OneMore(Schedule(selected, booked), Schedule(selected + [candidate], booked), Dated(candidate, false), p)
    requires v in AllViolations(selected + [candidate], booked, blocked, past)
    ensures var dated := Schedule(selected + [candidate], booked);
            p < |dated| && (v in AllViolations(selected, booked, blocked, past) || Involves(v, candidate, dated, p, blocked))
  {
    hide Schedule, WeekViolations, GapViolations, BlockedViolations, HearAll, OneMore;
    var dated, dated' := Schedule(selected, booked), Schedule(selected + [candidate], booked);
    NewElement(dated, dated', Dated(candidate, false), p);
    if v in HearAll(selected + [candidate], past).violations {
      WorksBlame(candidate, selected, past, v);
    } else {
      ScheduleBlame(candidate, dated, dated', p, blocked, v);
    }
  }

  /** Whatever `cmd_fit` holds against a candidate involves the candidate; whatever was
      wrong with the plan before is not its fault, however violations are rendered. */
  lemma {:induction false} FitBlamesOnlyTheCandidate(candidate: Event, selected: seq<Event>, booked: seq<Event>,
                                                     blocked: Option<Calendar>,
                                                     past: History, render: Violation -> string) returns (p: nat)
    ensures var dated := Schedule(selected + [candidate], booked);
            && p < |dated| && dated[p] == Dated(candidate, false)
            && forall v :: v in Fit(candidate, selected, booked, blocked, past, render) ==>
                             Involves(v, candidate, dated, p, blocked)
  {
    p := TrialIsOneMore(candidate, selected, booked);
    NewElement(Schedule(selected, booked), Schedule(selected + [candidate], booked), Dated(candidate, false), p);
    hide AllViolations, Schedule, Involves, NewViolations, OneMore;
    var dated := Schedule(selected + [candidate], booked);
    forall v | v in Fit(candidate, selected, booked, blocked, past, render) ensures Involves(v, candidate, dated, p, blocked) {
      NewViolationsExact(AllViolations(selected + [candidate], booked, blocked, past),
                         AllViolations(selected, booked, blocked, past), render, v);
      TrialBlame(candidate, selected, booked, blocked, past, p, v);
    }
  }

  // --- The program's own form ------------------------------------------------------------------------

  /** What one run of the rules has found so far. */
  class Report {
    var violations: seq<Violation>
    var warnings: seq<Warning>

    constructor ()
      ensures violations == [] && warnings == []
    {
      violations, warnings := [], [];
    }

    method AddViolation(v: Violation)
      modifies this`violations
      ensures violations == old(violations) + [v]
    {
      violations := violations + [v];
    }

    method AddWarning(w: Warning)
      modifies this`warnings
      ensures warnings == old(warnings) + [w]
    {
      warnings := warnings + [w];
    }
  }

  function Itself(w: int): int { w }

  /** In a date-sorted schedule the weeks come up in ascending order, so sorting them
      changes nothing. */
  lemma {:induction false} WeeksAscend(dated: seq<Dated>)
    requires StableSort.Sorted(dated, DayOf)
    ensures StableSort.Sorted(WeeksOf(dated), Itself)
    ensures forall w :: w in WeeksOf(dated) ==> dated != [] && w <= Week(dated[|dated| - 1].event.day)
  {
    if dated != [] {
      var earlier := dated[..|dated| - 1];
      WeeksAscend(earlier);
      if earlier != [] { assert DayOf(dated[|dated| - 2]) <= DayOf(dated[|dated| - 1]); }
      var weeks := WeeksOf(earlier);
      assert forall i :: 0 <= i < |weeks| ==> weeks[i] in weeks;
    }
  }

  /** `by_week.setdefault(week, []).append(title)`, with the weeks in order of appearance. */
  method TitlesByWeek(dated: seq<Dated>) returns (weeks: seq<int>, byWeek: map<int, seq<string>>)
    ensures weeks == WeeksOf(dated)
    ensures forall k :: 0 <= k < |weeks| ==> weeks[k] in byWeek && byWeek[weeks[k]] == TitlesIn(dated, weeks[k])
  {
    hide Week;
    weeks, byWeek := [], map[];
    var i := 0;
    while i < |dated|
      invariant 0 <= i <= |dated| && weeks == WeeksOf(dated[..i])
      invariant forall w :: w in byWeek <==> w in weeks
      invariant forall w :: w in byWeek ==> byWeek[w] == TitlesIn(dated[..i], w)
    {
      var week, title := Week(dated[i].event.day), dated[i].event.title;
      assert dated[..i + 1][..i] == dated[..i];
      WeeksExact(dated[..i], week);
      OneMoreTitle(dated, i);
      hide TitlesIn, WeeksOf;
      if week !in byWeek {
        weeks := weeks + [week];
        byWeek := byWeek[week := []];
      }
      byWeek := byWeek[week := byWeek[week] + [title]];
      i := i + 1;
    }
    assert dated[..i] == dated;
    assert forall k :: 0 <= k < |weeks| ==> weeks[k] in weeks;
  }

  lemma {:induction false} OneMoreTitle(dated: seq<Dated>, i: nat)
    requires i < |dated|
    ensures var week := Week(dated[i].event.day);
            && WeeksOf(dated[..i + 1]) == (if week in WeeksOf(dated[..i]) then WeeksOf(dated[..i]) else WeeksOf(dated[..i]) + [week])
            && forall w :: TitlesIn(dated[..i + 1], w) == TitlesIn(dated[..i], w) + if w == week then [dated[i].event.title] else []
  {
    assert dated[..i + 1][..i] == dated[..i];
  }

  /** `check_schedule`. */
  method CheckSchedule(report: Report, events: seq<Event>, booked: seq<Event>, blocked: Option<Calendar>)
    modifies report`violations
    ensures report.violations == old(report.violations) + ScheduleViolations(events, booked, blocked)
  {
    var dated := Schedule(events, booked);
    StableSort.ByKeySorts(AsDated(events, false) + AsDated(booked, true), DayOf);
    assert StableSort.Sorted(dated, DayOf);
    hide Schedule, WeekViolations, WeeksOf, GapViolations, BlockedViolations, StableSort.ByKey, StableSort.Sorted;
    ghost var was := report.violations;
    CheckWeeks(report, dated);
    CheckGaps(report, dated);
    CheckBlocked(report, dated, blocked);
    Regroup(was, WeekViolations(dated, WeeksOf(dated)), GapViolations(dated), BlockedViolations(dated, blocked));
  }

  lemma {:induction false} Regroup(a: seq<Violation>, b: seq<Violation>, c: seq<Violation>, d: seq<Violation>)
    ensures a + b + c + d == a + (b + c + d)
  {
  }

  lemma {:induction false} NoWeeks(dated: seq<Dated>)
    ensures WeekViolations(dated, []) == []
  {
  }

  lemma {:induction false} OneMoreWeek(dated: seq<Dated>, weeks: seq<int>, i: nat)
    requires i < |weeks|
    ensures WeekViolations(dated, weeks[..i + 1])
         == WeekViolations(dated, weeks[..i])
            + if |TitlesIn(dated, weeks[i])| > WEEK_CAP then [WeekOver(weeks[i], TitlesIn(dated, weeks[i]))] else []
  {
    assert weeks[..i + 1][..i] == weeks[..i];
  }

  method CheckWeeks(report: Report, dated: seq<Dated>)
    requires StableSort.Sorted(dated, DayOf)
    modifies report`violations
    ensures report.violations == old(report.violations) + WeekViolations(dated, WeeksOf(dated))
  {
    var found, byWeek := TitlesByWeek(dated);
    var weeks := StableSort.ByKey(found, Itself);
    WeeksAscend(dated);
    StableSort.AlreadySorted(found, Itself);
    ReportWeeks(report, dated, weeks, byWeek);
  }

  method ReportWeeks(report: Report, dated: seq<Dated>, weeks: seq<int>, byWeek: map<int, seq<string>>)
    requires forall k :: 0 <= k < |weeks| ==> weeks[k] in byWeek && byWeek[weeks[k]] == TitlesIn(dated, weeks[k])
    modifies report`violations
    ensures report.violations == old(report.violations) + WeekViolations(dated, weeks)
  {
    hide TitlesIn, WeekViolations;
    NoWeeks(dated);
    var i := 0;
    while i < |weeks|
      invariant 0 <= i <= |weeks|
      invariant report.violations == old(report.violations) + WeekViolations(dated, weeks[..i])
    {
      OneMoreWeek(dated, weeks, i);
      if |byWeek[weeks[i]]| > WEEK_CAP { report.AddViolation(WeekOver(weeks[i], byWeek[weeks[i]])); }
      i := i + 1;
    }
    assert weeks[..i] == weeks;
  }

  method CheckGaps(report: Report, dated: seq<Dated>)
    modifies report`violations
    ensures report.violations == old(report.violations) + GapViolations(dated)
  {
    var i := 1;
    while i < |dated|
      invariant 1 <= i <= |dated| || (i == 1 && dated == [])
      invariant report.violations == old(report.violations) + GapViolations(dated[..if i <= |dated| then i else 0])
    {
      var a, b := dated[i - 1].event, dated[i].event;
      assert dated[..i + 1][..i] == dated[..i];
      if Distance(a.day, b.day) < MIN_GAP_DAYS && !(a.seasonEvent || b.seasonEvent) {
        report.AddViolation(TooClose(a.title, a.day, b.title, b.day));
      }
      i := i + 1;
    }
    assert dated[..|dated|] == dated;
  }

  lemma NoneBlocked(blocked: Option<Calendar>)
    ensures BlockedViolations([], blocked) == []
  {
  }

  lemma {:induction false} OneMoreDay(dated: seq<Dated>, i: nat, blocked: Option<Calendar>)
    requires i < |dated|
    ensures BlockedViolations(dated[..i + 1], blocked)
         == BlockedViolations(dated[..i], blocked) + BlockedViolation(dated[i], blocked)
  {
    assert dated[..i + 1][..i] == dated[..i];
  }

  method CheckBlocked(report: Report, dated: seq<Dated>, blocked: Option<Calendar>)
    modifies report`violations
    ensures report.violations == old(report.violations) + BlockedViolations(dated, blocked)
  {
    hide TimedConflict, BlockedViolations;
    var i := 0;
    NoneBlocked(blocked);
    while i < |dated|
      invariant 0 <= i <= |dated|
      invariant report.violations == old(report.violations) + BlockedViolations(dated[..i], blocked)
    {
      OneMoreDay(dated, i, blocked);
      if !dated[i].booked {
        var e := dated[i].event;
        var conflict := TimedConflict(e, blocked);
        if conflict.Some? { report.AddViolation(Blocked(e.title, e.day, conflict.value, e.dedupKey)); }
      }
      i := i + 1;
    }
    assert dated[..i] == dated;
  }

  /** `check_works`. */
  method CheckWorks(report: Report, events: seq<Event>, past: History)
    modifies report
    ensures report.violations == old(report.violations) + HearAll(events, past).violations
    ensures report.warnings == old(report.warnings) + HearAll(events, past).warnings
  {
    var seen: map<string, string> := map[];
    var i := 0;
    while i < |events|
      invariant 0 <= i <= |events|
      invariant seen == HearAll(events[..i], past).seen
      invariant report.violations == old(report.violations) + HearAll(events[..i], past).violations
      invariant report.warnings == old(report.warnings) + HearAll(events[..i], past).warnings
    {
      assert events[..i + 1][..i] == events[..i];
      seen := CheckEventWorks(report, events[i], seen, past, HearAll(events[..i], past), old(report.violations), old(report.warnings));
      i := i + 1;
    }
    assert events[..i] == events;
  }

  lemma NoWorks(h: Heard, title: string, past: History)
    ensures HearWorks(h, [], title, past) == h
  {
  }

  lemma {:induction false} OneMoreWork(h: Heard, works: seq<string>, k: nat, title: string, past: History)
    requires k < |works|
    ensures var h0, h1, key := HearWorks(h, works[..k], title, past), HearWorks(h, works[..k + 1], title, past), works[k];
            && h1.seen == (if key in h0.seen then h0.seen else h0.seen[key := title])
            && h1.violations == h0.violations + (if key in h0.seen then [DuplicateWork(key, h0.seen[key], title)] else [])
                 + (if past.flat(key) in past.thisYear then [HeardThisYear(title, key)] else [])
            && h1.warnings == h0.warnings
                 + (if past.flat(key) !in past.thisYear && past.flat(key) in past.lastYear then [HeardLastYear(title, key)] else [])
  {
    assert works[..k + 1][..k] == works[..k];
  }

  /** The inner loop: one event's works. */
  method CheckEventWorks(report: Report, e: Event, seen: map<string, string>, past: History, ghost h: Heard,
                         ghost violations: seq<Violation>, ghost warnings: seq<Warning>)
    returns (seen': map<string, string>)
    requires seen == h.seen
    requires report.violations == violations + h.violations && report.warnings == warnings + h.warnings
    modifies report
    ensures var h' := HearWorks(h, e.works, e.title, past);
            && seen' == h'.seen
            && report.violations == violations + h'.violations && report.warnings == warnings + h'.warnings
  {
    hide HearWorks, HearWork;
    seen' := seen;
    NoWorks(h, e.title, past);
    var k := 0;
    while k < |e.works|
      invariant 0 <= k <= |e.works|
      invariant seen' == HearWorks(h, e.works[..k], e.title, past).seen
      invariant report.violations == violations + HearWorks(h, e.works[..k], e.title, past).violations
      invariant report.warnings == warnings + HearWorks(h, e.works[..k], e.title, past).warnings
    {
      var key := e.works[k];
      OneMoreWork(h, e.works, k, e.title, past);
      if key in seen' {
        report.AddViolation(DuplicateWork(key, seen'[key], e.title));
      } else {
        seen' := seen'[key := e.title];
      }
      if past.flat(key) in past.thisYear {
        report.AddViolation(HeardThisYear(e.title, key));
      } else if past.flat(key) in past.lastYear {
        report.AddWarning(HeardLastYear(e.title, key));
      }
      k := k + 1;
    }
    assert e.works[..k] == e.works;
  }

  /** `cmd_fit`'s simulation: the rules over the plan with and without the candidate. */
  method CmdFit(candidate: Event, selected: seq<Event>, booked: seq<Event>, blocked: Option<Calendar>, past: History,
                render: Violation -> string)
    returns (fits: bool, newViolations: seq<Violation>)
    ensures newViolations == Fit(candidate, selected, booked, blocked, past, render)
    ensures fits <==> newViolations == []
  {
    hide ScheduleViolations, HearAll, NewViolations;
    var trial := new Report();
    CheckSchedule(trial, selected + [candidate], booked, blocked);
    CheckWorks(trial, selected + [candidate], past);
    var baseline := new Report();
    CheckSchedule(baseline, selected, booked, blocked);
    CheckWorks(baseline, selected, past);
    assert trial.violations == AllViolations(selected + [candidate], booked, blocked, past);
    assert baseline.violations == AllViolations(selected, booked, blocked, past);
    newViolations := NewViolations(trial.violations, baseline.violations, render);
    fits := newViolations == [];
  }
}
