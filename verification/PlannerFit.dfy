/** What the planner's verdicts promise: when `cmd_fit` lets a candidate in, and which
    close pairs the gap rule sees. */
module PlannerFit {
  import opened Wrappers
  import opened PlannerRules
  import StableSort

  // --- What fitting promises ---------------------------------------------------------------------

  /** Reports about one week with different numbers of events read differently: the count is
      part of the text. */
  ghost predicate CountsShow(render: Violation -> string) {
    forall a: Violation, b: Violation ::
      a.WeekOver? && render(a) == render(b) ==> b.WeekOver? && b.week == a.week && |b.titles| == |a.titles|
  }

  lemma CountShows(render: Violation -> string, a: Violation, b: Violation)
    requires CountsShow(render) && a.WeekOver? && render(a) == render(b)
    ensures b.WeekOver? && b.week == a.week && |b.titles| == |a.titles|
  {
  }

  // A week the candidate overfills is reported as something new.
  lemma {:induction false} OverfullWeekIsNew(candidate: Event, selected: seq<Event>, booked: seq<Event>,
                                             blocked: Option<Calendar>,
                                             past: History, render: Violation -> string)
    requires CountsShow(render)
    requires |TitlesIn(Schedule(selected + [candidate], booked), Week(candidate.day))| > WEEK_CAP
    ensures Fit(candidate, selected, booked, blocked, past, render) != []
  {
    var week := Week(candidate.day);
    var dated, dated' := Schedule(selected, booked), Schedule(selected + [candidate], booked);
    var p := TrialIsOneMore(candidate, selected, booked);
    OtherWeeksStay(dated, dated', Dated(candidate, false), p, week);
    var trial, baseline := AllViolations(selected + [candidate], booked, blocked, past), AllViolations(selected, booked, blocked, past);
    var v := WeekOver(week, TitlesIn(dated', week));
    WeekReported(selected + [candidate], booked, blocked, past, v);
    NewViolationsExact(trial, baseline, render, v);
    hide Schedule, AllViolations, OneMore, NewViolations, TitlesIn, Week, CountsShow;
    forall b | b in baseline ensures render(b) != render(v) {
      if render(v) == render(b) {
        CountShows(render, v, b);
        WeekReported(selected, booked, blocked, past, b);
      }
    }
    assert v in Fit(candidate, selected, booked, blocked, past, render);
  }

  /** A candidate that fits leaves its week within the cap. */
  lemma {:induction false} FittingKeepsTheWeek(candidate: Event, selected: seq<Event>, booked: seq<Event>,
                                               blocked: Option<Calendar>,
                                               past: History, render: Violation -> string)
    requires CountsShow(render)
    ensures Fit(candidate, selected, booked, blocked, past, render) == [] ==>
              |TitlesIn(Schedule(selected + [candidate], booked), Week(candidate.day))| <= WEEK_CAP
  {
    hide Fit, Schedule, TitlesIn, Week, CountsShow;
    if |TitlesIn(Schedule(selected + [candidate], booked), Week(candidate.day))| > WEEK_CAP {
      OverfullWeekIsNew(candidate, selected, booked, blocked, past, render);
    }
  }

  lemma {:induction false} WeekReported(events: seq<Event>, booked: seq<Event>, blocked: Option<Calendar>,
                                        past: History, v: Violation)
    requires v.WeekOver?
    ensures v in AllViolations(events, booked, blocked, past) <==>
      v.titles == TitlesIn(Schedule(events, booked), v.week) && |v.titles| > WEEK_CAP
  {
    var dated := Schedule(events, booked);
    NotInWorks(events, past, v);
    NotInRest(dated, blocked, v);
    WeekRule(dated, v);
    hide Schedule, WeekViolations, GapViolations, BlockedViolations, HearAll;
  }

  lemma {:induction false} NotInRest(dated: seq<Dated>, blocked: Option<Calendar>, v: Violation)
    requires v.WeekOver?
    ensures v !in GapViolations(dated) && v !in BlockedViolations(dated, blocked)
  {
    GapRule(dated, v);
    BlockedRule(dated, blocked, v);
  }

  lemma {:induction false} NotInWorks(events: seq<Event>, past: History, v: Violation)
    requires v.WeekOver?
    ensures v !in HearAll(events, past).violations
  {
    if events != [] {
      var earlier, last := events[..|events| - 1], events[|events| - 1];
      NotInWorks(earlier, past, v);
      assert events == earlier + [last];
      if v in HearAll(events, past).violations { WorksBlame(last, earlier, past, v); }
    }
  }

  // --- Works, play by play -------------------------------------------------------------------

  /** One work in one event of the plan. */
  datatype Play = Play(work: string, title: string)

  function PlaysOf(works: seq<string>, title: string): seq<Play> {
    if works == [] then [] else PlaysOf(works[..|works| - 1], title) + [Play(works[|works| - 1], title)]
  }

  function Plays(events: seq<Event>): seq<Play> {
    if events == [] then []
    else Plays(events[..|events| - 1]) + PlaysOf(events[|events| - 1].works, events[|events| - 1].title)
  }

  /** The title a work is first played under. */
  function FirstTitle(plays: seq<Play>, work: string): Option<string> {
    if plays == [] then None
    else if FirstTitle(plays[..|plays| - 1], work).Some? then FirstTitle(plays[..|plays| - 1], work)
    else if plays[|plays| - 1].work == work then Some(plays[|plays| - 1].title)
    else None
  }

  /** The `m`-th play repeats a work first played under `first`. */
  ghost predicate Repeats(plays: seq<Play>, m: int, work: string, first: string, again: string) {
    0 <= m < |plays| && plays[m] == Play(work, again) && FirstTitle(plays[..m], work) == Some(first)
  }

  ghost predicate Reported(plays: seq<Play>, past: History, v: Violation) {
    match v
    case DuplicateWork(work, first, again) => exists m :: Repeats(plays, m, work, first, again)
    case HeardThisYear(title, work) => Play(work, title) in plays && past.flat(work) in past.thisYear
    case _ => false
  }

  ghost predicate HeardExactly(h: Heard, plays: seq<Play>, past: History) {
    && (forall w :: w in h.seen <==> FirstTitle(plays, w).Some?)
    && (forall w :: w in h.seen ==> FirstTitle(plays, w) == Some(h.seen[w]))
    && (forall v :: v in h.violations <==> Reported(plays, past, v))
    && (forall w :: w in h.warnings <==> WarnedOf(plays, past, w))
  }

  /** A work heard last year, and not again this year, is worth a warning. */
  predicate WarnedOf(plays: seq<Play>, past: History, w: Warning) {
    Play(w.work, w.title) in plays && past.flat(w.work) in past.lastYear && past.flat(w.work) !in past.thisYear
  }

  lemma {:induction false} FirstTitleGrows(plays: seq<Play>, play: Play, work: string)
    ensures FirstTitle(plays + [play], work)
         == if FirstTitle(plays, work).Some? then FirstTitle(plays, work)
            else if play.work == work then Some(play.title) else None
  {
    assert (plays + [play])[..|plays|] == plays;
  }

  lemma {:induction false} ReportedGrows(plays: seq<Play>, play: Play, past: History, v: Violation)
    ensures Reported(plays + [play], past, v) <==>
      || Reported(plays, past, v)
      || (FirstTitle(plays, play.work).Some? && v == DuplicateWork(play.work, FirstTitle(plays, play.work).value, play.title))
      || (past.flat(play.work) in past.thisYear && v == HeardThisYear(play.title, play.work))
  {
    var more := plays + [play];
    if v.DuplicateWork? {
      forall m ensures Repeats(more, m, v.work, v.first, v.again) <==>
                         Repeats(plays, m, v.work, v.first, v.again)
                         || (m == |plays| && play == Play(v.work, v.again) && FirstTitle(plays, v.work) == Some(v.first))
      {
        if 0 <= m <= |plays| { assert more[..m] == plays[..m]; assert plays[..|plays|] == plays; }
      }
      assert FirstTitle(plays, play.work).Some? && v == DuplicateWork(play.work, FirstTitle(plays, play.work).value, play.title) ==>
          Repeats(more, |plays|, v.work, v.first, v.again);
    }
  }

  lemma {:induction false} OnePlayHeard(h: Heard, plays: seq<Play>, play: Play, past: History)
    requires HeardExactly(h, plays, past)
    ensures HeardExactly(HearWork(h, play.work, play.title, past), plays + [play], past)
  {
    var h' := HearWork(h, play.work, play.title, past);
    forall w ensures w in h'.seen <==> FirstTitle(plays + [play], w).Some?
      ensures w in h'.seen ==> FirstTitle(plays + [play], w) == Some(h'.seen[w])
    {
      FirstTitleGrows(plays, play, w);
    }
    forall w ensures w in h'.warnings <==> WarnedOf(plays + [play], past, w) { }
    hide Reported, WarnedOf;
    forall v ensures v in h'.violations <==> Reported(plays + [play], past, v) {
      ReportedGrows(plays, play, past, v);
    }
  }

  lemma {:induction false} WorksHeard(h: Heard, plays: seq<Play>, works: seq<string>, title: string, past: History)
    requires HeardExactly(h, plays, past)
    ensures HeardExactly(HearWorks(h, works, title, past), plays + PlaysOf(works, title), past)
    decreases |works|
  {
    hide HeardExactly, HearWork;
    if works == [] {
      assert plays + [] == plays;
    } else {
      var earlier, last := works[..|works| - 1], works[|works| - 1];
      WorksHeard(h, plays, earlier, title, past);
      OnePlayHeard(HearWorks(h, earlier, title, past), plays + PlaysOf(earlier, title), Play(last, title), past);
      assert plays + PlaysOf(earlier, title) + [Play(last, title)] == plays + PlaysOf(works, title);
    }
  }

  /** The works rule reports exactly the plays of a work that was played before in the plan,
      with the title it was first played under, and the plays of a work heard this year; it
      warns of those heard last year only. */
  lemma {:induction false} WorksRule(events: seq<Event>, past: History)
    ensures HeardExactly(HearAll(events, past), Plays(events), past)
  {
    if events != [] {
      var earlier, last := events[..|events| - 1], events[|events| - 1];
      WorksRule(earlier, past);
      hide HeardExactly, HearWork;
      WorksHeard(HearAll(earlier, past), Plays(earlier), last.works, last.title, past);
    }
  }

  // --- When a candidate's works pass ----------------------------------------------------------

  /** A title under which a work is played again in the plan. */
  ghost predicate PlayedAgain(plays: seq<Play>, work: string, title: string) {
    exists m :: 0 <= m < |plays| && plays[m] == Play(work, title) && FirstTitle(plays[..m], work).Some?
  }

  /** One work of the candidate passes: one heard this year only where the plan plays it
      under the same title already, one in the plan only where the plan repeats it under
      the same title, any other only once. */
  ghost predicate WorkFits(candidate: Event, selected: seq<Event>, past: History, k: nat)
    requires k < |candidate.works|
  {
    var work, plan := candidate.works[k], Plays(selected);
    && (past.flat(work) in past.thisYear ==> Play(work, candidate.title) in plan)
    && if FirstTitle(plan, work).Some? then PlayedAgain(plan, work, candidate.title) else work !in candidate.works[..k]
  }

  ghost predicate WorksFit(candidate: Event, selected: seq<Event>, past: History) {
    forall k: nat :: k < |candidate.works| ==> WorkFits(candidate, selected, past, k)
  }

  ghost predicate NoNewWorks(candidate: Event, selected: seq<Event>, past: History) {
    forall v :: v in HearAll(selected + [candidate], past).violations ==> v in HearAll(selected, past).violations
  }

  // The first title of a work never changes, as the plan grows.
  lemma {:induction false} FirstTitleConcat(a: seq<Play>, b: seq<Play>, work: string)
    ensures FirstTitle(a + b, work) == if FirstTitle(a, work).Some? then FirstTitle(a, work) else FirstTitle(b, work)
    decreases |b|
  {
    if b == [] {
      assert a + b == a;
    } else {
      var earlier, last := b[..|b| - 1], b[|b| - 1];
      FirstTitleConcat(a, earlier, work);
      FirstTitleGrows(a + earlier, last, work);
      assert a + b == a + earlier + [last];
    }
  }

  lemma {:induction false} OwnPlays(works: seq<string>, title: string, k: nat)
    requires k <= |works|
    ensures |PlaysOf(works, title)| == |works| && PlaysOf(works, title)[..k] == PlaysOf(works[..k], title)
    ensures k < |works| ==> PlaysOf(works, title)[k] == Play(works[k], title)
    decreases |works|
  {
    if works != [] && k < |works| {
      var earlier := works[..|works| - 1];
      OwnPlays(earlier, title, k);
      assert earlier[..k] == works[..k];
    } else if works != [] {
      OwnPlays(works[..|works| - 1], title, |works| - 1);
      assert works[..k] == works;
    }
  }

  lemma {:induction false} OwnFirstTitle(works: seq<string>, title: string, work: string)
    ensures FirstTitle(PlaysOf(works, title), work) == if work in works then Some(title) else None
  {
    if works != [] {
      var earlier, last := works[..|works| - 1], works[|works| - 1];
      OwnFirstTitle(earlier, title, work);
      FirstTitleGrows(PlaysOf(earlier, title), Play(last, title), work);
      assert works == earlier + [last];
    }
  }

  // The trial's plays are the plan's and then the candidate's.
  lemma {:induction false} TrialPlays(candidate: Event, selected: seq<Event>, k: nat)
    requires k < |candidate.works|
    ensures var plan, trial := Plays(selected), Plays(selected + [candidate]);
            && |trial| == |plan| + |candidate.works| && trial[|plan| + k] == Play(candidate.works[k], candidate.title)
            && forall w :: FirstTitle(trial[..|plan| + k], w)
                        == if FirstTitle(plan, w).Some? then FirstTitle(plan, w)
                           else if w in candidate.works[..k] then Some(candidate.title) else None
  {
    var plan, own := Plays(selected), PlaysOf(candidate.works, candidate.title);
    assert (selected + [candidate])[..|selected|] == selected;
    assert Plays(selected + [candidate]) == plan + own;
    OwnPlays(candidate.works, candidate.title, k);
    assert (plan + own)[..|plan| + k] == plan + own[..k];
    forall w ensures FirstTitle(plan + own[..k], w)
                  == if FirstTitle(plan, w).Some? then FirstTitle(plan, w)
                     else if w in candidate.works[..k] then Some(candidate.title) else None
    {
      FirstTitleConcat(plan, own[..k], w);
      OwnFirstTitle(candidate.works[..k], candidate.title, w);
    }
  }

  lemma {:induction false} AgainReported(plays: seq<Play>, past: History, work: string, first: string, title: string)
    requires FirstTitle(plays, work) == Some(first)
    ensures Reported(plays, past, DuplicateWork(work, first, title)) <==> PlayedAgain(plays, work, title)
  {
    forall m | 0 <= m < |plays| && FirstTitle(plays[..m], work).Some?
      ensures FirstTitle(plays[..m], work) == Some(first)
    {
      FirstTitleConcat(plays[..m], plays[m..], work);
      assert plays[..m] + plays[m..] == plays;
    }
    if PlayedAgain(plays, work, title) {
      var m :| 0 <= m < |plays| && plays[m] == Play(work, title) && FirstTitle(plays[..m], work).Some?;
      assert Repeats(plays, m, work, first, title);
    }
    if Reported(plays, past, DuplicateWork(work, first, title)) {
      var m :| Repeats(plays, m, work, first, title);
    }
  }

  // A work nobody plays is in no report.
  lemma {:induction false} UnplayedUnreported(plays: seq<Play>, past: History, work: string, first: string, title: string)
    requires FirstTitle(plays, work).None?
    ensures !Reported(plays, past, DuplicateWork(work, first, title)) && Play(work, title) !in plays
  {
    forall m | 0 <= m < |plays| ensures plays[m].work != work {
      FirstTitleConcat(plays[..m + 1], plays[m + 1..], work);
      assert plays[..m + 1] + plays[m + 1..] == plays;
      FirstTitleGrows(plays[..m], plays[m], work);
      assert plays[..m + 1] == plays[..m] + [plays[m]];
    }
  }

  lemma {:induction false} ReportedOfOld(candidate: Event, selected: seq<Event>, past: History, v: Violation)
    requires NoNewWorks(candidate, selected, past) && Reported(Plays(selected + [candidate]), past, v)
    ensures Reported(Plays(selected), past, v)
  {
    WorksRule(selected, past);
    WorksRule(selected + [candidate], past);
    hide HearAll, Plays, Reported;
  }

  lemma {:induction false} WorksPassing(candidate: Event, selected: seq<Event>, past: History, k: nat)
    requires k < |candidate.works| && NoNewWorks(candidate, selected, past)
    ensures WorkFits(candidate, selected, past, k)
  {
    var plan, trial := Plays(selected), Plays(selected + [candidate]);
    var work, title, m := candidate.works[k], candidate.title, |Plays(selected)| + k;
    TrialPlays(candidate, selected, k);
    hide Plays, PlayedAgain, NoNewWorks;
    assert trial[m] in trial;
    if past.flat(work) in past.thisYear {
      ReportedOfOld(candidate, selected, past, HeardThisYear(title, work));
    }
    if FirstTitle(plan, work).Some? {
      var first := FirstTitle(plan, work).value;
      assert Repeats(trial, m, work, first, title);
      ReportedOfOld(candidate, selected, past, DuplicateWork(work, first, title));
      AgainReported(plan, past, work, first, title);
    } else if work in candidate.works[..k] {
      assert Repeats(trial, m, work, title, title);
      ReportedOfOld(candidate, selected, past, DuplicateWork(work, title, title));
      UnplayedUnreported(plan, past, work, title, title);
    }
  }

  lemma {:induction false} PassingWorks(candidate: Event, selected: seq<Event>, past: History, m: nat, v: Violation)
    requires WorksFit(candidate, selected, past)
    requires var trial := Plays(selected + [candidate]);
             && m < |trial|
             && match v
                case DuplicateWork(work, first, again) => Repeats(trial, m, work, first, again)
                case HeardThisYear(title, work) => trial[m] == Play(work, title) && past.flat(work) in past.thisYear
                case _ => false
    ensures Reported(Plays(selected), past, v)
  {
    var plan, trial := Plays(selected), Plays(selected + [candidate]);
    assert (selected + [candidate])[..|selected|] == selected;
    assert trial == plan + PlaysOf(candidate.works, candidate.title);
    OwnPlays(candidate.works, candidate.title, 0);
    if m < |plan| {
      assert trial[m] == plan[m] && trial[..m] == plan[..m];
      assert v.DuplicateWork? ==> Repeats(plan, m, v.work, v.first, v.again);
    } else {
      var k := m - |plan|;
      assert WorkFits(candidate, selected, past, k);
      TrialPlays(candidate, selected, k);
      hide Plays, PlayedAgain, Reported;
      assert v.HeardThisYear? ==> Reported(plan, past, v);
      if v.DuplicateWork? { AgainReported(plan, past, v.work, v.first, v.again); }
    }
  }

  /** The candidate adds nothing to what the works rule reports exactly when each of its
      works passes. */
  lemma {:induction false} WorksFitExactly(candidate: Event, selected: seq<Event>, past: History)
    ensures NoNewWorks(candidate, selected, past) <==> WorksFit(candidate, selected, past)
  {
    if NoNewWorks(candidate, selected, past) {
      forall k: nat | k < |candidate.works| ensures WorkFits(candidate, selected, past, k) {
        WorksPassing(candidate, selected, past, k);
      }
    }
    if WorksFit(candidate, selected, past) {
      WorksRule(selected, past);
      WorksRule(selected + [candidate], past);
      hide HearAll, Plays, WorksFit;
      var trial := Plays(selected + [candidate]);
      forall v | v in HearAll(selected + [candidate], past).violations
        ensures v in HearAll(selected, past).violations
      {
        assert Reported(trial, past, v);
        if v.DuplicateWork? {
          var m :| Repeats(trial, m, v.work, v.first, v.again);
          PassingWorks(candidate, selected, past, m, v);
        } else {
          var m :| 0 <= m < |trial| && trial[m] == Play(v.work, v.title);
          PassingWorks(candidate, selected, past, m, v);
        }
      }
    }
  }

  // --- The verdict ---------------------------------------------------------------------------------

  /** Different violations read differently. */
  ghost predicate Telling(render: Violation -> string) {
    forall a: Violation, b: Violation :: render(a) == render(b) ==> a == b
  }

  /** Each kind of violation comes from its own rule. */
  ghost predicate FromItsRule(v: Violation, dated: seq<Dated>, events: seq<Event>, blocked: Option<Calendar>, past: History) {
    match v
    case WeekOver(week, titles) => titles == TitlesIn(dated, week) && |titles| > WEEK_CAP
    case TooClose(_, _, _, _) => v in GapViolations(dated)
    case Blocked(_, _, _, _) => v in BlockedViolations(dated, blocked)
    case _ => v in HearAll(events, past).violations
  }

  lemma {:induction false} KindsApart(events: seq<Event>, booked: seq<Event>, blocked: Option<Calendar>, past: History, v: Violation)
    ensures v in AllViolations(events, booked, blocked, past) <==>
      FromItsRule(v, Schedule(events, booked), events, blocked, past)
  {
    var dated := Schedule(events, booked);
    WeekRule(dated, v);
    GapRule(dated, v);
    BlockedRule(dated, blocked, v);
    WorksRule(events, past);
    assert v in HearAll(events, past).violations ==> v.DuplicateWork? || v.HeardThisYear?;
    hide Schedule, WeekViolations, GapViolations, BlockedViolations, HearAll;
  }

  /** Everything the trial reports was reported before. */
  ghost predicate NoNews(candidate: Event, selected: seq<Event>, booked: seq<Event>, blocked: Option<Calendar>, past: History) {
    forall v :: v in AllViolations(selected + [candidate], booked, blocked, past) ==>
                  v in AllViolations(selected, booked, blocked, past)
  }

  lemma {:induction false} FitMeansNoNews(candidate: Event, selected: seq<Event>, booked: seq<Event>,
                                          blocked: Option<Calendar>, past: History, render: Violation -> string)
    requires Telling(render)
    ensures Fit(candidate, selected, booked, blocked, past, render) == [] <==> NoNews(candidate, selected, booked, blocked, past)
  {
    hide AllViolations;
    var trial, baseline := AllViolations(selected + [candidate], booked, blocked, past), AllViolations(selected, booked, blocked, past);
    if forall v :: v in trial ==> v in baseline { NothingNew(trial, baseline, render); }
    if Fit(candidate, selected, booked, blocked, past, render) == [] {
      forall v | v in trial ensures v in baseline {
        NewViolationsExact(trial, baseline, render, v);
      }
    }
  }

  lemma {:induction false} NothingNew(trial: seq<Violation>, baseline: seq<Violation>, render: Violation -> string)
    requires forall v :: v in trial ==> v in baseline
    ensures NewViolations(trial, baseline, render) == []
  {
    if trial != [] {
      assert trial[|trial| - 1] in trial;
      NothingNew(trial[..|trial| - 1], baseline, render);
    }
  }

  // --- The candidate's neighbours -------------------------------------------------------------------

  lemma {:induction false} OneInWeek(dated: seq<Dated>, i: nat)
    requires i < |dated|
    ensures |TitlesIn(dated, Week(dated[i].event.day))| > |TitlesIn(dated[..i], Week(dated[i].event.day))|
  {
    var week := Week(dated[i].event.day);
    assert dated == dated[..i] + dated[i..] && dated[i..] == [dated[i]] + dated[i + 1..] && [dated[i]][..0] == [];
    TitlesConcat(dated[..i], dated[i..], week);
    TitlesConcat([dated[i]], dated[i + 1..], week);
  }

  lemma {:induction false} ThreeInWeek(dated: seq<Dated>, i: nat, j: nat, k: nat, week: int)
    requires i < j < k < |dated|
    requires Week(dated[i].event.day) == Week(dated[j].event.day) == Week(dated[k].event.day) == week
    ensures |TitlesIn(dated, week)| > 2
  {
    OneInWeek(dated, k);
    OneInWeek(dated[..k], j);
    assert dated[..k][..j] == dated[..j];
    OneInWeek(dated[..j], i);
  }

  function Later(p: nat, i: nat): nat {
    if i < p then i else i + 1
  }

  // Where the other events stand once the candidate is in.
  lemma {:induction false} OthersStand(dated: seq<Dated>, dated': seq<Dated>, x: Dated, p: nat)
    requires OneMore(dated, dated', x, p)
    ensures p < |dated'| && dated'[p] == x && |dated'| == |dated| + 1
    ensures forall i: nat :: i < |dated| ==> dated'[Later(p, i)] == dated[i]
  {
  }

  ghost predicate NeighbourClear(dated: seq<Dated>, i: int) {
    0 <= i < |dated| - 1 ==> PairViolation(dated[i], dated[i + 1]) == []
  }

  /** A second event on the candidate's day is its only neighbour there, where the week
      holds no more than two. */
  lemma {:induction false} SameDayIsNext(dated: seq<Dated>, p: nat, m: nat)
    requires StableSort.Sorted(dated, DayOf) && p < |dated| && m < |dated| && m != p
    requires dated[m].event.day == dated[p].event.day && |TitlesIn(dated, Week(dated[p].event.day))| <= WEEK_CAP
    ensures m == p - 1 || m == p + 1
  {
    var lo, hi := if m < p then m else p, if m < p then p else m;
    if lo + 1 < hi {
      assert DayOf(dated[lo]) <= DayOf(dated[lo + 1]) <= DayOf(dated[hi]);
      ThreeInWeek(dated, lo, lo + 1, hi, Week(dated[p].event.day));
    }
  }

  // A reported neighbour of the candidate would have to be in the old report already.
  lemma {:induction false} NeighbourIsClear(dated: seq<Dated>, dated': seq<Dated>, x: Dated, p: nat, q: int)
    requires OneMore(dated, dated', x, p) && StableSort.Sorted(dated', DayOf) && (q == p || q + 1 == p)
    requires |TitlesIn(dated', Week(x.event.day))| <= WEEK_CAP
    requires forall v :: v in GapViolations(dated') ==> v in GapViolations(dated)
    ensures NeighbourClear(dated', q)
  {
    OthersStand(dated, dated', x, p);
    hide OneMore, GapViolations, TitlesIn, Week, PairViolation, FromPair, StableSort.Sorted;
    if 0 <= q < |dated'| - 1 && PairViolation(dated'[q], dated'[q + 1]) != [] {
      var i := OldPair(dated, dated', q);
      var m := Later(p, if q == p then i else i + 1);
      SameDayIsNext(dated', p, m);
      var lo := if m < p then m else p;
      SameDayClash(dated'[lo], dated'[lo + 1]);
      var j := OldPair(dated, dated', lo);
      TwoMoreOnTheDay(dated, dated', p, j);
    }
  }

  lemma SameDayClash(a: Dated, b: Dated)
    requires a.event.day == b.event.day && !a.event.seasonEvent && !b.event.seasonEvent
    ensures PairViolation(a, b) != []
  {
  }

  // The old report of a pair is about two events of the same days, neither a season event.
  lemma {:induction false} OldPair(dated: seq<Dated>, dated': seq<Dated>, q: nat) returns (i: nat)
    requires q + 1 < |dated'| && PairViolation(dated'[q], dated'[q + 1]) != []
    requires forall v :: v in GapViolations(dated') ==> v in GapViolations(dated)
    ensures i + 1 < |dated| && !dated[i].event.seasonEvent && !dated[i + 1].event.seasonEvent
    ensures dated[i].event.day == dated'[q].event.day && dated[i + 1].event.day == dated'[q + 1].event.day
    ensures !dated'[q].event.seasonEvent && !dated'[q + 1].event.seasonEvent
  {
    var v := PairViolation(dated'[q], dated'[q + 1])[0];
    assert FromPair(dated', q, v);
    GapRule(dated', v);
    GapRule(dated, v);
    i :| FromPair(dated, i, v);
  }

  lemma {:induction false} TwoMoreOnTheDay(dated: seq<Dated>, dated': seq<Dated>, p: nat, j: nat)
    requires p < |dated'| == |dated| + 1 && j + 1 < |dated|
    requires forall i: nat :: i < |dated| ==> dated'[Later(p, i)] == dated[i]
    requires dated[j].event.day == dated[j + 1].event.day == dated'[p].event.day
    ensures |TitlesIn(dated', Week(dated'[p].event.day))| > 2
  {
    var a, b := Later(p, j), Later(p, j + 1);
    var week := Week(dated'[p].event.day);
    assert dated'[a] == dated[j] && dated'[b] == dated[j + 1];
    hide Week, TitlesIn;
    if p < a { ThreeInWeek(dated', p, a, b, week); }
    else if p < b { ThreeInWeek(dated', a, p, b, week); }
    else { ThreeInWeek(dated', a, b, p, week); }
  }

  /** The candidate collides with nothing, or exactly as an event of the plan that reads the
      same already does. */
  ghost predicate BlockedFits(candidate: Event, selected: seq<Event>, blocked: Option<Calendar>) {
    TimedConflict(candidate, blocked).Some? ==>
      exists e :: e in selected && e.title == candidate.title && e.day == candidate.day
                  && e.dedupKey == candidate.dedupKey && TimedConflict(e, blocked) == TimedConflict(candidate, blocked)
  }

  /** What `cmd_fit` says of a candidate that fits: its week is within the cap, it keeps its
      distance to both neighbours, it collides with nothing new and repeats nothing new. */
  ghost predicate Fits(candidate: Event, selected: seq<Event>, booked: seq<Event>, blocked: Option<Calendar>,
                       past: History, p: nat)
  {
    var dated := Schedule(selected + [candidate], booked);
    && |TitlesIn(dated, Week(candidate.day))| <= WEEK_CAP
    && NeighbourClear(dated, p - 1) && NeighbourClear(dated, p)
    && BlockedFits(candidate, selected, blocked) && WorksFit(candidate, selected, past)
  }

  lemma {:induction false} AsDatedHolds(events: seq<Event>, booked: bool, d: Dated)
    ensures d in AsDated(events, booked) <==> d.event in events && d.booked == booked
  {
    if events != [] {
      AsDatedHolds(events[..|events| - 1], booked, d);
      assert events == events[..|events| - 1] + [events[|events| - 1]];
    }
  }

  lemma {:induction false} ScheduleHolds(events: seq<Event>, booked: seq<Event>, d: Dated)
    ensures d in Schedule(events, booked) <==> d.event in if d.booked then booked else events
    ensures StableSort.Sorted(Schedule(events, booked), DayOf)
  {
    AsDatedHolds(events, false, d);
    AsDatedHolds(booked, true, d);
    StableSort.ByKeySorts(AsDated(events, false) + AsDated(booked, true), DayOf);
  }

  // The candidate's collision is old news exactly when a twin in the plan has it too.
  lemma {:induction false} BlockedNews(candidate: Event, selected: seq<Event>, booked: seq<Event>, blocked: Option<Calendar>)
    ensures BlockedFits(candidate, selected, blocked) <==>
      forall v :: v in BlockedViolation(Dated(candidate, false), blocked) ==>
                    v in BlockedViolations(Schedule(selected, booked), blocked)
  {
    var dated := Schedule(selected, booked);
    hide Schedule, TimedConflict, BlockedViolations;
    if TimedConflict(candidate, blocked).Some? {
      var v := Blocked(candidate.title, candidate.day, TimedConflict(candidate, blocked).value, candidate.dedupKey);
      assert v in BlockedViolation(Dated(candidate, false), blocked);
      BlockedRule(dated, blocked, v);
      if v in BlockedViolations(dated, blocked) {
        var i :| FromEvent(dated, i, blocked, v);
        ScheduleHolds(selected, booked, dated[i]);
        assert dated[i] in dated && dated[i].event in selected;
      }
      if BlockedFits(candidate, selected, blocked) {
        var e :| e in selected && e.title == candidate.title && e.day == candidate.day
                 && e.dedupKey == candidate.dedupKey && TimedConflict(e, blocked) == TimedConflict(candidate, blocked);
        ScheduleHolds(selected, booked, Dated(e, false));
        var i :| 0 <= i < |dated| && dated[i] == Dated(e, false);
        assert FromEvent(dated, i, blocked, v);
      }
    }
  }

  /** A candidate that fits keeps its distance: whatever the plan already violates, none of
      its neighbours is too close. */
  lemma {:induction false} FittingKeepsTheGaps(candidate: Event, selected: seq<Event>, booked: seq<Event>,
                                               blocked: Option<Calendar>, past: History,
                                               render: Violation -> string) returns (p: nat)
    requires Telling(render)
    ensures OneMore(Schedule(selected, booked), Schedule(selected + [candidate], booked), Dated(candidate, false), p)
    ensures var dated := Schedule(selected + [candidate], booked);
            Fit(candidate, selected, booked, blocked, past, render) == [] ==>
              NeighbourClear(dated, p - 1) && NeighbourClear(dated, p)
  {
    p := TrialIsOneMore(candidate, selected, booked);
    FittingKeepsTheWeek(candidate, selected, booked, blocked, past, render);
    FitMeansNoNews(candidate, selected, booked, blocked, past, render);
    ScheduleHolds(selected + [candidate], booked, Dated(candidate, false));
    hide Schedule, AllViolations, OneMore, TitlesIn, Telling, NeighbourClear, Week, Fit, StableSort.Sorted, NoNews, GapViolations;
    if Fit(candidate, selected, booked, blocked, past, render) == [] {
      NoNewGap(candidate, selected, booked, blocked, past);
      var dated, dated' := Schedule(selected, booked), Schedule(selected + [candidate], booked);
      NeighbourIsClear(dated, dated', Dated(candidate, false), p, p - 1);
      NeighbourIsClear(dated, dated', Dated(candidate, false), p, p);
    }
  }

  // What an empty difference says rule by rule.
  lemma {:induction false} NoNewGap(candidate: Event, selected: seq<Event>, booked: seq<Event>, blocked: Option<Calendar>,
                                    past: History)
    requires NoNews(candidate, selected, booked, blocked, past)
    ensures forall v :: v in GapViolations(Schedule(selected + [candidate], booked)) ==>
                          v in GapViolations(Schedule(selected, booked))
  {
    hide Schedule, AllViolations, GapViolations;
    forall v | v in GapViolations(Schedule(selected + [candidate], booked))
      ensures v in GapViolations(Schedule(selected, booked))
    {
      GapKind(Schedule(selected + [candidate], booked), v);
      KindsApart(selected + [candidate], booked, blocked, past, v);
      KindsApart(selected, booked, blocked, past, v);
    }
  }

  lemma {:induction false} GapKind(dated: seq<Dated>, v: Violation)
    requires v in GapViolations(dated)
    ensures v.TooClose?
  {
    GapRule(dated, v);
  }

  lemma {:induction false} NoNewCollision(candidate: Event, selected: seq<Event>, booked: seq<Event>, blocked: Option<Calendar>,
                                          past: History, p: nat)
    requires OneMore(Schedule(selected, booked), Schedule(selected + [candidate], booked), Dated(candidate, false), p)
    requires NoNews(candidate, selected, booked, blocked, past)
    ensures BlockedFits(candidate, selected, blocked)
  {
    OthersStand(Schedule(selected, booked), Schedule(selected + [candidate], booked), Dated(candidate, false), p);
    BlockedNews(candidate, selected, booked, blocked);
    hide Schedule, AllViolations, OneMore, BlockedFits, BlockedViolations;
    forall v | v in BlockedViolation(Dated(candidate, false), blocked)
      ensures v in BlockedViolations(Schedule(selected, booked), blocked)
    {
      OwnCollision(Schedule(selected + [candidate], booked), p, blocked, v);
      KindsApart(selected + [candidate], booked, blocked, past, v);
      KindsApart(selected, booked, blocked, past, v);
    }
  }

  lemma {:induction false} OwnCollision(dated: seq<Dated>, p: nat, blocked: Option<Calendar>, v: Violation)
    requires p < |dated| && v in BlockedViolation(dated[p], blocked)
    ensures v.Blocked? && v in BlockedViolations(dated, blocked)
  {
    assert FromEvent(dated, p, blocked, v);
    BlockedRule(dated, blocked, v);
  }

  lemma {:induction false} NoNewRepeat(candidate: Event, selected: seq<Event>, booked: seq<Event>, blocked: Option<Calendar>,
                                       past: History)
    requires NoNews(candidate, selected, booked, blocked, past)
    ensures WorksFit(candidate, selected, past)
  {
    WorksFitExactly(candidate, selected, past);
    WorksRule(selected + [candidate], past);
    hide Schedule, AllViolations, WorksFit, HearAll, TitlesIn, GapViolations, BlockedViolations, Plays;
    forall v | v in HearAll(selected + [candidate], past).violations ensures v in HearAll(selected, past).violations {
      assert Reported(Plays(selected + [candidate]), past, v);
      KindsApart(selected + [candidate], booked, blocked, past, v);
      KindsApart(selected, booked, blocked, past, v);
    }
  }

  lemma {:induction false} WeekIsOld(dated: seq<Dated>, dated': seq<Dated>, x: Dated, p: nat, v: Violation)
    requires OneMore(dated, dated', x, p) && |TitlesIn(dated', Week(x.event.day))| <= WEEK_CAP
    requires v.WeekOver? && v.titles == TitlesIn(dated', v.week) && |v.titles| > WEEK_CAP
    ensures v.titles == TitlesIn(dated, v.week)
  {
    OtherWeeksStay(dated, dated', x, p, v.week);
  }

  lemma {:induction false} GapIsOld(dated: seq<Dated>, dated': seq<Dated>, x: Dated, p: nat, v: Violation)
    requires OneMore(dated, dated', x, p) && NeighbourClear(dated', p - 1) && NeighbourClear(dated', p)
    requires v in GapViolations(dated')
    ensures v in GapViolations(dated)
  {
    hide OneMore, GapViolations;
    GapRule(dated', v);
    var i :| FromPair(dated', i, v);
    OtherPairsStay(dated, dated', x, p, i, v);
  }

  lemma {:induction false} CollisionIsOld(dated: seq<Dated>, dated': seq<Dated>, x: Dated, p: nat,
                                          blocked: Option<Calendar>, v: Violation)
    requires OneMore(dated, dated', x, p) && v in BlockedViolations(dated', blocked)
    requires forall w :: w in BlockedViolation(x, blocked) ==> w in BlockedViolations(dated, blocked)
    ensures v in BlockedViolations(dated, blocked)
  {
    OthersStand(dated, dated', x, p);
    hide OneMore, BlockedViolations;
    BlockedRule(dated', blocked, v);
    var i :| FromEvent(dated', i, blocked, v);
    if i != p { OtherEventsStay(dated, dated', x, p, i, blocked, v); }
  }

  lemma {:induction false} FitsNoNews(candidate: Event, selected: seq<Event>, booked: seq<Event>, blocked: Option<Calendar>,
                                      past: History, p: nat, v: Violation)
    requires OneMore(Schedule(selected, booked), Schedule(selected + [candidate], booked), Dated(candidate, false), p)
    requires Fits(candidate, selected, booked, blocked, past, p)
    requires v in AllViolations(selected + [candidate], booked, blocked, past)
    ensures v in AllViolations(selected, booked, blocked, past)
  {
    KindsApart(selected + [candidate], booked, blocked, past, v);
    KindsApart(selected, booked, blocked, past, v);
    var dated, dated', x := Schedule(selected, booked), Schedule(selected + [candidate], booked), Dated(candidate, false);
    hide Schedule, AllViolations, OneMore, BlockedFits, WorksFit, TitlesIn, GapViolations, BlockedViolations, NeighbourClear;
    if v.WeekOver? {
      WeekIsOld(dated, dated', x, p, v);
    } else if v.TooClose? {
      GapIsOld(dated, dated', x, p, v);
    } else if v.Blocked? {
      BlockedNews(candidate, selected, booked, blocked);
      CollisionIsOld(dated, dated', x, p, blocked, v);
    } else {
      WorksFitExactly(candidate, selected, past);
    }
  }

  /** The verdict, exactly: a candidate fits if and only if its week stays within the cap,
      neither neighbour is too close, it collides with nothing new and repeats no work that
      is not repeated already under its own title. */
  lemma {:induction false} FitsExactly(candidate: Event, selected: seq<Event>, booked: seq<Event>, blocked: Option<Calendar>,
                                       past: History, render: Violation -> string) returns (p: nat)
    requires Telling(render)
    ensures OneMore(Schedule(selected, booked), Schedule(selected + [candidate], booked), Dated(candidate, false), p)
    ensures Fit(candidate, selected, booked, blocked, past, render) == [] <==> Fits(candidate, selected, booked, blocked, past, p)
  {
    FitMeansNoNews(candidate, selected, booked, blocked, past, render);
    hide Fit, AllViolations, Schedule, OneMore, BlockedFits, WorksFit, NeighbourClear, TitlesIn;
    p := FittingKeepsTheGaps(candidate, selected, booked, blocked, past, render);
    if Fit(candidate, selected, booked, blocked, past, render) == [] {
      FittingKeepsTheWeek(candidate, selected, booked, blocked, past, render);
      NoNewCollision(candidate, selected, booked, blocked, past, p);
      NoNewRepeat(candidate, selected, booked, blocked, past);
    } else {
      if Fits(candidate, selected, booked, blocked, past, p) {
        forall v | v in AllViolations(selected + [candidate], booked, blocked, past)
          ensures v in AllViolations(selected, booked, blocked, past)
        {
          FitsNoNews(candidate, selected, booked, blocked, past, p, v);
        }
      }
    }
  }

  lemma {:induction false} RepeatIsHeard(candidate: Event, selected: seq<Event>, past: History, k: nat)
    requires k < |candidate.works| && candidate.works[k] in HearAll(selected, past).seen
    ensures var work := candidate.works[k];
            var v := DuplicateWork(work, HearAll(selected, past).seen[work], candidate.title);
            && v in HearAll(selected + [candidate], past).violations
            && (v in HearAll(selected, past).violations <==> PlayedAgain(Plays(selected), work, candidate.title))
  {
    var work := candidate.works[k];
    var plan, trial := Plays(selected), Plays(selected + [candidate]);
    WorksRule(selected, past);
    WorksRule(selected + [candidate], past);
    TrialPlays(candidate, selected, k);
    hide HearAll, Plays, PlayedAgain;
    var first := HearAll(selected, past).seen[work];
    AgainReported(plan, past, work, first, candidate.title);
    assert Repeats(trial, |plan| + k, work, first, candidate.title);
    assert Reported(trial, past, DuplicateWork(work, first, candidate.title));
  }

  /** A work the plan plays already goes unreported exactly when the plan itself plays it
      again under the candidate's title. */
  lemma {:induction false} RepeatGoesUnreportedExactly(candidate: Event, selected: seq<Event>, booked: seq<Event>,
                                                       blocked: Option<Calendar>, past: History,
                                                       render: Violation -> string, k: nat)
    requires Telling(render) && k < |candidate.works| && candidate.works[k] in HearAll(selected, past).seen
    ensures var work := candidate.works[k];
            DuplicateWork(work, HearAll(selected, past).seen[work], candidate.title)
              !in Fit(candidate, selected, booked, blocked, past, render)
            <==> PlayedAgain(Plays(selected), work, candidate.title)
  {
    var work := candidate.works[k];
    var v := DuplicateWork(work, HearAll(selected, past).seen[work], candidate.title);
    RepeatIsHeard(candidate, selected, past, k);
    NewViolationsExact(AllViolations(selected + [candidate], booked, blocked, past),
                       AllViolations(selected, booked, blocked, past), render, v);
    KindsApart(selected + [candidate], booked, blocked, past, v);
    KindsApart(selected, booked, blocked, past, v);
    hide AllViolations, HearAll, Plays, NewViolations, PlayedAgain, Schedule;
  }

  /** Fits, however violations are rendered, with a work the plan plays. */
  ghost predicate FitsRepeating(candidate: Event, selected: seq<Event>, past: History) {
    && (forall render: Violation -> string :: Fit(candidate, selected, [], None, past, render) == [])
    && (exists e, work :: e in selected && work in e.works && work in candidate.works)
  }

  /** So a repeated work can get through: where two events of one title play it already, a
      third one fits. */
  lemma FitCanMask()
    ensures exists candidate: Event, selected: seq<Event>, past: History :: FitsRepeating(candidate, selected, past)
  {
    var a := Event("T", 0, 0, false, ["w"], None);
    var b, c := a.(day := 100), a.(day := 200);
    var past := History(k => k, {}, {});
    forall render: Violation -> string ensures Fit(c, [a, b], [], None, past, render) == [] {
      forall v | v in AllViolations([a, b] + [c], [], None, past) ensures v in AllViolations([a, b], [], None, past) {
        KindsApart([a, b] + [c], [], None, past, v);
        KindsApart([a, b], [], None, past, v);
        MaskedSchedule(a, b, c, past, v);
      }
      NothingNew(AllViolations([a, b] + [c], [], None, past), AllViolations([a, b], [], None, past), render);
    }
    assert a in [a, b] && "w" in a.works && "w" in c.works;
    assert FitsRepeating(c, [a, b], past);
  }

  lemma MaskedSchedule(a: Event, b: Event, c: Event, past: History, v: Violation)
    requires a == Event("T", 0, 0, false, ["w"], None) && b == a.(day := 100) && c == a.(day := 200)
    requires past.thisYear == {} && FromItsRule(v, Schedule([a, b] + [c], []), [a, b] + [c], None, past)
    ensures FromItsRule(v, Schedule([a, b], []), [a, b], None, past)
  {
    assert [a, b] + [c] == [a, b, c];
    var dated := [Dated(a, false), Dated(b, false), Dated(c, false)];
    MaskedDays(a, b, c);
    MaskedWorks(a, b, c, past);
    if v.WeekOver? {
      MaskedWeeks(dated, v.week);
    } else if v.TooClose? {
      GapRule(dated, v);
    } else if v.Blocked? {
      BlockedRule(dated, None, v);
    }
  }

  lemma MaskedDays(a: Event, b: Event, c: Event)
    requires a.day == 0 && b.day == 100 && c.day == 200
    ensures Schedule([a, b, c], []) == [Dated(a, false), Dated(b, false), Dated(c, false)]
  {
    var events, dated := [a, b, c], [Dated(a, false), Dated(b, false), Dated(c, false)];
    assert events[..2] == [a, b] && [a, b][..1] == [a] && [a][..0] == [];
    assert AsDated([a], false) == [Dated(a, false)];
    assert AsDated([a, b], false) == AsDated([a], false) + [Dated(b, false)];
    assert AsDated(events, false) == dated && dated + [] == dated;
    StableSort.AlreadySorted(dated, DayOf);
  }

  lemma {:induction false} MaskedWeeks(dated: seq<Dated>, week: int)
    requires |dated| == 3 && dated[0].event.day == 0 && dated[1].event.day == 100 && dated[2].event.day == 200
    ensures |TitlesIn(dated, week)| <= 1
  {
    assert dated[..2][..1] == dated[..1] && dated[..1][..0] == [];
    assert |TitlesIn(dated[..1], week)| <= 1 && (TitlesIn(dated[..1], week) != [] ==> week == Week(0));
    assert |TitlesIn(dated[..2], week)| <= 1 && (TitlesIn(dated[..2], week) != [] ==> week in {Week(0), Week(100)});
  }

  lemma MaskedWorks(a: Event, b: Event, c: Event, past: History)
    requires a == Event("T", 0, 0, false, ["w"], None) && b == a.(day := 100) && c == a.(day := 200) && past.thisYear == {}
    ensures HearAll([a, b], past).violations == [DuplicateWork("w", "T", "T")]
    ensures HearAll([a, b, c], past).violations == [DuplicateWork("w", "T", "T"), DuplicateWork("w", "T", "T")]
  {
    assert [a, b, c][..2] == [a, b] && [a, b][..1] == [a] && [a][..0] == [];
    assert ["w"][..0] == [];
    var h0 := Heard(map[], [], []);
    assert HearWorks(h0, ["w"], "T", past) == HearWork(h0, "w", "T", past);
    assert HearAll([a], past) == HearWork(h0, "w", "T", past);
    var h1 := HearAll([a], past);
    assert h1.seen == map["w" := "T"] && h1.violations == [];
    assert HearAll([a, b], past) == HearWorks(h1, ["w"], "T", past) == HearWork(h1, "w", "T", past);
    var h2 := HearAll([a, b], past);
    assert HearAll([a, b, c], past) == HearWorks(h2, ["w"], "T", past) == HearWork(h2, "w", "T", past);
  }

  // --- What the gap rule sees ----------------------------------------------------------------------

  /** All events that are not season events are MIN_GAP_DAYS apart or more. */
  ghost predicate AllApart(dated: seq<Dated>) {
    forall i, j :: 0 <= i < j < |dated| && !dated[i].event.seasonEvent && !dated[j].event.seasonEvent ==>
      Distance(dated[i].event.day, dated[j].event.day) >= MIN_GAP_DAYS
  }

  /** Two events too close with season events, and only those, between them. */
  ghost predicate HidesGap(dated: seq<Dated>, i: int, j: int) {
    && 0 <= i && i + 1 < j < |dated| && !dated[i].event.seasonEvent && !dated[j].event.seasonEvent
    && (forall k :: i < k < j ==> dated[k].event.seasonEvent)
    && Distance(dated[i].event.day, dated[j].event.day) < MIN_GAP_DAYS
  }

  // The first event after `i` that is no season event.
  lemma {:induction false} NextPlain(dated: seq<Dated>, i: nat, j: nat) returns (n: nat)
    requires i < j < |dated| && !dated[j].event.seasonEvent
    ensures i < n <= j && !dated[n].event.seasonEvent && forall k :: i < k < n ==> dated[k].event.seasonEvent
    decreases j - i
  {
    n := i + 1;
    while dated[n].event.seasonEvent
      invariant i < n <= j && forall k :: i < k < n ==> dated[k].event.seasonEvent
      decreases j - n
    {
      n := n + 1;
    }
  }

  lemma {:induction false} NoPairsNoGaps(dated: seq<Dated>)
    requires forall i :: 0 <= i < |dated| - 1 ==> PairViolation(dated[i], dated[i + 1]) == []
    ensures GapViolations(dated) == []
  {
    if |dated| >= 2 { NoPairsNoGaps(dated[..|dated| - 1]); }
  }

  /** The gap rule is complete but for what season events hide. */
  lemma {:induction false} GapRuleSeesExactly(dated: seq<Dated>)
    requires StableSort.Sorted(dated, DayOf)
    ensures AllApart(dated) <==> GapViolations(dated) == [] && forall i, j :: !HidesGap(dated, i, j)
  {
    if AllApart(dated) {
      NoPairsNoGaps(dated);
    }
    if GapViolations(dated) == [] && forall i, j :: !HidesGap(dated, i, j) {
      forall i, j | 0 <= i < j < |dated| && !dated[i].event.seasonEvent && !dated[j].event.seasonEvent
        ensures Distance(dated[i].event.day, dated[j].event.day) >= MIN_GAP_DAYS
      {
        var n := NextPlain(dated, i, j);
        assert DayOf(dated[i]) <= DayOf(dated[n]) && (n < j ==> DayOf(dated[n]) <= DayOf(dated[j]));
        assert !HidesGap(dated, i, n);
        if n == i + 1 && PairViolation(dated[i], dated[n]) != [] {
          assert FromPair(dated, i, PairViolation(dated[i], dated[n])[0]);
          GapRule(dated, PairViolation(dated[i], dated[n])[0]);
        }
      }
    }
  }

  /** Without season events, no neighbours too close means no two events too close. */
  lemma {:induction false} GapRuleIsComplete(dated: seq<Dated>)
    requires StableSort.Sorted(dated, DayOf) && forall i :: 0 <= i < |dated| ==> !dated[i].event.seasonEvent
    ensures GapViolations(dated) == [] <==>
      forall i, j :: 0 <= i < j < |dated| ==> Distance(dated[i].event.day, dated[j].event.day) >= MIN_GAP_DAYS
  {
    GapRuleSeesExactly(dated);
    forall i, j ensures !HidesGap(dated, i, j) {
      if 0 <= i && i + 1 < j < |dated| { assert !dated[i + 1].event.seasonEvent; }
    }
  }

  /** And they do hide: a season event between two others on one day. */
  lemma SeasonEventHidesAGap()
    ensures exists dated: seq<Dated> ::
      StableSort.Sorted(dated, DayOf) && GapViolations(dated) == [] && HidesGap(dated, 0, 2)
  {
    var plain := Dated(Event("A", 0, 0, false, [], None), false);
    var season := Dated(Event("S", 0, 0, true, [], None), false);
    var dated := [plain, season, plain];
    assert dated[..2] == [plain, season] && [plain, season][..1] == [plain];
    assert GapViolations([plain]) == [] && PairViolation(plain, season) == [] && PairViolation(season, plain) == [];
    assert GapViolations([plain, season]) == GapViolations([plain]) + PairViolation(plain, season) == [];
    assert GapViolations(dated) == GapViolations([plain, season]) + PairViolation(season, plain) == [];
    assert StableSort.Sorted(dated, DayOf) && HidesGap(dated, 0, 2);
  }
}
