/** The planner's verdict in terms of the calendar: weeks from Monday to Sunday, days
    between concerts, hours around an appointment. */
module PlannerCalendar {
  import opened Wrappers
  import StableSort
  import opened PlannerRules
  import opened PlannerFit

  // --- Weeks ------------------------------------------------------------------------------------

  /** Day 0 is a Thursday, so day 4 is a Monday. */
  predicate InWeekFrom(monday: int, day: int) {
    monday % 7 == 4 && monday <= day <= monday + 6
  }

  ghost predicate SameWeek(a: int, b: int) {
    exists monday :: InWeekFrom(monday, a) && InWeekFrom(monday, b)
  }

  lemma WeeksAreCalendarWeeks(a: int, b: int)
    ensures Week(a) == Week(b) <==> SameWeek(a, b)
  {
    var monday := a - (a + 3) % 7;
    assert InWeekFrom(monday, a);
    if Week(a) == Week(b) {
      assert InWeekFrom(monday, b);
    }
    if SameWeek(a, b) {
      var m :| InWeekFrom(m, a) && InWeekFrom(m, b);
      assert (m + 3) % 7 == 0;
    }
  }

  /** The events of a schedule in the week of a day. */
  ghost function InWeekOf(dated: seq<Dated>, day: int): set<nat> {
    set i: nat | i < |dated| && SameWeek(dated[i].event.day, day)
  }

  lemma {:induction false} TitlesCountTheWeek(dated: seq<Dated>, day: int)
    ensures |TitlesIn(dated, Week(day))| == |InWeekOf(dated, day)|
  {
    hide SameWeek, Week;
    if dated == [] {
      assert InWeekOf(dated, day) == {};
    } else {
      var earlier, last := dated[..|dated| - 1], dated[|dated| - 1];
      TitlesCountTheWeek(earlier, day);
      WeeksAreCalendarWeeks(last.event.day, day);
      assert InWeekOf(dated, day) == InWeekOf(earlier, day) + if SameWeek(last.event.day, day) then {|earlier|} else {};
    }
  }

  // --- Days between ---------------------------------------------------------------------------

  /** On the same day or on neighbouring ones, neither a season event. */
  predicate TooCloseTogether(a: Event, b: Event) {
    -1 <= a.day - b.day <= 1 && !a.seasonEvent && !b.seasonEvent
  }

  lemma PairsAreClose(a: Dated, b: Dated)
    ensures PairViolation(a, b) == if TooCloseTogether(a.event, b.event)
                                   then [TooClose(a.event.title, a.event.day, b.event.title, b.event.day)] else []
  {
  }

  // --- The calendar -----------------------------------------------------------------------------

  /** From two hours before its start to an hour after its end. */
  predicate Overlaps(conflict: Option<Conflict>, start: int) {
    conflict.Some? && conflict.value.start - 7200 <= start <= conflict.value.end + 3600
  }

  ghost predicate FirstOverlap(conflicts: seq<Option<Conflict>>, start: int, k: int) {
    0 <= k < |conflicts| && Overlaps(conflicts[k], start) && forall j :: 0 <= j < k ==> !Overlaps(conflicts[j], start)
  }

  /** The event collides with a blocked day or with the first appointment it overlaps. */
  ghost predicate Collides(e: Event, blocked: Option<Calendar>, what: string) {
    && blocked.Some?
    && if e.day in blocked.value.blockedDays then what == BLOCKED_DAY
       else exists k :: FirstOverlap(blocked.value.conflicts, e.startsAt, k) && blocked.value.conflicts[k].value.title == what
  }

  lemma {:induction false} FirstConflictExactly(start: int, conflicts: seq<Option<Conflict>>, what: string)
    ensures FirstConflict(start, conflicts) == Some(what) <==>
      exists k :: FirstOverlap(conflicts, start, k) && conflicts[k].value.title == what
    decreases |conflicts|
  {
    if conflicts != [] {
      var rest := conflicts[1..];
      FirstConflictExactly(start, rest, what);
      if Overlaps(conflicts[0], start) {
        assert FirstOverlap(conflicts, start, 0);
        forall k | FirstOverlap(conflicts, start, k) ensures k == 0 { }
      } else {
        if k :| FirstOverlap(rest, start, k) && rest[k].value.title == what {
          assert forall j :: 0 < j < |conflicts| ==> conflicts[j] == rest[j - 1];
          assert FirstOverlap(conflicts, start, k + 1);
        }
        if k :| FirstOverlap(conflicts, start, k) && conflicts[k].value.title == what {
          assert conflicts[k] == rest[k - 1];
          assert forall j :: 0 <= j < |rest| ==> rest[j] == conflicts[j + 1];
          assert FirstOverlap(rest, start, k - 1);
        }
      }
    }
  }

  lemma {:induction false} CollidesExactly(e: Event, blocked: Option<Calendar>, what: string)
    ensures TimedConflict(e, blocked) == Some(what) <==> Collides(e, blocked, what)
  {
    if blocked.Some? { FirstConflictExactly(e.startsAt, blocked.value.conflicts, what); }
    hide FirstConflict, FirstOverlap;
  }

  // --- The verdict --------------------------------------------------------------------------------

  predicate ApartFromNext(dated: seq<Dated>, i: int) {
    0 <= i < |dated| - 1 ==> !TooCloseTogether(dated[i].event, dated[i + 1].event)
  }

  /** Every collision is one the plan already has, under the same title, day and key. */
  ghost predicate NoNewCollisions(candidate: Event, selected: seq<Event>, blocked: Option<Calendar>) {
    forall what :: Collides(candidate, blocked, what) ==>
      exists e :: e in selected && e.title == candidate.title && e.day == candidate.day && e.dedupKey == candidate.dedupKey
                  && Collides(e, blocked, what)
  }

  lemma {:induction false} CollisionsFit(candidate: Event, selected: seq<Event>, blocked: Option<Calendar>)
    ensures BlockedFits(candidate, selected, blocked) <==> NoNewCollisions(candidate, selected, blocked)
  {
    forall e: Event, what ensures TimedConflict(e, blocked) == Some(what) <==> Collides(e, blocked, what) {
      CollidesExactly(e, blocked, what);
    }
    hide TimedConflict, Collides;
    var conflict := TimedConflict(candidate, blocked);
    if conflict.Some? { assert Collides(candidate, blocked, conflict.value); }
    if NoNewCollisions(candidate, selected, blocked) && conflict.Some? {
      var e :| e in selected && e.title == candidate.title && e.day == candidate.day && e.dedupKey == candidate.dedupKey
               && Collides(e, blocked, conflict.value);
      assert TimedConflict(e, blocked) == conflict;
    }
  }

  /** A candidate fits exactly when it leaves no more than two events in its week, is a day
      clear of both neighbours, collides only as the plan already does, and brings no work
      that does not pass. */
  lemma {:induction false} FitsByTheCalendar(candidate: Event, selected: seq<Event>, booked: seq<Event>,
                                             blocked: Option<Calendar>, past: History, render: Violation -> string)
    returns (p: nat)
    requires Telling(render)
    ensures OneMore(Schedule(selected, booked), Schedule(selected + [candidate], booked), Dated(candidate, false), p)
    ensures var dated := Schedule(selected + [candidate], booked);
            Fit(candidate, selected, booked, blocked, past, render) == [] <==>
              && |InWeekOf(dated, candidate.day)| <= 2
              && ApartFromNext(dated, p - 1) && ApartFromNext(dated, p)
              && NoNewCollisions(candidate, selected, blocked) && WorksFit(candidate, selected, past)
  {
    p := FitsExactly(candidate, selected, booked, blocked, past, render);
    var dated := Schedule(selected + [candidate], booked);
    TitlesCountTheWeek(dated, candidate.day);
    CollisionsFit(candidate, selected, blocked);
    hide Fit, Schedule, OneMore, BlockedFits, NoNewCollisions, WorksFit, TitlesIn, InWeekOf;
    forall i ensures NeighbourClear(dated, i) <==> ApartFromNext(dated, i) {
      if 0 <= i < |dated| - 1 { PairsAreClose(dated[i], dated[i + 1]); }
    }
  }

  /** Every schedule holds each event and each booking as often as it was given, by day. */
  lemma {:induction false} ScheduleIsByDay(events: seq<Event>, booked: seq<Event>)
    ensures StableSort.Sorted(Schedule(events, booked), DayOf)
    ensures forall d :: multiset(Schedule(events, booked))[d] == if d.booked then multiset(booked)[d.event] else multiset(events)[d.event]
  {
    StableSort.ByKeySorts(AsDated(events, false) + AsDated(booked, true), DayOf);
    hide StableSort.ByKey, StableSort.Sorted;
    forall d
      ensures multiset(Schedule(events, booked))[d] == if d.booked then multiset(booked)[d.event] else multiset(events)[d.event]
    {
      DatedCounts(events, false, d);
      DatedCounts(booked, true, d);
      assert multiset(AsDated(events, false) + AsDated(booked, true)) == multiset(AsDated(events, false)) + multiset(AsDated(booked, true));
    }
  }

  lemma {:induction false} DatedCounts(events: seq<Event>, booked: bool, d: Dated)
    ensures multiset(AsDated(events, booked))[d] == if d.booked == booked then multiset(events)[d.event] else 0
  {
    if events != [] {
      var earlier := events[..|events| - 1];
      DatedCounts(earlier, booked, d);
      assert events == earlier + [events[|events| - 1]];
    }
  }
}
