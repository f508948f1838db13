/** Deciding what lands on every member's phone, and when: `notifications.py`. */
module Notifications {
  import opened Wrappers
  import opened Texts
  import opened ChangeLog

  const SECOND: Time := 1_000_000
  const COALESCE_WINDOW: Time := 120 * SECOND
  const MERGE_MARGIN: Time := 15 * SECOND

  type NoteTable = map<Id, NoteRow>

  /** Whitespace-only text and no text are the same news: none. */
  function Normalized(text: Option<string>): Option<string> {
    match text
    case None => None
    case Some(s) => if Strip(s) == "" then None else Some(Strip(s))
  }

  function Column(fields: EventFields, f: EventField): Option<string> {
    if f in fields then Some(fields[f]) else None
  }

  /** The change a watched field announces; every other field stays silent. */
  const WATCHED: map<EventField, Change> := map[VenueAddress := Venue, Notes := Program]

  function ChangesSince(before: EventFields, after: EventFields): set<Change> {
    set f | f in WATCHED && Normalized(Column(before, f)) != Normalized(Column(after, f)) :: WATCHED[f]
  }

  function KindRank(k: NoteKind): nat {
    match k case EventChanged => 0 case Manual => 1 case EventCreated => 2
  }

  function StrongerKind(a: NoteKind, b: NoteKind): NoteKind {
    if KindRank(a) >= KindRank(b) then a else b
  }

  /** The event's live notifications with `margin` to spare before they are due. */
  function DueAfter(notes: NoteTable, event: Id, moment: Time): set<Id> {
    set n | n in notes && notes[n].event == event && notes[n].deletedAt.None? && notes[n].deliverAfter > moment
  }

  function Mergeable(notes: NoteTable, event: Id, now: Time): set<Id> {
    DueAfter(notes, event, now + MERGE_MARGIN)
  }

  /** `ORDER BY deliver_after DESC LIMIT 1`. */
  function LatestDue(notes: NoteTable, ids: seq<Id>): (r: Option<Id>)
    requires forall i :: 0 <= i < |ids| ==> ids[i] in notes
    ensures r.None? <==> ids == []
    ensures r.Some? ==> r.value in ids && forall i :: 0 <= i < |ids| ==> notes[ids[i]].deliverAfter <= notes[r.value].deliverAfter
  {
    if ids == [] then None
    else
      match LatestDue(notes, ids[1..])
      case None => Some(ids[0])
      case Some(later) => if notes[later].deliverAfter <= notes[ids[0]].deliverAfter then Some(ids[0]) else Some(later)
  }

  function Pending(notes: NoteTable, event: Id, now: Time): (r: Option<Id>)
    ensures r.None? <==> Mergeable(notes, event, now) == {}
    ensures r.Some? ==> r.value in Mergeable(notes, event, now)
    ensures r.Some? ==> forall n :: n in Mergeable(notes, event, now) ==> notes[n].deliverAfter <= notes[r.value].deliverAfter
  {
    var ids := Ascending(Mergeable(notes, event, now));
    assert forall i :: 0 <= i < |ids| ==> ids[i] in ids;
    LatestDue(notes, ids)
  }

  function Merged(row: NoteRow, kind: NoteKind, changes: set<Change>, message: Option<string>): NoteRow {
    row.(kind := StrongerKind(row.kind, kind),
         changes := row.changes + changes,
         message := if Normalized(message).Some? then Normalized(message) else row.message,
         version := row.version + 1)
  }

  function NewNote(ws: Id, event: Id, actor: Id, kind: NoteKind, changes: set<Change>, message: Option<string>,
                   now: Time): NoteRow {
    NoteRow(ws, event, kind, changes, Normalized(message),
            if kind == Manual then now else now + COALESCE_WINDOW, actor, 1, None)
  }

  datatype Announcement = Gone | Announced(db: Db, note: Id)

  /** `announce`: merge into the event's pending notification or add one. `now` is
      the clock read under the event's row lock. */
  function AnnounceSpec(db: Db, event: Id, actor: Id, kind: NoteKind, changes: set<Change>, message: Option<string>,
                        now: Time, hint: nat): Announcement
    requires event in db.events
  {
    if db.events[event].deletedAt.Some? then Gone
    else
      match Pending(db.notes, event, now)
      case Some(n) =>
        Announced(SaveNote(db, n, Merged(db.notes[n], kind, changes, message), Upsert, actor), n)
      case None =>
        var n := NewId(db.notes.Keys, hint);
        Announced(SaveNote(db, n, NewNote(db.events[event].ws, event, actor, kind, changes, message, now), Upsert, actor), n)
  }

  function Withdrawn(row: NoteRow, now: Time): NoteRow {
    row.(deletedAt := Some(now), version := row.version + 1)
  }

  function WithdrawAll(db: Db, ids: seq<Id>, now: Time, actor: Id): (db': Db)
    requires forall n :: n in ids ==> n in db.notes
    ensures db'.notes.Keys == db.notes.Keys
    decreases |ids|
  {
    if ids == [] then db
    else WithdrawAll(SaveNote(db, ids[0], Withdrawn(db.notes[ids[0]], now), Delete, actor), ids[1..], now, actor)
  }

  /** `withdraw_pending`: soft-delete what a deleted event still had coming. */
  function WithdrawSpec(db: Db, event: Id, actor: Id, now: Time): Db {
    WithdrawAll(db, Ascending(DueAfter(db.notes, event, now)), now, actor)
  }

  // --- The log ------------------------------------------------------------------

  lemma AnnounceKeepsLog(db: Db, event: Id, actor: Id, kind: NoteKind, changes: set<Change>, message: Option<string>,
                         now: Time, hint: nat)
    requires LogTells(db) && event in db.events
    ensures var a := AnnounceSpec(db, event, actor, kind, changes, message, now, hint);
            a.Announced? ==> LogTells(a.db)
  {
    if db.events[event].deletedAt.None? {
      match Pending(db.notes, event, now)
      case Some(n) =>
        SaveNoteKeepsLog(db, n, Merged(db.notes[n], kind, changes, message), Upsert, actor);
      case None =>
        SaveNoteKeepsLog(db, NewId(db.notes.Keys, hint),
                         NewNote(db.events[event].ws, event, actor, kind, changes, message, now), Upsert, actor);
    }
  }

  lemma {:induction false} WithdrawAllWithdraws(db: Db, ids: seq<Id>, now: Time, actor: Id)
    requires forall n :: n in ids ==> n in db.notes
    requires forall i, j :: 0 <= i < j < |ids| ==> ids[i] != ids[j]
    ensures var db' := WithdrawAll(db, ids, now, actor);
            && db'.events == db.events && db'.items == db.items && db'.applied == db.applied
            && forall n :: n in db.notes ==> db'.notes[n] == if n in ids then Withdrawn(db.notes[n], now) else db.notes[n]
    decreases |ids|
  {
    if ids != [] {
      WithdrawAllWithdraws(SaveNote(db, ids[0], Withdrawn(db.notes[ids[0]], now), Delete, actor), ids[1..], now, actor);
    }
  }

  lemma {:induction false} WithdrawAllKeepsLog(db: Db, ids: seq<Id>, now: Time, actor: Id)
    requires LogTells(db)
    requires forall n :: n in ids ==> n in db.notes && db.notes[n].deletedAt.None?
    requires forall i, j :: 0 <= i < j < |ids| ==> ids[i] != ids[j]
    ensures LogTells(WithdrawAll(db, ids, now, actor))
    decreases |ids|
  {
    if ids != [] {
      var row := Withdrawn(db.notes[ids[0]], now);
      SaveNoteKeepsLog(db, ids[0], row, Delete, actor);
      WithdrawAllKeepsLog(SaveNote(db, ids[0], row, Delete, actor), ids[1..], now, actor);
    }
  }

  /** Withdrawing soft-deletes exactly the event's live notifications still to come. */
  lemma WithdrawTakesThePending(db: Db, event: Id, actor: Id, now: Time)
    ensures var db' := WithdrawSpec(db, event, actor, now);
            && db'.events == db.events && db'.items == db.items && db'.applied == db.applied
            && db'.notes.Keys == db.notes.Keys
            && forall n :: n in db.notes ==>
                 db'.notes[n] == if n in DueAfter(db.notes, event, now) then Withdrawn(db.notes[n], now) else db.notes[n]
    ensures LogTells(db) ==> LogTells(WithdrawSpec(db, event, actor, now))
  {
    var ids := Ascending(DueAfter(db.notes, event, now));
    WithdrawAllWithdraws(db, ids, now, actor);
    if LogTells(db) { WithdrawAllKeepsLog(db, ids, now, actor); }
  }

  // --- Spacing ------------------------------------------------------------------

  /** The notification was created to wait out the coalescing window. */
  ghost predicate Windowed(log: seq<Entry>, n: Id) {
    var h := History(log, NoteKey(n));
    h != [] && h[0].payload.NoteSnap? && h[0].payload.note.kind != Manual
  }

  ghost predicate SoundNote(db: Db, n: Id, clock: Time)
    requires n in db.notes
  {
    var row := db.notes[n];
    && row.event in db.events
    && row.ws == db.events[row.event].ws
    && row.deliverAfter <= clock + COALESCE_WINDOW
    && (!Windowed(db.log, n) ==> row.deliverAfter <= clock)
    && (row.deletedAt.Some? ==> db.events[row.event].deletedAt.Some?)
    && (row.deletedAt.None? && db.events[row.event].deletedAt.Some? ==> row.deliverAfter <= clock)
  }

  ghost predicate FarApart(db: Db, a: Id, b: Id)
    requires a in db.notes && b in db.notes
  {
    && db.notes[a].event == db.notes[b].event && a != b && Windowed(db.log, a) && Windowed(db.log, b)
    ==> || db.notes[a].deliverAfter + (COALESCE_WINDOW - MERGE_MARGIN) <= db.notes[b].deliverAfter
        || db.notes[b].deliverAfter + (COALESCE_WINDOW - MERGE_MARGIN) <= db.notes[a].deliverAfter
  }

  /** `clock` is the latest reading any writer took. */
  ghost predicate Spaced(db: Db, clock: Time) {
    && (forall n :: n in db.notes ==> SoundNote(db, n, clock))
    && (forall a, b :: a in db.notes && b in db.notes ==> FarApart(db, a, b))
  }

  lemma SpacedLater(db: Db, clock: Time, later: Time)
    requires Spaced(db, clock) && clock <= later
    ensures Spaced(db, later)
  {
  }

  /** From the clock on, at most one notification of an event can be merged into, so
      which one the query picks is not in question. */
  lemma AtMostOneMergeable(db: Db, clock: Time, event: Id, now: Time, a: Id, b: Id)
    requires Spaced(db, clock) && clock <= now
    requires a in Mergeable(db.notes, event, now) && b in Mergeable(db.notes, event, now)
    ensures a == b
  {
  }

  /** After an event is deleted no live notification of it is still to come. */
  lemma NothingComesAfterDeletion(db: Db, clock: Time, event: Id, n: Id)
    requires Spaced(db, clock) && event in db.events && db.events[event].deletedAt.Some?
    requires n in db.notes && db.notes[n].event == event && db.notes[n].deletedAt.None?
    ensures db.notes[n].deliverAfter <= clock
  {
  }

  lemma {:induction false} FirstEntryStays(log: seq<Entry>, k: Key, s: Snapshot, op: ChangeOp, actor: Id, n: Id)
    requires History(log, NoteKey(n)) != []
    ensures Windowed(Recorded(log, k, s, op, actor), n) <==> Windowed(log, n)
  {
  }

  lemma NoteHasHistory(db: Db, n: Id)
    requires LogTells(db) && n in db.notes
    ensures History(db.log, NoteKey(n)) != []
  {
  }

  // A write that leaves due times, owners and liveness of notifications alone.
  lemma WriteKeepsSpacing(db: Db, db': Db, clock: Time, k: Key, s: Snapshot, op: ChangeOp, actor: Id)
    requires LogTells(db) && Spaced(db, clock)
    requires db'.log == Recorded(db.log, k, s, op, actor)
    requires db'.notes.Keys == db.notes.Keys
    requires forall n :: n in db.notes ==>
      && db'.notes[n].event == db.notes[n].event && db'.notes[n].ws == db.notes[n].ws
      && db'.notes[n].deliverAfter == db.notes[n].deliverAfter && db'.notes[n].deletedAt == db.notes[n].deletedAt
    requires forall e :: e in db.events ==>
      && e in db'.events && db'.events[e].ws == db.events[e].ws && db'.events[e].deletedAt == db.events[e].deletedAt
    ensures Spaced(db', clock)
  {
    forall n | n in db.notes ensures Windowed(db'.log, n) <==> Windowed(db.log, n) {
      NoteHasHistory(db, n);
      FirstEntryStays(db.log, k, s, op, actor, n);
    }
    forall n | n in db'.notes ensures SoundNote(db', n, clock) {
      assert SoundNote(db, n, clock);
    }
    forall a, b | a in db'.notes && b in db'.notes ensures FarApart(db', a, b) {
      assert FarApart(db, a, b);
    }
  }

  lemma NewNoteKeepsSpacing(db: Db, clock: Time, n: Id, row: NoteRow, actor: Id, now: Time)
    requires LogTells(db) && Spaced(db, clock) && clock <= now
    requires n !in db.notes && row.event in db.events && row.ws == db.events[row.event].ws
    requires row.version == 1 && row.deletedAt.None? && db.events[row.event].deletedAt.None?
    requires row.deliverAfter == if row.kind == Manual then now else now + COALESCE_WINDOW
    requires Mergeable(db.notes, row.event, now) == {}
    ensures Spaced(SaveNote(db, n, row, Upsert, actor), now)
  {
    var db' := SaveNote(db, n, row, Upsert, actor);
    assert Chronicle(History(db.log, NoteKey(n)), Lookup(db, NoteKey(n)));
    assert Windowed(db'.log, n) <==> row.kind != Manual;
    forall m | m in db.notes ensures Windowed(db'.log, m) <==> Windowed(db.log, m) {
      NoteHasHistory(db, m);
      FirstEntryStays(db.log, NoteKey(n), NoteSnap(row), Upsert, actor, m);
    }
    forall m | m in db'.notes ensures SoundNote(db', m, now) {
      if m != n { assert SoundNote(db, m, clock); }
    }
    forall m | m in db.notes && db.notes[m].event == row.event ensures db.notes[m].deliverAfter <= now + MERGE_MARGIN {
      assert SoundNote(db, m, clock);
      assert m !in Mergeable(db.notes, row.event, now);
    }
    forall a, b | a in db'.notes && b in db'.notes ensures FarApart(db', a, b) {
      if a != n && b != n { assert FarApart(db, a, b); }
    }
  }

  lemma MergeKeepsSpacing(db: Db, clock: Time, n: Id, row: NoteRow, actor: Id)
    requires LogTells(db) && Spaced(db, clock) && n in db.notes
    requires row.event == db.notes[n].event && row.ws == db.notes[n].ws
    requires row.deliverAfter == db.notes[n].deliverAfter && row.deletedAt == db.notes[n].deletedAt
    ensures Spaced(SaveNote(db, n, row, Upsert, actor), clock)
  {
    WriteKeepsSpacing(db, SaveNote(db, n, row, Upsert, actor), clock, NoteKey(n), NoteSnap(row), Upsert, actor);
  }

  /** Two notifications of one event that wait out the window are due at least
      COALESCE_WINDOW - MERGE_MARGIN apart, whatever is announced next. */
  lemma AnnounceKeepsSpacing(db: Db, clock: Time, event: Id, actor: Id, kind: NoteKind, changes: set<Change>,
                             message: Option<string>, now: Time, hint: nat)
    requires LogTells(db) && Spaced(db, clock) && clock <= now && event in db.events
    ensures var a := AnnounceSpec(db, event, actor, kind, changes, message, now, hint);
            a.Announced? ==> Spaced(a.db, now)
  {
    SpacedLater(db, clock, now);
    if db.events[event].deletedAt.None? {
      match Pending(db.notes, event, now)
      case Some(n) =>
        MergeKeepsSpacing(db, now, n, Merged(db.notes[n], kind, changes, message), actor);
      case None =>
        NewNoteKeepsSpacing(db, clock, NewId(db.notes.Keys, hint),
                            NewNote(db.events[event].ws, event, actor, kind, changes, message, now), actor, now);
    }
  }

  // While withdrawing, the event is already deleted but some notifications of it may
  // still be to come: those in `ids`.
  ghost predicate SpacedExcept(db: Db, clock: Time, ids: seq<Id>) {
    && (forall n :: n in db.notes && n !in ids ==> SoundNote(db, n, clock))
    && (forall n :: n in ids ==> n in db.notes && db.notes[n].deletedAt.None?
                                 && db.notes[n].event in db.events && db.events[db.notes[n].event].deletedAt.Some?
                                 && db.notes[n].ws == db.events[db.notes[n].event].ws
                                 && db.notes[n].deliverAfter <= clock + COALESCE_WINDOW
                                 && (!Windowed(db.log, n) ==> db.notes[n].deliverAfter <= clock))
    && (forall a, b :: a in db.notes && b in db.notes ==> FarApart(db, a, b))
  }

  lemma {:induction false} WithdrawOneKeepsSpacing(db: Db, clock: Time, ids: seq<Id>, actor: Id, now: Time)
    requires LogTells(db) && SpacedExcept(db, clock, ids) && ids != [] && ids[0] !in ids[1..]
    ensures SpacedExcept(SaveNote(db, ids[0], Withdrawn(db.notes[ids[0]], now), Delete, actor), clock, ids[1..])
  {
    hide LogTells, History;
    var row := Withdrawn(db.notes[ids[0]], now);
    var db' := SaveNote(db, ids[0], row, Delete, actor);
    forall n | n in db.notes ensures Windowed(db'.log, n) <==> Windowed(db.log, n) {
      NoteHasHistory(db, n);
      FirstEntryStays(db.log, NoteKey(ids[0]), NoteSnap(row), Delete, actor, n);
    }
    assert ids == [ids[0]] + ids[1..];
    forall n | n in db'.notes && n !in ids[1..] ensures SoundNote(db', n, clock) {
      if n != ids[0] { assert SoundNote(db, n, clock); }
    }
    forall a, b | a in db'.notes && b in db'.notes ensures FarApart(db', a, b) {
      assert FarApart(db, a, b);
    }
  }

  lemma {:induction false} WithdrawKeepsSpacing(db: Db, clock: Time, ids: seq<Id>, actor: Id, now: Time)
    requires LogTells(db) && SpacedExcept(db, clock, ids)
    requires forall i, j :: 0 <= i < j < |ids| ==> ids[i] != ids[j]
    ensures Spaced(WithdrawAll(db, ids, now, actor), clock)
    decreases |ids|
  {
    if ids != [] {
      var row := Withdrawn(db.notes[ids[0]], now);
      SaveNoteKeepsLog(db, ids[0], row, Delete, actor);
      WithdrawOneKeepsSpacing(db, clock, ids, actor, now);
      WithdrawKeepsSpacing(SaveNote(db, ids[0], row, Delete, actor), clock, ids[1..], actor, now);
    }
  }
}
