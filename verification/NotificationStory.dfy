/** What a notification says, over its whole history: every version of it is told by the
    announcements that went into it, and those by what the requests did to the events. */
module NotificationStory {
  import opened Wrappers
  import opened ChangeLog
  import opened Texts
  import opened Notifications
  import opened Watchlist
  import opened Requests
  import opened Server
  import opened Answers

  /** One announcement, as it was made. */
  datatype Said = Said(event: Id, kind: NoteKind, changes: set<Change>, message: Option<string>, author: Id, at: Time)

  // --- What a list of announcements comes to -----------------------------------------------

  function AllChanges(saids: seq<Said>): set<Change> {
    set i, c | 0 <= i < |saids| && c in saids[i].changes :: c
  }

  /** A creation outranks a member's word, and that an automatic change. */
  ghost predicate Strongest(kind: NoteKind, saids: seq<Said>) {
    && (kind == EventCreated <==> exists i :: 0 <= i < |saids| && saids[i].kind == EventCreated)
    && (kind == EventChanged <==> forall i :: 0 <= i < |saids| ==> saids[i].kind == EventChanged)
  }

  ghost predicate SpokenLast(t: string, saids: seq<Said>, i: int) {
    && 0 <= i < |saids| && saids[i].message.Some? && Trims(t, saids[i].message.value)
    && forall j :: i < j < |saids| ==> Blank(saids[j].message)
  }

  /** The last message that is not blank, without the blanks around it. */
  ghost predicate LastWord(message: Option<string>, saids: seq<Said>) {
    match message
    case None => forall i :: 0 <= i < |saids| ==> Blank(saids[i].message)
    case Some(t) => exists i :: SpokenLast(t, saids, i)
  }

  /** The notification says what was announced into it: it is due two minutes after the
      first announcement, or at once if a member asked; all others came in time. */
  ghost predicate Tells(row: NoteRow, saids: seq<Said>) {
    && saids != [] && row.version == |saids| && row.deletedAt.None?
    && (forall i :: 0 <= i < |saids| ==> saids[i].event == row.event)
    && row.changes == AllChanges(saids) && Strongest(row.kind, saids) && LastWord(row.message, saids)
    && row.createdBy == saids[0].author
    && row.deliverAfter == saids[0].at + (if saids[0].kind == Manual then 0 else 120_000_000)
    && (forall i :: 0 < i < |saids| ==> saids[i].at + 15_000_000 < row.deliverAfter)
  }

  /** The entries of a notification: one for each announcement that went into it, and at
      most a withdrawal after them. */
  ghost predicate Storied(db: Db, n: Id, saids: seq<Said>) {
    var h := History(db.log, NoteKey(n));
    && n in db.notes && 0 < |saids| <= |h| <= |saids| + 1 && h[|h| - 1].payload == NoteSnap(db.notes[n])
    && (forall i :: 0 <= i < |saids| ==> VersionTold(h[i], saids, i))
    && (if |h| == |saids| then db.notes[n].deletedAt.None? else WithdrewLast(h, |saids|))
  }

  ghost predicate VersionTold(e: Entry, saids: seq<Said>, i: nat)
    requires i < |saids|
  {
    e.op == Upsert && e.payload.NoteSnap? && Tells(e.payload.note, saids[..i + 1])
  }

  predicate WithdrewLast(h: seq<Entry>, i: nat) {
    && 0 < i < |h| && h[i].op == Delete && h[i].payload.NoteSnap? && h[i - 1].payload.NoteSnap?
    && h[i].payload.note.deletedAt.Some?
    && h[i].payload.note == h[i - 1].payload.note.(deletedAt := h[i].payload.note.deletedAt, version := i + 1)
  }

  // --- One write ------------------------------------------------------------------------------

  ghost predicate Untouched(db: Db, db': Db, n: Id) {
    && (n in db'.notes <==> n in db.notes) && (n in db.notes ==> db'.notes[n] == db.notes[n])
    && History(db'.log, NoteKey(n)) == History(db.log, NoteKey(n))
  }

  ghost predicate TakenBack(db: Db, db': Db, n: Id) {
    && n in db.notes && n in db'.notes && db.notes[n].deletedAt.None? && db'.notes[n].deletedAt.Some?
    && db'.notes[n] == db.notes[n].(deletedAt := db'.notes[n].deletedAt, version := db.notes[n].version + 1)
    && OneMoreEntry(db, db', n, Delete)
  }

  ghost predicate OneMoreEntry(db: Db, db': Db, n: Id, op: ChangeOp)
    requires n in db'.notes
  {
    var h, h' := History(db.log, NoteKey(n)), History(db'.log, NoteKey(n));
    |h'| == |h| + 1 && h'[..|h|] == h && h'[|h|].op == op && h'[|h|].payload == NoteSnap(db'.notes[n])
  }

  /** The announcement went into the notification. */
  ghost predicate Heard(db: Db, db': Db, n: Id, s: Said) {
    && n in db'.notes && OneMoreEntry(db, db', n, Upsert) && db'.notes[n].event == s.event
    && if n in db.notes then TookUp(db.notes[n], db'.notes[n], s) else Opens(db'.notes[n], s) && NonePending(db, s)
  }

  /** No live notification of the event has more than fifteen seconds left. */
  ghost predicate NonePending(db: Db, s: Said) {
    forall n :: n in db.notes && db.notes[n].event == s.event && db.notes[n].deletedAt.None? ==>
                  db.notes[n].deliverAfter <= s.at + 15_000_000
  }

  ghost predicate Opens(row: NoteRow, s: Said) {
    && row.version == 1 && row.deletedAt.None? && row.changes == s.changes && row.kind == s.kind
    && (if Blank(s.message) then row.message.None? else row.message.Some? && Trims(row.message.value, s.message.value))
    && row.createdBy == s.author && row.deliverAfter == s.at + (if s.kind == Manual then 0 else 120_000_000)
  }

  ghost predicate TookUp(was: NoteRow, row: NoteRow, s: Said) {
    && was.deletedAt.None? && s.at + 15_000_000 < was.deliverAfter
    && row == was.(kind := row.kind, changes := was.changes + s.changes, message := row.message, version := was.version + 1)
    && (row.kind == EventCreated <==> was.kind == EventCreated || s.kind == EventCreated)
    && (row.kind == EventChanged <==> was.kind == EventChanged && s.kind == EventChanged)
    && (if Blank(s.message) then row.message == was.message
        else row.message.Some? && Trims(row.message.value, s.message.value))
  }

  /** What a request did to the notifications: it took some back, or announced. */
  ghost predicate Notified(db: Db, db': Db, s: Option<Said>) {
    match s
    case None => forall n :: Untouched(db, db', n) || TakenBack(db, db', n)
    case Some(said) =>
      && |db'.log| > 0 && db'.log[|db'.log| - 1].key.NoteKey?
      && Heard(db, db', db'.log[|db'.log| - 1].key.id, said)
      && forall n :: n != db'.log[|db'.log| - 1].key.id ==> Untouched(db, db', n)
  }

  lemma NormalizedTrims(message: Option<string>)
    ensures Normalized(message).None? <==> Blank(message)
    ensures Normalized(message).Some? ==> message.Some? && Trims(Normalized(message).value, message.value)
  {
    if message.Some? { StripTrims(message.value); }
  }

  lemma SavingNote(db: Db, n: Id, row: NoteRow, op: ChangeOp, actor: Id)
    ensures var db' := SaveNote(db, n, row, op, actor);
            && OneMoreEntry(db, db', n, op) && db'.log[|db'.log| - 1].key == NoteKey(n) && db'.events == db.events
            && forall m :: m != n ==> Untouched(db, db', m)
  {
    var db' := SaveNote(db, n, row, op, actor);
    assert db'.log[..|db'.log| - 1] == db.log;
  }

  lemma MergeTakesUp(row: NoteRow, kind: NoteKind, changes: set<Change>, message: Option<string>, s: Said)
    requires s.kind == kind && s.changes == changes && s.message == message
    requires row.deletedAt.None? && s.at + MERGE_MARGIN < row.deliverAfter
    ensures TookUp(row, Merged(row, kind, changes, message), s) && Merged(row, kind, changes, message).event == row.event
  {
    NormalizedTrims(message);
    hide Normalized, Trims, Blank;
  }

  lemma NewNoteOpens(ws: Id, event: Id, actor: Id, kind: NoteKind, changes: set<Change>, message: Option<string>, now: Time)
    ensures var row := NewNote(ws, event, actor, kind, changes, message, now);
            Opens(row, Said(event, kind, changes, message, actor, now)) && row.event == event
  {
    NormalizedTrims(message);
    hide Normalized, Trims, Blank;
  }

  /** Into the event's live notification that has more than fifteen seconds left, if there
      is one; else a new one. */
  lemma AnnouncementIsHeard(db: Db, event: Id, actor: Id, kind: NoteKind, changes: set<Change>, message: Option<string>,
                            now: Time, hint: nat)
    requires event in db.events && db.events[event].deletedAt.None?
    ensures var a := AnnounceSpec(db, event, actor, kind, changes, message, now, hint);
            && a.Announced? && Notified(db, a.db, Some(Said(event, kind, changes, message, actor, now)))
            && a.db.events == db.events && a.db.log[|a.db.log| - 1].key == NoteKey(a.note)
  {
    var s := Said(event, kind, changes, message, actor, now);
    var pending := Pending(db.notes, event, now);
    hide Pending, Merged, NewNote, TookUp, Opens, SaveNote, Untouched, OneMoreEntry;
    match pending {
      case Some(n) =>
        var row := Merged(db.notes[n], kind, changes, message);
        SavingNote(db, n, row, Upsert, actor);
        MergeTakesUp(db.notes[n], kind, changes, message, s);
        SavedRow(db, n, row, Upsert, actor);
      case None =>
        var n := NewId(db.notes.Keys, hint);
        var row := NewNote(db.events[event].ws, event, actor, kind, changes, message, now);
        SavingNote(db, n, row, Upsert, actor);
        NewNoteOpens(db.events[event].ws, event, actor, kind, changes, message, now);
        SavedRow(db, n, row, Upsert, actor);
        forall m | m in db.notes && db.notes[m].event == event && db.notes[m].deletedAt.None?
          ensures db.notes[m].deliverAfter <= now + 15_000_000
        {
          assert m !in Mergeable(db.notes, event, now);
        }
    }
  }

  lemma SavedRow(db: Db, n: Id, row: NoteRow, op: ChangeOp, actor: Id)
    ensures var db' := SaveNote(db, n, row, op, actor);
            n in db'.notes && db'.notes[n] == row && |db'.log| == |db.log| + 1
  {
  }

  // --- One request ------------------------------------------------------------------------------

  /** Which of the watched fields read differently now. */
  ghost function Differing(before: EventFields, after: EventFields): set<Change> {
    (if ReadsSame(before, after, VenueAddress) then {} else {Venue}) + (if ReadsSame(before, after, Notes) then {} else {Program})
  }

  /** The field reads the same, blanks around it aside; no text reads like blank text. */
  ghost predicate ReadsSame(before: EventFields, after: EventFields, f: EventField) {
    SameText(if f in before then Some(before[f]) else None, if f in after then Some(after[f]) else None)
  }

  lemma NormalizedAlike(a: Option<string>, b: Option<string>)
    ensures Normalized(a) == Normalized(b) <==> SameText(a, b)
  {
    NormalizedTrims(a);
    NormalizedTrims(b);
    hide Normalized, Trims, Blank;
    if !Blank(a) && !Blank(b) {
      if SameText(a, b) {
        var t :| Trims(t, a.value) && Trims(t, b.value);
        TrimsOnce(t, Normalized(a).value, a.value);
        TrimsOnce(t, Normalized(b).value, b.value);
      }
    }
  }

  /** `Venue` is announced exactly when the address reads differently, `Program` exactly when
      the notes do. */
  lemma ChangesAreDiffering(before: EventFields, after: EventFields)
    ensures ChangesSince(before, after) == Differing(before, after)
  {
    NormalizedAlike(Column(before, VenueAddress), Column(after, VenueAddress));
    NormalizedAlike(Column(before, Notes), Column(after, Notes));
    hide Normalized, SameText;
    forall c ensures c in ChangesSince(before, after) <==> c in Differing(before, after) {
      assert WATCHED[VenueAddress] == Venue && WATCHED[Notes] == Program;
    }
  }

  ghost predicate IsNew(db: Db, db': Db, s: Said, user: Id, clock: Time) {
    s.event !in db.events && s.event in db'.events && s == Said(s.event, EventCreated, {}, None, user, clock)
  }

  ghost predicate IsEdited(db: Db, db': Db, s: Said, user: Id, clock: Time) {
    && s.event in db.events && s.event in db'.events && db'.events[s.event] != db.events[s.event]
    && db.events[s.event].deletedAt.None? && db'.events[s.event].deletedAt.None? && s.changes != {}
    && s == Said(s.event, EventChanged, Differing(db.events[s.event].fields, db'.events[s.event].fields), None, user, clock)
  }

  /** What a request comes to: what it announces can be read off the events before and after
      it, or was asked for; nothing else is announced, and only that. */
  ghost predicate ComesTo(db: Db, db': Db, user: Id, clock: Time, asked: Option<Said>, t: Option<Said>) {
    && Notified(db, db', t)
    && forall s :: (IsNew(db, db', s, user, clock) || IsEdited(db, db', s, user, clock) || asked == Some(s)) <==> t == Some(s)
  }

  lemma UnnotedThen(db: Db, db1: Db, db': Db, t: Option<Said>)
    requires (forall n :: Untouched(db, db1, n)) && Notified(db1, db', t)
    ensures Notified(db, db', t)
  {
    hide TookUp, Opens, History;
    forall n ensures Untouched(db1, db', n) ==> Untouched(db, db', n)
      ensures TakenBack(db1, db', n) ==> TakenBack(db, db', n)
    {
      assert Untouched(db, db1, n);
    }
    if t.Some? {
      assert Untouched(db, db1, db'.log[|db'.log| - 1].key.id);
      forall n | n in db.notes ensures n in db1.notes && db1.notes[n] == db.notes[n] { assert Untouched(db, db1, n); }
    }
  }

  lemma {:induction false} EventWritesNoNote(db: Db, id: Id, row: EventRow, op: ChangeOp, actor: Id, n: Id)
    ensures Untouched(db, SaveEvent(db, id, row, op, actor), n)
  {
    var db' := SaveEvent(db, id, row, op, actor);
    assert db'.log[..|db'.log| - 1] == db.log;
  }

  lemma {:induction false} ItemWritesNoNote(db: Db, id: Id, row: ItemRow, op: ChangeOp, actor: Id, n: Id)
    ensures Untouched(db, SaveItem(db, id, row, op, actor), n)
  {
    var db' := SaveItem(db, id, row, op, actor);
    assert db'.log[..|db'.log| - 1] == db.log;
  }

  lemma CreationComesTo(db: Db, ws: Id, user: Id, fields: EventFields, id: Id, env: Env) returns (t: Option<Said>)
    requires id !in db.events
    ensures ComesTo(db, CreateEvent(db, ws, user, fields, id, env), user, env.clock, None, t)
  {
    var row := EventRow(ws, fields, user, 1, None);
    var logged, db' := SaveEvent(db, id, row, Upsert, user), CreateEvent(db, ws, user, fields, id, env);
    t := Some(Said(id, EventCreated, {}, None, user, env.clock));
    forall n ensures Untouched(db, logged, n) { EventWritesNoNote(db, id, row, Upsert, user, n); }
    AnnouncementIsHeard(logged, id, user, EventCreated, {}, None, env.clock, env.hint);
    hide Notified, AnnounceSpec, Untouched, Differing;
    UnnotedThen(db, logged, db', t);
    assert db'.events == db.events[id := row];
  }

  // One live event changed, and only it.
  lemma OneEventEdited(db: Db, db': Db, id: Id, row: EventRow, user: Id, clock: Time, t: Option<Said>)
    requires id in db.events && db'.events == db.events[id := row] && row != db.events[id]
    requires db.events[id].deletedAt.None? && row.deletedAt.None? && Notified(db, db', t)
    requires var changes := Differing(db.events[id].fields, row.fields);
             t == if changes == {} then None else Some(Said(id, EventChanged, changes, None, user, clock))
    ensures ComesTo(db, db', user, clock, None, t)
  {
    hide Differing, Notified;
  }

  lemma EditComesTo(db: Db, user: Id, id: Id, sent: Sent, env: Env) returns (t: Option<Said>)
    requires id in db.events && db.events[id].deletedAt.None?
    ensures ComesTo(db, UpdateEvent(db, user, id, sent, env), user, env.clock, None, t)
  {
    var row := Updated(db.events[id], sent);
    assert row.version != db.events[id].version && row.deletedAt.None?;
    var logged, db' := SaveEvent(db, id, row, Upsert, user), UpdateEvent(db, user, id, sent, env);
    var changes := ChangesSince(db.events[id].fields, row.fields);
    ChangesAreDiffering(db.events[id].fields, row.fields);
    forall n ensures Untouched(db, logged, n) { EventWritesNoNote(db, id, row, Upsert, user, n); }
    UpdatedEvents(db, user, id, sent, env);
    hide Differing, ChangesSince, Untouched, Updated, ComesTo;
    if changes == {} {
      t := None;
    } else {
      t := Some(Said(id, EventChanged, changes, None, user, env.clock));
      AnnouncementIsHeard(logged, id, user, EventChanged, changes, None, env.clock, env.hint);
      hide Notified, AnnounceSpec, SaveEvent;
      UnnotedThen(db, logged, db', t);
    }
    OneEventEdited(db, db', id, row, user, env.clock, t);
  }

  lemma UpdatedEvents(db: Db, user: Id, id: Id, sent: Sent, env: Env)
    requires id in db.events && db.events[id].deletedAt.None?
    ensures UpdateEvent(db, user, id, sent, env).events == db.events[id := Updated(db.events[id], sent)]
  {
    hide Patched, ChangesSince, Pending, Merged, NewNote;
  }

  // The first is taken back now and left alone by the others' turns.
  lemma TakenThenUntouched(db: Db, db1: Db, db': Db, n: Id)
    ensures TakenBack(db, db1, n) && Untouched(db1, db', n) ==> TakenBack(db, db', n)
    ensures Untouched(db, db1, n) && TakenBack(db1, db', n) ==> TakenBack(db, db', n)
    ensures Untouched(db, db1, n) && Untouched(db1, db', n) ==> Untouched(db, db', n)
  {
    hide History;
  }

  lemma {:induction false} WithdrawingTakesBack(db: Db, ids: seq<Id>, now: Time, actor: Id)
    requires forall n :: n in ids ==> n in db.notes && db.notes[n].deletedAt.None?
    requires forall i, j :: 0 <= i < j < |ids| ==> ids[i] != ids[j]
    ensures var db' := WithdrawAll(db, ids, now, actor);
            db'.events == db.events && forall n :: if n in ids then TakenBack(db, db', n) else Untouched(db, db', n)
    decreases |ids|
  {
    if ids != [] {
      var row := Withdrawn(db.notes[ids[0]], now);
      var db1, db' := SaveNote(db, ids[0], row, Delete, actor), WithdrawAll(db, ids, now, actor);
      SavingNote(db, ids[0], row, Delete, actor);
      SavedRow(db, ids[0], row, Delete, actor);
      assert TakenBack(db, db1, ids[0]);
      forall n | n in ids[1..] ensures n in db1.notes && db1.notes[n].deletedAt.None? {
        assert Untouched(db, db1, n);
      }
      hide SaveNote, TakenBack, Untouched, OneMoreEntry;
      WithdrawingTakesBack(db1, ids[1..], now, actor);
      forall n ensures if n in ids then TakenBack(db, db', n) else Untouched(db, db', n) {
        assert n in ids <==> n == ids[0] || n in ids[1..];
        TakenThenUntouched(db, db1, db', n);
      }
    }
  }

  lemma DeletionComesTo(db: Db, user: Id, id: Id, env: Env)
    requires id in db.events
    ensures ComesTo(db, DeleteEvent(db, user, id, env), user, env.clock, None, None)
  {
    var row := Retired(db.events[id], env.utc);
    var logged, db' := SaveEvent(db, id, row, Delete, user), DeleteEvent(db, user, id, env);
    forall n ensures Untouched(db, logged, n) { EventWritesNoNote(db, id, row, Delete, user, n); }
    WithdrawingTakesBack(logged, Ascending(DueAfter(logged.notes, id, env.clock)), env.clock, user);
    hide Untouched, TakenBack;
    assert Notified(logged, db', None);
    UnnotedThen(db, logged, db', None);
    assert db'.events == db.events[id := row];
  }

  lemma AskingComesTo(db: Db, user: Id, id: Id, message: Option<string>, env: Env) returns (t: Option<Said>)
    requires id in db.events && db.events[id].deletedAt.None?
    ensures t == Some(Said(id, Manual, {}, message, user, env.clock))
    ensures var a := AnnounceSpec(db, id, user, Manual, {}, message, env.clock, env.hint);
            a.Announced? && ComesTo(db, a.db, user, env.clock, t, t)
  {
    t := Some(Said(id, Manual, {}, message, user, env.clock));
    AnnouncementIsHeard(db, id, user, Manual, {}, message, env.clock, env.hint);
    hide Notified, AnnounceSpec;
  }

  lemma NothingComesTo(db: Db, db': Db, user: Id, clock: Time)
    requires db'.events == db.events && forall n :: Untouched(db, db', n)
    ensures ComesTo(db, db', user, clock, None, None)
  {
  }

  lemma {:induction false} BuryingWritesNoNote(db: Db, ids: seq<Id>, now: Time, user: Id)
    requires forall i :: i in ids ==> i in db.items
    ensures var db' := BuryAll(db, ids, now, user); db'.events == db.events && forall n :: Untouched(db, db', n)
    decreases |ids|
  {
    if ids != [] {
      var row := Buried(db.items[ids[0]], now);
      forall n ensures Untouched(db, SaveItem(db, ids[0], row, Delete, user), n) {
        ItemWritesNoNote(db, ids[0], row, Delete, user, n);
      }
      var db1, db' := SaveItem(db, ids[0], row, Delete, user), BuryAll(db, ids, now, user);
      BuryingWritesNoNote(db1, ids[1..], now, user);
      forall n ensures Untouched(db, db', n) { assert Untouched(db, db1, n) && Untouched(db1, db', n); }
    }
  }

  lemma ItemWriteComesTo(db: Db, id: Id, row: ItemRow, user: Id, clock: Time)
    ensures ComesTo(db, SaveItem(db, id, row, Upsert, user), user, clock, None, None)
  {
    forall n ensures Untouched(db, SaveItem(db, id, row, Upsert, user), n) { ItemWritesNoNote(db, id, row, Upsert, user, n); }
    NothingComesTo(db, SaveItem(db, id, row, Upsert, user), user, clock);
  }

  lemma TreeDeletionComesTo(db: Db, ws: Id, id: Id, now: Time, user: Id, clock: Time)
    requires id in db.items
    ensures ComesTo(db, DeleteTree(db, ws, id, now, user), user, clock, None, None)
  {
    var children := Ascending(Doomed(db.items, ws, id));
    BuryingWritesNoNote(db, children, now, user);
    var db1 := BuryAll(db, children, now, user);
    var row := Buried(db1.items[id], now);
    hide BuryAll, History, Doomed;
    forall n ensures Untouched(db, SaveItem(db1, id, row, Delete, user), n) {
      ItemWritesNoNote(db1, id, row, Delete, user, n);
      assert Untouched(db, db1, n);
    }
    NothingComesTo(db, DeleteTree(db, ws, id, now, user), user, clock);
  }

  function MessageOf(op: Operation): Option<string> {
    if op.payload.Some? && op.payload.value.NoteBody? then op.payload.value.message else None
  }

  /** The announcement a member asked for, if that is what the request was and it was done. */
  function AskedFor(db: Db, r: Request): Option<Said> {
    var reply := Step(db, r).1;
    if r.RestNotify? && reply.Ok? then Some(Said(r.id, Manual, {}, r.message, r.user, r.env.clock))
    else if r.Apply? && r.op.opId !in db.applied && (r.op.entity, r.op.op) == ("notification", "create")
            && reply.result.status == Applied && r.op.entityId.Some? then
      Some(Said(r.op.entityId.value, Manual, {}, MessageOf(r.op), r.user, r.env.clock))
    else None
  }

  ghost predicate SaidBy(db: Db, r: Request, s: Said) {
    var db' := Step(db, r).0;
    IsNew(db, db', s, r.user, r.env.clock) || IsEdited(db, db', s, r.user, r.env.clock) || AskedFor(db, r) == Some(s)
  }

  /** What a request announces: a new event, what differs about an edited one, or what a
      member asked for. */
  ghost function Spoken(db: Db, r: Request): Option<Said> {
    if s :| SaidBy(db, r, s) then Some(s) else None
  }

  lemma CachingComesTo(db: Db, db': Db, applied: map<Id, AppliedOp>, user: Id, clock: Time, asked: Option<Said>, t: Option<Said>)
    requires ComesTo(db, db', user, clock, asked, t)
    ensures ComesTo(db, db'.(applied := applied), user, clock, asked, t)
  {
    hide History, TookUp, Opens, Differing;
    var db1 := db'.(applied := applied);
    forall n ensures Untouched(db, db', n) ==> Untouched(db, db1, n)
      ensures TakenBack(db, db', n) ==> TakenBack(db, db1, n)
    { }
    hide Untouched, TakenBack;
    forall s ensures IsNew(db, db1, s, user, clock) <==> IsNew(db, db', s, user, clock)
      ensures IsEdited(db, db1, s, user, clock) <==> IsEdited(db, db', s, user, clock)
    { }
  }

  lemma EventOperationComesTo(db: Db, user: Id, ws: Id, op: Operation, env: Env) returns (t: Option<Said>)
    requires op.entity == "event" && Attempted(db, user, ws, op, env).Done?
    ensures ComesTo(db, Attempted(db, user, ws, op, env).db, user, env.clock, None, t)
  {
    hide ComesTo, CreateEvent, UpdateEvent, DeleteEvent, Columns, NewId, Success;
    match op.op {
      case "create" =>
        var id := if op.entityId.Some? then op.entityId.value else NewId(db.events.Keys, env.hint);
        t := CreationComesTo(db, ws, user, Columns(op.payload.value.sent, OUTBOX_FIELDS), id, env);
      case "update" =>
        t := EditComesTo(db, user, op.entityId.value, op.payload.GetOr(EventBody(map[])).sent, env);
      case "delete" =>
        t := None;
        if db.events[op.entityId.value].deletedAt.None? {
          DeletionComesTo(db, user, op.entityId.value, env);
        } else {
          NothingComesTo(db, db, user, env.clock);
        }
      case _ => assert false;
    }
  }

  lemma ItemOperationComesTo(db: Db, user: Id, ws: Id, op: Operation, env: Env)
    requires op.entity == "watchlist_item" && Attempted(db, user, ws, op, env).Done?
    ensures ComesTo(db, Attempted(db, user, ws, op, env).db, user, env.clock, None, None)
  {
    hide ComesTo, PlanCreate, PlanMove, DeleteTree, SaveItem, NewId, Success, DraftRow, Edited, Moved, NewParent;
    NothingComesTo(db, db, user, env.clock);
    match op.op {
      case "create" =>
        var draft := op.payload.value.draft;
        var id := if op.entityId.Some? then op.entityId.value else NewId(db.items.Keys, env.hint);
        var p := PlanCreate(db.items, ws, draft.parent, draft.after, draft.before).position;
        ItemWriteComesTo(db, id, DraftRow(ws, user, draft, p), user, env.clock);
      case "update" =>
        var id, edit := op.entityId.value, op.payload.GetOr(EditBody(ItemEdit(None, None, None, None))).edit;
        ItemWriteComesTo(db, id, Edited(db.items[id], edit, user, env.utc), user, env.clock);
      case "move" =>
        var id, target := op.entityId.value, op.payload.GetOr(MoveBody(Target(false, None, None, None))).target;
        var parent := NewParent(db.items[id], target);
        var p := PlanMove(db.items, ws, id, parent, target.after, target.before, Some(id)).position;
        ItemWriteComesTo(db, id, Moved(db.items[id], parent, p), user, env.clock);
      case "delete" =>
        if db.items[op.entityId.value].deletedAt.None? {
          TreeDeletionComesTo(db, ws, op.entityId.value, env.utc, user, env.clock);
        }
      case _ => assert false;
    }
  }

  lemma NoteOperationComesTo(db: Db, user: Id, ws: Id, op: Operation, env: Env) returns (t: Option<Said>)
    requires (op.entity, op.op) == ("notification", "create") && Attempted(db, user, ws, op, env).Done?
    ensures op.entityId.Some? && t == Some(Said(op.entityId.value, Manual, {}, MessageOf(op), user, env.clock))
    ensures ComesTo(db, Attempted(db, user, ws, op, env).db, user, env.clock, t, t)
  {
    hide ComesTo, AnnounceSpec, Success;
    if op.entityId.value in db.events && db.events[op.entityId.value].deletedAt.Some? {
      GoneStays(db, op.entityId.value, user, MessageOf(op), env);
    }
    t := AskingComesTo(db, user, op.entityId.value, MessageOf(op), env);
  }

  lemma GoneStays(db: Db, id: Id, user: Id, message: Option<string>, env: Env)
    requires id in db.events && db.events[id].deletedAt.Some?
    ensures AnnounceSpec(db, id, user, Manual, {}, message, env.clock, env.hint).Gone?
  {
  }

  lemma ApplyComesTo(db: Db, r: Request) returns (t: Option<Said>)
    requires r.Apply?
    ensures ComesTo(db, Step(db, r).0, r.user, r.env.clock, AskedFor(db, r), t)
  {
    var op := r.op;
    var a := Attempted(db, r.user, r.ws, op, r.env);
    EveryAnswerTells(db, r.user, r.ws, op, r.env);
    hide ComesTo, AppliedTells, StaleEdit;
    NothingComesTo(db, db, r.user, r.env.clock);
    t := None;
    if op.opId in db.applied {
    } else if a.Failed? {
      hide Attempted;
      CachingComesTo(db, db, Step(db, r).0.applied, r.user, r.env.clock, None, None);
    } else {
      var asked := None;
      if op.entity == "event" {
        t := EventOperationComesTo(db, r.user, r.ws, op, r.env);
      } else if op.entity == "watchlist_item" {
        ItemOperationComesTo(db, r.user, r.ws, op, r.env);
      } else {
        t := NoteOperationComesTo(db, r.user, r.ws, op, r.env);
        asked := t;
      }
      hide Attempted;
      CachingComesTo(db, a.db, Step(db, r).0.applied, r.user, r.env.clock, asked, t);
    }
  }

  lemma RestComesTo(db: Db, r: Request) returns (t: Option<Said>)
    requires !r.Apply?
    ensures ComesTo(db, Step(db, r).0, r.user, r.env.clock, AskedFor(db, r), t)
  {
    hide ComesTo, CreateEvent, UpdateEvent, DeleteEvent, Columns, NewId, PlanCreate, PlanMove, DeleteTree, SaveItem,
         DraftRow, Edited, Moved, NewParent, AnnounceSpec;
    NothingComesTo(db, db, r.user, r.env.clock);
    t := None;
    match r
    case RestCreateEvent(user, ws, sent, env) =>
      t := CreationComesTo(db, ws, user, Columns(sent, ALL_FIELDS), NewId(db.events.Keys, env.hint), env);
    case RestUpdateEvent(user, ws, id, version, sent, env) =>
      if LiveEvent(db, ws, id) && db.events[id].version == version { t := EditComesTo(db, user, id, sent, env); }
    case RestDeleteEvent(user, ws, id, env) =>
      if LiveEvent(db, ws, id) { DeletionComesTo(db, user, id, env); }
    case RestNotify(user, ws, id, message, env) =>
      if LiveEvent(db, ws, id) { t := AskingComesTo(db, user, id, message, env); }
    case _ => RestItemComesTo(db, r);
  }

  lemma RestItemComesTo(db: Db, r: Request)
    requires r.RestCreateItem? || r.RestUpdateItem? || r.RestCheckItem? || r.RestMoveItem? || r.RestDeleteItem?
    ensures ComesTo(db, Step(db, r).0, r.user, r.env.clock, None, None)
  {
    hide ComesTo, NewId, PlanCreate, PlanMove, DeleteTree, SaveItem, DraftRow, Edited, Moved, NewParent;
    NothingComesTo(db, db, r.user, r.env.clock);
    match r
    case RestCreateItem(user, ws, draft, env) =>
      var p := PlanCreate(db.items, ws, draft.parent, draft.after, draft.before);
      if p.At? { ItemWriteComesTo(db, NewId(db.items.Keys, env.hint), DraftRow(ws, user, draft, p.position), user, env.clock); }
    case RestUpdateItem(user, ws, id, version, edit, env) =>
      if Live(db.items, ws, id) {
        ItemWriteComesTo(db, id, Edited(db.items[id], edit.(done := None), user, env.utc), user, env.clock);
      }
    case RestCheckItem(user, ws, id, version, done, env) =>
      if Live(db.items, ws, id) {
        ItemWriteComesTo(db, id, Edited(db.items[id], ItemEdit(None, None, None, Some(done)), user, env.utc), user, env.clock);
      }
    case RestMoveItem(user, ws, id, version, target, env) =>
      if Live(db.items, ws, id) {
        var parent := NewParent(db.items[id], target);
        var p := PlanMove(db.items, ws, id, parent, target.after, target.before, None);
        if p.At? { ItemWriteComesTo(db, id, Moved(db.items[id], parent, p.position), user, env.clock); }
      }
    case RestDeleteItem(user, ws, id, env) =>
      if Live(db.items, ws, id) { TreeDeletionComesTo(db, ws, id, env.utc, user, env.clock); }
  }

  /** Each request notifies of what it says, and of nothing else. */
  lemma StepNotifies(db: Db, r: Request)
    ensures Notified(db, Step(db, r).0, Spoken(db, r))
    ensures forall s :: SaidBy(db, r, s) <==> Spoken(db, r) == Some(s)
  {
    hide Step, Notified, IsNew, IsEdited, AskedFor;
    var t;
    if r.Apply? { t := ApplyComesTo(db, r); } else { t := RestComesTo(db, r); }
    assert forall s :: SaidBy(db, r, s) <==> t == Some(s);
    assert Spoken(db, r) == t by { if t.Some? { assert SaidBy(db, r, t.value); } }
  }

  // --- Every run -------------------------------------------------------------------------------

  function Noted(told: map<Id, seq<Said>>, n: Id, s: Said): map<Id, seq<Said>> {
    told[n := (if n in told then told[n] else []) + [s]]
  }

  /** Everything announced over a run, under the notification whose entry it was written to. */
  ghost function Told(db: Db, rs: seq<Request>, told: map<Id, seq<Said>>): map<Id, seq<Said>>
    decreases |rs|
  {
    if rs == [] then told
    else
      var db1, s := Step(db, rs[0]).0, Spoken(db, rs[0]);
      Told(db1, rs[1..], if s.None? then told else Noted(told, LastWritten(db1.log), s.value))
  }

  function LastWritten(log: seq<Entry>): Id {
    if log == [] then 0 else log[|log| - 1].key.id
  }

  ghost predicate AllStoried(db: Db, told: map<Id, seq<Said>>) {
    && told.Keys == db.notes.Keys && (forall n :: n in told ==> Storied(db, n, told[n]))
    && (forall n :: n !in db.notes ==> History(db.log, NoteKey(n)) == [])
  }

  lemma {:induction false} StrongestMore(kind: NoteKind, saids: seq<Said>, kind': NoteKind, s: Said)
    requires Strongest(kind, saids)
    requires kind' == EventCreated <==> kind == EventCreated || s.kind == EventCreated
    requires kind' == EventChanged <==> kind == EventChanged && s.kind == EventChanged
    ensures Strongest(kind', saids + [s])
  {
    var more := saids + [s];
    assert more[|saids|] == s && forall i :: 0 <= i < |saids| ==> more[i] == saids[i];
  }

  lemma {:induction false} ChangesMore(saids: seq<Said>, s: Said)
    ensures AllChanges(saids + [s]) == AllChanges(saids) + s.changes
  {
    var more := saids + [s];
    assert more[|saids|] == s && forall i :: 0 <= i < |saids| ==> more[i] == saids[i];
    forall c ensures c in AllChanges(more) <==> c in AllChanges(saids) + s.changes {
      if c in AllChanges(saids) {
        var i :| 0 <= i < |saids| && c in saids[i].changes;
        assert c in more[i].changes;
      }
      if c in s.changes { assert c in more[|saids|].changes; }
    }
  }

  lemma {:induction false} LastWordMore(message: Option<string>, saids: seq<Said>, message': Option<string>, s: Said)
    requires LastWord(message, saids)
    requires if Blank(s.message) then message' == message else message'.Some? && Trims(message'.value, s.message.value)
    ensures LastWord(message', saids + [s])
  {
    hide Blank, Trims;
    var more := saids + [s];
    assert more[|saids|] == s && forall i :: 0 <= i < |saids| ==> more[i] == saids[i];
    if Blank(s.message) {
      if message.Some? {
        var i :| SpokenLast(message.value, saids, i);
        assert SpokenLast(message.value, more, i);
      }
    } else {
      assert s.message.Some? by { UnsaidIsBlank(s.message); }
      assert SpokenLast(message'.value, more, |saids|);
    }
  }

  lemma UnsaidIsBlank(message: Option<string>)
    ensures message.None? ==> Blank(message)
  {
  }

  lemma {:induction false} TellsMore(was: NoteRow, saids: seq<Said>, row: NoteRow, s: Said)
    requires Tells(was, saids) && TookUp(was, row, s) && was.event == s.event
    ensures Tells(row, saids + [s])
  {
    StrongestMore(was.kind, saids, row.kind, s);
    ChangesMore(saids, s);
    LastWordMore(was.message, saids, row.message, s);
    hide Strongest, LastWord, AllChanges, Blank, Trims;
  }

  lemma TellsOne(row: NoteRow, s: Said)
    requires Opens(row, s) && row.event == s.event
    ensures Tells(row, [s])
  {
    var one := [s];
    assert one == [] + [s];
    ChangesMore([], s);
    assert AllChanges([]) == {};
    assert row.message.Some? ==> SpokenLast(row.message.value, one, 0);
    assert one[0] == s;
  }

  lemma {:induction false} UntouchedStoried(db: Db, db': Db, n: Id, saids: seq<Said>)
    requires Storied(db, n, saids) && Untouched(db, db', n)
    ensures Storied(db', n, saids)
  {
    hide VersionTold;
  }

  lemma {:induction false} TakenBackStoried(db: Db, db': Db, n: Id, saids: seq<Said>)
    requires Storied(db, n, saids) && TakenBack(db, db', n)
    ensures Storied(db', n, saids)
  {
    var h, h' := History(db.log, NoteKey(n)), History(db'.log, NoteKey(n));
    assert |h| == |saids|;
    assert VersionTold(h[|h| - 1], saids, |h| - 1);
    hide Tells;
    forall i | 0 <= i < |saids| ensures VersionTold(h'[i], saids, i) { assert h'[i] == h'[..|h|][i] == h[i]; }
    assert h'[|h| - 1] == h'[..|h|][|h| - 1] == h[|h| - 1];
    assert h[|h| - 1].payload == NoteSnap(db.notes[n]);
    assert db.notes[n].version == |saids| by { assert saids[..|saids|] == saids; TellsVersion(h[|h| - 1].payload.note, saids); }
  }

  lemma TellsVersion(row: NoteRow, saids: seq<Said>)
    requires Tells(row, saids)
    ensures row.version == |saids|
  {
  }

  lemma {:induction false} HeardStoried(db: Db, db': Db, n: Id, saids: seq<Said>, s: Said)
    requires Heard(db, db', n, s)
    requires if n in db.notes then Storied(db, n, saids) else saids == [] && History(db.log, NoteKey(n)) == []
    ensures Storied(db', n, saids + [s])
  {
    var h, h', more := History(db.log, NoteKey(n)), History(db'.log, NoteKey(n)), saids + [s];
    hide Tells;
    if n in db.notes {
      assert |h| == |saids|;
      assert VersionTold(h[|h| - 1], saids, |h| - 1);
      assert saids[..|saids|] == saids;
      TellsMore(db.notes[n], saids, db'.notes[n], s);
    } else {
      TellsOne(db'.notes[n], s);
      assert [] + [s] == [s];
    }
    hide TookUp, Opens, History;
    forall i | 0 <= i < |more| ensures VersionTold(h'[i], more, i) {
      if i < |saids| {
        assert h'[i] == h'[..|h|][i] == h[i] && more[..i + 1] == saids[..i + 1];
        assert VersionTold(h[i], saids, i);
      } else {
        assert more[..i + 1] == more;
      }
    }
    assert db'.notes[n].deletedAt.None? by { TellsLive(db'.notes[n], more); }
  }

  lemma TellsLive(row: NoteRow, saids: seq<Said>)
    requires Tells(row, saids)
    ensures row.deletedAt.None?
  {
  }

  lemma {:induction false} NotifiedStoried(db: Db, db': Db, told: map<Id, seq<Said>>, s: Option<Said>)
    requires AllStoried(db, told) && Notified(db, db', s)
    ensures AllStoried(db', if s.None? then told else Noted(told, LastWritten(db'.log), s.value))
  {
    hide Storied, History, TookUp, Opens;
    match s {
      case None =>
        forall n ensures n in told <==> n in db'.notes
          ensures n in told ==> Storied(db', n, told[n])
        {
          if Untouched(db, db', n) {
            if n in told { UntouchedStoried(db, db', n, told[n]); }
          } else {
            TakenBackStoried(db, db', n, told[n]);
          }
        }
        assert told.Keys == db'.notes.Keys;
        forall n | n !in db'.notes ensures History(db'.log, NoteKey(n)) == [] { assert Untouched(db, db', n); }
      case Some(said) =>
        var x := db'.log[|db'.log| - 1].key.id;
        var told' := Noted(told, x, said);
        HeardStoried(db, db', x, if x in told then told[x] else [], said);
        forall n | n != x ensures n in told' <==> n in db'.notes
          ensures n in told' ==> Storied(db', n, told'[n])
          ensures n !in db'.notes ==> History(db'.log, NoteKey(n)) == []
        {
          assert Untouched(db, db', n);
          if n in told { UntouchedStoried(db, db', n, told[n]); }
        }
        assert forall n :: n in told' <==> n in db'.notes;
        assert told'.Keys == db'.notes.Keys;
    }
  }

  lemma {:induction false} RunKeepsStories(db: Db, rs: seq<Request>, told: map<Id, seq<Said>>)
    requires AllStoried(db, told)
    ensures AllStoried(Run(db, rs).0, Told(db, rs, told))
    decreases |rs|
  {
    hide Step, AllStoried, Notified;
    if rs != [] {
      StepNotifies(db, rs[0]);
      var db1, s := Step(db, rs[0]).0, Spoken(db, rs[0]);
      NotifiedStoried(db, db1, told, s);
      RunKeepsStories(db1, rs[1..], if s.None? then told else Noted(told, LastWritten(db1.log), s.value));
    }
  }

  /** Over every run: each version a notification ever had says what had been announced into
      it by then, the union of the changes, the strongest kind, the last word; and it is
      taken back at most once, at the end. */
  lemma {:induction false} EveryNotificationTells(rs: seq<Request>)
    ensures AllStoried(Run(EMPTY_DB, rs).0, Told(EMPTY_DB, rs, map[]))
  {
    RunKeepsStories(EMPTY_DB, rs, map[]);
  }
}
