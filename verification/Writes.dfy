/** What an accepted request leaves in the row it names, field by field, and that it leaves
    every other row of the table alone. */
module Writes {
  import opened Wrappers
  import opened ChangeLog
  import opened Notifications
  import opened Watchlist
  import opened Requests
  import opened Server

  // --- Events ----------------------------------------------------------------------------------

  /** The column is null, or holds the value. */
  predicate Holds(fields: EventFields, f: EventField, value: Option<string>) {
    if value.None? then f !in fields else f in fields && fields[f] == value.value
  }

  /** What a new event has where the body sent nothing. */
  function Preset(f: EventField): Option<string> {
    if f == Status then Some("planned") else if f == Source then Some("manual") else None
  }

  /** The columns only a REST body can fill when an event is created. */
  predicate RestOnly(f: EventField) {
    f in {CoverImageUrl, VenueImageUrl, VenueAddress, DepartureAt, SpotifyPlaylistUrl}
  }

  predicate NewEventReads(row: EventRow, ws: Id, user: Id, sent: Sent, outbox: bool) {
    && row.ws == ws && row.createdBy == user && row.version == 1 && row.deletedAt == None
    && forall f: EventField ::
         Holds(row.fields, f, if f in sent && sent[f].Some? && !(outbox && RestOnly(f)) then sent[f] else Preset(f))
  }

  /** Sent values are taken, sent nulls clear, and what was not sent stays. */
  predicate EditedEventReads(was: EventRow, row: EventRow, sent: Sent) {
    && row == was.(fields := row.fields, version := was.version + 1)
    && forall f: EventField ::
         Holds(row.fields, f, if f in sent then sent[f] else if f in was.fields then Some(was.fields[f]) else None)
  }

  /** The event is the only row of the two tables that changed. */
  ghost predicate OnlyEvent(db: Db, db': Db, id: Id) {
    && db'.items == db.items && id in db'.events && db'.events.Keys == db.events.Keys + {id}
    && forall e :: e in db.events && e != id ==> db'.events[e] == db.events[e]
  }

  lemma CreatedEventReads(db: Db, ws: Id, user: Id, sent: Sent, outbox: bool, id: Id, env: Env)
    requires id !in db.events
    ensures var db' := CreateEvent(db, ws, user, Columns(sent, if outbox then OUTBOX_FIELDS else ALL_FIELDS), id, env);
            OnlyEvent(db, db', id) && NewEventReads(db'.events[id], ws, user, sent, outbox)
  {
    ColumnsRead(sent, outbox);
    hide Columns, Pending, Merged, NewNote, Holds;
  }

  lemma CopiedExactly(f: EventField)
    ensures f in ALL_FIELDS && (f in OUTBOX_FIELDS <==> !RestOnly(f))
  {
    match f
    case Title => case Category => case VenueId => case StartsAt => case EndsAt => case VenueTimezone => case Status =>
    case Source => case Notes => case CoverImageUrl => case VenueImageUrl => case VenueAddress => case DepartureAt =>
    case SpotifyPlaylistUrl =>
  }

  lemma ColumnsRead(sent: Sent, outbox: bool)
    ensures var fields := Columns(sent, if outbox then OUTBOX_FIELDS else ALL_FIELDS);
            forall f: EventField ::
              Holds(fields, f, if f in sent && sent[f].Some? && !(outbox && RestOnly(f)) then sent[f] else Preset(f))
  {
    var copied := if outbox then OUTBOX_FIELDS else ALL_FIELDS;
    forall f: EventField
      ensures Holds(Columns(sent, copied), f, if f in sent && sent[f].Some? && !(outbox && RestOnly(f)) then sent[f] else Preset(f))
    {
      CopiedExactly(f);
      ColumnReads(sent, copied, f);
    }
  }

  lemma ColumnReads(sent: Sent, copied: set<EventField>, f: EventField)
    ensures Holds(Columns(sent, copied), f, if f in sent && sent[f].Some? && f in copied then sent[f] else Preset(f))
  {
  }

  lemma PatchedReads(was: EventRow, sent: Sent)
    ensures EditedEventReads(was, Updated(was, sent), sent)
  {
  }

  lemma AnnouncingLeavesEvents(db: Db, event: Id, user: Id, kind: NoteKind, changes: set<Change>, message: Option<string>, now: Time,
                               hint: nat)
    requires event in db.events && db.events[event].deletedAt.None?
    ensures var a := AnnounceSpec(db, event, user, kind, changes, message, now, hint);
            a.Announced? && a.db.events == db.events && a.db.items == db.items
  {
    hide Pending, Merged, NewNote;
  }

  lemma PatchedEventReads(db: Db, user: Id, id: Id, sent: Sent, env: Env)
    requires id in db.events && db.events[id].deletedAt.None?
    ensures var db' := UpdateEvent(db, user, id, sent, env);
            OnlyEvent(db, db', id) && EditedEventReads(db.events[id], db'.events[id], sent)
  {
    PatchedReads(db.events[id], sent);
    var row := Updated(db.events[id], sent);
    assert row.deletedAt.None?;
    var logged := SaveEvent(db, id, row, Upsert, user);
    AnnouncingLeavesEvents(logged, id, user, EventChanged, ChangesSince(db.events[id].fields, row.fields), None, env.clock, env.hint);
    hide Updated, AnnounceSpec, ChangesSince, EditedEventReads;
  }

  lemma RetiredEventReads(db: Db, user: Id, id: Id, env: Env)
    requires id in db.events
    ensures var db' := DeleteEvent(db, user, id, env);
            && OnlyEvent(db, db', id)
            && db'.events[id] == db.events[id].(deletedAt := Some(env.utc), version := db.events[id].version + 1)
  {
    var logged := SaveEvent(db, id, Retired(db.events[id], env.utc), Delete, user);
    WithdrawTakesThePending(logged, id, user, env.clock);
    hide WithdrawSpec, LogTells;
  }

  // --- Items -----------------------------------------------------------------------------------

  predicate NewItemReads(row: ItemRow, ws: Id, user: Id, d: ItemDraft) {
    row == ItemRow(ws, d.parent, d.title, d.kind, d.note, row.position, false, None, None, user, 1, None)
  }

  /** Checking an open item notes when and who, unchecking a done one forgets both, and an
      item that is already so keeps what it has. */
  predicate EditedItemReads(was: ItemRow, row: ItemRow, e: ItemEdit, user: Id, utc: Time) {
    && row == was.(title := row.title, kind := row.kind, note := row.note, done := row.done, doneAt := row.doneAt,
                   doneBy := row.doneBy, version := was.version + 1)
    && row.title == (if e.title.Some? then e.title.value else was.title)
    && row.kind == (if e.kind.Some? then e.kind.value else was.kind)
    && row.note == (if e.note.Some? then e.note.value else was.note)
    && (e.done == Some(true) && !was.done ==> row.done && row.doneAt == Some(utc) && row.doneBy == Some(user))
    && (e.done == Some(false) && was.done ==> !row.done && row.doneAt == None && row.doneBy == None)
    && (e.done == None || e.done == Some(was.done) ==>
          row.done == was.done && row.doneAt == was.doneAt && row.doneBy == was.doneBy)
  }

  predicate MovedItemReads(was: ItemRow, row: ItemRow, parent: Option<Id>) {
    row == was.(parent := parent, position := row.position, version := was.version + 1)
  }

  /** The item is the only row of the three tables that changed. */
  ghost predicate OnlyItem(db: Db, db': Db, id: Id) {
    && db'.events == db.events && db'.notes == db.notes && id in db'.items && db'.items.Keys == db.items.Keys + {id}
    && forall i :: i in db.items && i != id ==> db'.items[i] == db.items[i]
  }

  lemma EditReads(was: ItemRow, e: ItemEdit, user: Id, utc: Time)
    ensures EditedItemReads(was, Edited(was, e, user, utc), e, user, utc)
  {
  }

  // --- The outbox ----------------------------------------------------------------------------------

  /** What an applied operation other than a deletion or an announcement wrote. */
  ghost predicate OperationReads(db: Db, db': Db, user: Id, ws: Id, op: Operation, id: Id, env: Env) {
    match (op.entity, op.op)
    case ("event", "create") =>
      && op.payload.Some? && op.payload.value.EventBody? && OnlyEvent(db, db', id)
      && NewEventReads(db'.events[id], ws, user, op.payload.value.sent, true)
    case ("event", "update") =>
      && id in db.events && OnlyEvent(db, db', id)
      && EditedEventReads(db.events[id], db'.events[id],
                          if op.payload.Some? && op.payload.value.EventBody? then op.payload.value.sent else map[])
    case ("watchlist_item", "create") =>
      && op.payload.Some? && op.payload.value.DraftBody? && OnlyItem(db, db', id)
      && NewItemReads(db'.items[id], ws, user, op.payload.value.draft)
    case ("watchlist_item", "update") =>
      && id in db.items && OnlyItem(db, db', id)
      && EditedItemReads(db.items[id], db'.items[id],
                         if op.payload.Some? && op.payload.value.EditBody? then op.payload.value.edit
                         else ItemEdit(None, None, None, None), user, env.utc)
    case ("watchlist_item", "move") =>
      && id in db.items && OnlyItem(db, db', id)
      && (var t := if op.payload.Some? && op.payload.value.MoveBody? then op.payload.value.target
                   else Target(false, None, None, None);
          MovedItemReads(db.items[id], db'.items[id], if t.setParent then t.parent else db.items[id].parent))
    case _ => true
  }

  lemma EventOperationReads(db: Db, user: Id, ws: Id, op: Operation, env: Env)
    requires op.entity == "event" && Attempted(db, user, ws, op, env).Done?
    ensures var a := Attempted(db, user, ws, op, env);
            a.result.entityId.Some? && OperationReads(db, a.db, user, ws, op, a.result.entityId.value, env)
  {
    hide CreateEvent, UpdateEvent, DeleteEvent, Columns, NewId, OnlyEvent, NewEventReads, EditedEventReads;
    if op.op == "create" {
      var id := if op.entityId.Some? then op.entityId.value else NewId(db.events.Keys, env.hint);
      CreatedEventReads(db, ws, user, op.payload.value.sent, true, id, env);
    } else if op.op == "update" {
      PatchedEventReads(db, user, op.entityId.value, op.payload.GetOr(EventBody(map[])).sent, env);
    }
  }

  lemma ItemCreateReads(db: Db, user: Id, ws: Id, op: Operation, env: Env)
    requires (op.entity, op.op) == ("watchlist_item", "create") && Attempted(db, user, ws, op, env).Done?
    ensures var a := Attempted(db, user, ws, op, env);
            a.result.entityId.Some? && OperationReads(db, a.db, user, ws, op, a.result.entityId.value, env)
  {
    hide PlanCreate, NewId, Recorded;
  }

  lemma ItemMoveReads(db: Db, user: Id, ws: Id, op: Operation, env: Env)
    requires (op.entity, op.op) == ("watchlist_item", "move") && Attempted(db, user, ws, op, env).Done?
    ensures var a := Attempted(db, user, ws, op, env);
            a.result.entityId.Some? && OperationReads(db, a.db, user, ws, op, a.result.entityId.value, env)
  {
    hide PlanMove, Recorded;
  }

  lemma ItemUpdateReads(db: Db, user: Id, ws: Id, op: Operation, env: Env)
    requires (op.entity, op.op) == ("watchlist_item", "update") && Attempted(db, user, ws, op, env).Done?
    ensures var a := Attempted(db, user, ws, op, env);
            a.result.entityId.Some? && OperationReads(db, a.db, user, ws, op, a.result.entityId.value, env)
  {
    hide Edited, EditedItemReads, Recorded;
    EditReads(db.items[op.entityId.value], op.payload.GetOr(EditBody(ItemEdit(None, None, None, None))).edit, user, env.utc);
  }

  lemma ItemDeleteNames(db: Db, user: Id, ws: Id, op: Operation, env: Env)
    requires (op.entity, op.op) == ("watchlist_item", "delete") && Attempted(db, user, ws, op, env).Done?
    ensures Attempted(db, user, ws, op, env).result.entityId.Some?
  {
    hide DeleteTree;
  }

  lemma ItemOperationReads(db: Db, user: Id, ws: Id, op: Operation, env: Env)
    requires op.entity == "watchlist_item" && Attempted(db, user, ws, op, env).Done?
    ensures var a := Attempted(db, user, ws, op, env);
            a.result.entityId.Some? && OperationReads(db, a.db, user, ws, op, a.result.entityId.value, env)
  {
    hide ItemCreateSpec, ItemUpdateSpec, ItemMoveSpec, ItemDeleteSpec, OnlyItem, NewItemReads, EditedItemReads, MovedItemReads;
    match op.op
    case "create" => ItemCreateReads(db, user, ws, op, env);
    case "update" => ItemUpdateReads(db, user, ws, op, env);
    case "move" => ItemMoveReads(db, user, ws, op, env);
    case "delete" => ItemDeleteNames(db, user, ws, op, env);
    case _ => assert false;
  }

  /** Every applied operation leaves in its row what it said, and no other row changes. */
  lemma AppliedOperationReads(db: Db, user: Id, ws: Id, op: Operation, env: Env)
    requires Attempted(db, user, ws, op, env).Done?
    ensures var a := Attempted(db, user, ws, op, env);
            a.result.entityId.Some? && OperationReads(db, a.db, user, ws, op, a.result.entityId.value, env)
  {
    if op.entity == "event" {
      EventOperationReads(db, user, ws, op, env);
    } else if op.entity == "watchlist_item" {
      ItemOperationReads(db, user, ws, op, env);
    } else {
      hide AnnounceSpec;
    }
  }

  // --- Who wrote ---------------------------------------------------------------------------------

  /** Whatever was written to the log since was written by the user. */
  ghost predicate SignedBy(log: seq<Entry>, log': seq<Entry>, user: Id) {
    log <= log' && forall i :: |log| <= i < |log'| ==> log'[i].actor == user
  }

  lemma {:induction false} WithdrawalsAreSigned(db: Db, ids: seq<Id>, now: Time, user: Id)
    requires forall n :: n in ids ==> n in db.notes
    ensures SignedBy(db.log, WithdrawAll(db, ids, now, user).log, user)
    decreases |ids|
  {
    if ids != [] {
      WithdrawalsAreSigned(SaveNote(db, ids[0], Withdrawn(db.notes[ids[0]], now), Delete, user), ids[1..], now, user);
    }
  }

  lemma {:induction false} BurialsAreSigned(db: Db, ids: seq<Id>, now: Time, user: Id)
    requires forall i :: i in ids ==> i in db.items
    ensures SignedBy(db.log, BuryAll(db, ids, now, user).log, user)
    decreases |ids|
  {
    if ids != [] {
      BurialsAreSigned(SaveItem(db, ids[0], Buried(db.items[ids[0]], now), Delete, user), ids[1..], now, user);
    }
  }

  lemma {:induction false} SignedThen(log: seq<Entry>, log1: seq<Entry>, log2: seq<Entry>, user: Id)
    requires SignedBy(log, log1, user) && SignedBy(log1, log2, user)
    ensures SignedBy(log, log2, user)
  {
  }

  lemma EventWriteIsSigned(db: Db, id: Id, row: EventRow, how: ChangeOp, user: Id)
    ensures SignedBy(db.log, SaveEvent(db, id, row, how, user).log, user)
  {
  }

  lemma CreationIsSigned(db: Db, ws: Id, user: Id, fields: EventFields, id: Id, env: Env)
    requires id !in db.events
    ensures SignedBy(db.log, CreateEvent(db, ws, user, fields, id, env).log, user)
  {
    var row := EventRow(ws, fields, user, 1, None);
    var logged := SaveEvent(db, id, row, Upsert, user);
    EventWriteIsSigned(db, id, row, Upsert, user);
    AnnouncementIsSigned(logged, id, user, EventCreated, {}, None, env.clock, env.hint);
    hide SignedBy, AnnounceSpec;
    SignedThen(db.log, logged.log, CreateEvent(db, ws, user, fields, id, env).log, user);
  }

  lemma EditIsSigned(db: Db, user: Id, id: Id, sent: Sent, env: Env)
    requires id in db.events && db.events[id].deletedAt.None?
    ensures SignedBy(db.log, UpdateEvent(db, user, id, sent, env).log, user)
  {
    var row := Updated(db.events[id], sent);
    assert row.deletedAt.None?;
    var logged, changes := SaveEvent(db, id, row, Upsert, user), ChangesSince(db.events[id].fields, row.fields);
    EventWriteIsSigned(db, id, row, Upsert, user);
    AnnouncementIsSigned(logged, id, user, EventChanged, changes, None, env.clock, env.hint);
    hide SignedBy, AnnounceSpec, Updated, ChangesSince;
    if changes != {} { SignedThen(db.log, logged.log, UpdateEvent(db, user, id, sent, env).log, user); }
  }

  lemma DeletionIsSigned(db: Db, user: Id, id: Id, env: Env)
    requires id in db.events
    ensures SignedBy(db.log, DeleteEvent(db, user, id, env).log, user)
  {
    var row := Retired(db.events[id], env.utc);
    var logged := SaveEvent(db, id, row, Delete, user);
    EventWriteIsSigned(db, id, row, Delete, user);
    WithdrawalsAreSigned(logged, Ascending(DueAfter(logged.notes, id, env.clock)), env.clock, user);
    hide SignedBy, WithdrawAll;
    SignedThen(db.log, logged.log, DeleteEvent(db, user, id, env).log, user);
  }

  lemma TreeDeletionIsSigned(db: Db, ws: Id, id: Id, now: Time, user: Id)
    requires id in db.items
    ensures SignedBy(db.log, DeleteTree(db, ws, id, now, user).log, user)
  {
    BurialsAreSigned(db, Ascending(Doomed(db.items, ws, id)), now, user);
    hide BuryAll, Doomed, Ascending;
  }

  lemma AnnouncementIsSigned(db: Db, event: Id, user: Id, kind: NoteKind, changes: set<Change>, message: Option<string>, now: Time,
                             hint: nat)
    requires event in db.events
    ensures var a := AnnounceSpec(db, event, user, kind, changes, message, now, hint);
            (a.Announced? <==> db.events[event].deletedAt.None?) && (a.Announced? ==> SignedBy(db.log, a.db.log, user))
  {
    hide Pending, Merged, NewNote;
  }

  lemma OperationIsSigned(db: Db, user: Id, ws: Id, op: Operation, env: Env)
    requires Attempted(db, user, ws, op, env).Done?
    ensures SignedBy(db.log, Attempted(db, user, ws, op, env).db.log, user)
  {
    hide CreateEvent, UpdateEvent, DeleteEvent, AnnounceSpec, DeleteTree, Columns, NewId, PlanCreate, PlanMove, Edited, Success, SignedBy;
    NothingIsSigned(db.log, user);
    if op.entityId.Some? && op.entityId.value in db.items { TreeDeletionIsSigned(db, ws, op.entityId.value, env.utc, user); }
    forall id, row { ItemWriteIsSigned(db, id, row, user); }
    if op.entity == "event" {
      EventOperationIsSigned(db, user, ws, op, env);
    } else if op.entity == "notification" {
      var message := op.payload.GetOr(NoteBody(None)).message;
      AnnouncementIsSigned(db, op.entityId.value, user, Manual, {}, message, env.clock, env.hint);
    }
  }

  lemma EventOperationIsSigned(db: Db, user: Id, ws: Id, op: Operation, env: Env)
    requires op.entity == "event" && Attempted(db, user, ws, op, env).Done?
    ensures SignedBy(db.log, Attempted(db, user, ws, op, env).db.log, user)
  {
    hide CreateEvent, UpdateEvent, DeleteEvent, Columns, NewId, Success, SignedBy;
    NothingIsSigned(db.log, user);
    if op.op == "create" {
      var id := if op.entityId.Some? then op.entityId.value else NewId(db.events.Keys, env.hint);
      CreationIsSigned(db, ws, user, Columns(op.payload.value.sent, OUTBOX_FIELDS), id, env);
    } else if op.op == "update" {
      EditIsSigned(db, user, op.entityId.value, op.payload.GetOr(EventBody(map[])).sent, env);
    } else {
      DeletionIsSigned(db, user, op.entityId.value, env);
    }
  }

  lemma NothingIsSigned(log: seq<Entry>, user: Id)
    ensures SignedBy(log, log, user)
  {
  }

  lemma ItemWriteIsSigned(db: Db, id: Id, row: ItemRow, user: Id)
    ensures SignedBy(db.log, SaveItem(db, id, row, Upsert, user).log, user)
  {
  }

  /** Every entry of the log names the user whose request wrote it. */
  lemma EveryEntryIsSigned(db: Db, r: Request)
    ensures SignedBy(db.log, Step(db, r).0.log, r.user)
  {
    NothingIsSigned(db.log, r.user);
    if r.Apply? {
      if r.op.opId !in db.applied && Attempted(db, r.user, r.ws, r.op, r.env).Done? {
        OperationIsSigned(db, r.user, r.ws, r.op, r.env);
      }
      hide Attempted, SignedBy;
    } else {
      RestIsSigned(db, r);
    }
  }

  lemma RestIsSigned(db: Db, r: Request)
    requires !r.Apply?
    ensures SignedBy(db.log, Step(db, r).0.log, r.user)
  {
    hide CreateEvent, UpdateEvent, DeleteEvent, AnnounceSpec, DeleteTree, Columns, NewId, PlanCreate, PlanMove, Edited, SignedBy;
    NothingIsSigned(db.log, r.user);
    forall id, row { ItemWriteIsSigned(db, id, row, r.user); }
    match r
    case RestCreateEvent(user, ws, sent, env) =>
      CreationIsSigned(db, ws, user, Columns(sent, ALL_FIELDS), NewId(db.events.Keys, env.hint), env);
    case RestUpdateEvent(user, ws, id, _, sent, env) => if LiveEvent(db, ws, id) { EditIsSigned(db, user, id, sent, env); }
    case RestDeleteEvent(user, ws, id, env) => if LiveEvent(db, ws, id) { DeletionIsSigned(db, user, id, env); }
    case RestNotify(user, ws, id, message, env) =>
      if LiveEvent(db, ws, id) { AnnouncementIsSigned(db, id, user, Manual, {}, message, env.clock, env.hint); }
    case RestDeleteItem(user, ws, id, env) =>
      if Live(db.items, ws, id) { TreeDeletionIsSigned(db, ws, id, env.utc, user); }
    case _ =>
  }

  // --- REST ----------------------------------------------------------------------------------------

  ghost predicate RestReads(db: Db, db': Db, r: Request, id: Id) {
    match r
    case RestCreateEvent(user, ws, sent, _) => OnlyEvent(db, db', id) && NewEventReads(db'.events[id], ws, user, sent, false)
    case RestUpdateEvent(_, _, _, _, sent, _) =>
      id in db.events && OnlyEvent(db, db', id) && EditedEventReads(db.events[id], db'.events[id], sent)
    case RestDeleteEvent(_, _, _, env) =>
      && id in db.events && OnlyEvent(db, db', id)
      && db'.events[id] == db.events[id].(deletedAt := Some(env.utc), version := db.events[id].version + 1)
    case RestCreateItem(user, ws, draft, _) => OnlyItem(db, db', id) && NewItemReads(db'.items[id], ws, user, draft)
    case RestUpdateItem(user, _, _, _, edit, env) =>
      && id in db.items && OnlyItem(db, db', id)
      && EditedItemReads(db.items[id], db'.items[id], ItemEdit(edit.title, edit.kind, edit.note, None), user, env.utc)
    case RestCheckItem(user, _, _, _, done, env) =>
      && id in db.items
      && if db.items[id].done == done then db' == db
         else OnlyItem(db, db', id)
              && EditedItemReads(db.items[id], db'.items[id], ItemEdit(None, None, None, Some(done)), user, env.utc)
    case RestMoveItem(_, _, _, _, t, _) =>
      && id in db.items && OnlyItem(db, db', id)
      && MovedItemReads(db.items[id], db'.items[id], if t.setParent then t.parent else db.items[id].parent)
    case _ => true
  }

  /** The same of every REST request that is done; checking a checked item changes nothing. */
  lemma DoneRequestReads(db: Db, r: Request)
    requires !r.Apply? && Step(db, r).1.Ok?
    ensures RestReads(db, Step(db, r).0, r, Step(db, r).1.id)
  {
    hide CreateEvent, UpdateEvent, DeleteEvent, AnnounceSpec, PlanCreate, PlanMove, DeleteTree, NewId, Columns, Edited,
         EditedItemReads, NewEventReads, EditedEventReads, Recorded;
    match r
    case RestCreateEvent(user, ws, sent, env) =>
      CreatedEventReads(db, ws, user, sent, false, NewId(db.events.Keys, env.hint), env);
    case RestUpdateEvent(user, ws, id, version, sent, env) => PatchedEventReads(db, user, id, sent, env);
    case RestDeleteEvent(user, ws, id, env) => RetiredEventReads(db, user, id, env);
    case RestUpdateItem(user, ws, id, version, edit, env) => EditReads(db.items[id], edit.(done := None), user, env.utc);
    case RestCheckItem(user, ws, id, version, done, env) =>
      EditReads(db.items[id], ItemEdit(None, None, None, Some(done)), user, env.utc);
    case _ =>
  }
}
