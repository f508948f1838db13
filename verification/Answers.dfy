/** What an outbox answer tells the client that sent the operation: which row it wrote and
    with which version, where in the log that stands, or what it collided with. */
module Answers {
  import opened Wrappers
  import opened ChangeLog
  import opened Notifications
  import opened Watchlist
  import opened Requests
  import opened Server

  /** The row the answer is about. */
  function KeyOf(op: Operation, id: Id): Key {
    if op.entity == "event" then EventKey(id) else if op.entity == "notification" then NoteKey(id) else ItemKey(id)
  }

  /** The log entry at `i`, written by the operation, is that of the row as it stands. */
  ghost predicate LoggedAt(db: Db, db': Db, key: Key, i: int) {
    |db.log| <= i < |db'.log| && db'.log[i].key == key && Lookup(db', key) == Some(db'.log[i].payload)
  }

  ghost predicate Stands(db': Db, key: Key, version: nat) {
    Lookup(db', key).Some? && Lookup(db', key).value.Version() == version
  }

  /** A row of the workspace was written in this version, and the sequence number is that of
      its entry. */
  ghost predicate Wrote(db: Db, db': Db, key: Key, ws: Id, version: nat, seqNo: nat) {
    && Stands(db', key, version) && Lookup(db', key).value.Ws() == ws
    && exists i :: LoggedAt(db, db', key, i) && db'.log[i].seqNo == seqNo
  }

  /** The operations that carry the version they were based on. */
  predicate Checked(op: Operation) {
    (op.entity, op.op) in {("event", "update"), ("watchlist_item", "update"), ("watchlist_item", "move")}
  }

  /** A live row of the workspace. */
  predicate LiveRow(db: Db, ws: Id, key: Key) {
    match Lookup(db, key)
    case None => false
    case Some(row) => row.Ws() == ws && !row.Deleted()
  }

  /** A stale edit: the row is there, in another version than the client knew. */
  predicate StaleEdit(db: Db, ws: Id, op: Operation) {
    && Checked(op) && op.entityId.Some? && op.baseVersion.Some?
    && LiveRow(db, ws, KeyOf(op, op.entityId.value))
    && Lookup(db, KeyOf(op, op.entityId.value)).value.Version() != op.baseVersion.value
  }

  ghost predicate AppliedTells(db: Db, db': Db, ws: Id, op: Operation, r: OperationResult) {
    && r.entityId.Some? && r.version.Some?
    && var key := KeyOf(op, r.entityId.value);
       && Stands(db', key, r.version.value)
       && (Checked(op) ==> r.entityId == op.entityId && op.baseVersion.Some? && LiveRow(db, ws, key)
                           && Stands(db, key, op.baseVersion.value) && r.version.value == op.baseVersion.value + 1)
       && match r.seqNo
          case Some(q) => Wrote(db, db', key, ws, r.version.value, q)
          case None =>
            if op.entity == "notification" then LoggedAt(db, db', key, |db'.log| - 1)
            else op.op == "delete" && db' == db && Lookup(db, key).value.Deleted()
  }

  /** An applied operation answers with the row it wrote, that row's new version and the
      sequence number of its entry; a stale edit, and nothing else, answers "conflict" with
      the version the row has. */
  ghost predicate Tells(db: Db, ws: Id, op: Operation, a: Attempt) {
    && a.result.opId == op.opId
    && (a.Done? <==> a.result.status == Applied)
    && (a.Done? ==> AppliedTells(db, a.db, ws, op, a.result))
    && (a.result.status == Conflict <==> StaleEdit(db, ws, op))
    && (a.result.status == Conflict ==>
          && a.result.entityId == op.entityId
          && a.result.currentVersion == Some(Lookup(db, KeyOf(op, op.entityId.value)).value.Version()))
  }

  // --- Writes ----------------------------------------------------------------------------

  lemma EventWritten(db: Db, id: Id, row: EventRow, how: ChangeOp, user: Id, db': Db)
    requires var saved := SaveEvent(db, id, row, how, user); Extends(saved, db') && db'.events == saved.events
    ensures Wrote(db, db', EventKey(id), row.ws, row.version, LastSeq(db.log) + 1)
  {
    var saved := SaveEvent(db, id, row, how, user);
    assert db'.log[|db.log|] == saved.log[|db.log|];
    assert LoggedAt(db, db', EventKey(id), |db.log|);
  }

  lemma ItemWritten(db: Db, db1: Db, id: Id, row: ItemRow, how: ChangeOp, user: Id)
    requires Extends(db, db1)
    ensures var saved := SaveItem(db1, id, row, how, user);
            Wrote(db, saved, ItemKey(id), row.ws, row.version, LastSeq(saved.log))
    ensures LastSeq(SaveItem(db1, id, row, how, user).log) == LastSeq(db1.log) + 1
  {
    var saved := SaveItem(db1, id, row, how, user);
    assert LoggedAt(db, saved, ItemKey(id), |db1.log|);
  }

  lemma {:induction false} WithdrawAllKeepsEvents(db: Db, ids: seq<Id>, now: Time, actor: Id)
    requires forall n :: n in ids ==> n in db.notes
    ensures WithdrawAll(db, ids, now, actor).events == db.events
    decreases |ids|
  {
    if ids != [] {
      WithdrawAllKeepsEvents(SaveNote(db, ids[0], Withdrawn(db.notes[ids[0]], now), Delete, actor), ids[1..], now, actor);
    }
  }

  lemma {:induction false} BuryAllKeepsWorkspace(db: Db, ids: seq<Id>, now: Time, user: Id, id: Id)
    requires id in db.items && forall i :: i in ids ==> i in db.items
    ensures var db' := BuryAll(db, ids, now, user);
            id in db'.items && db'.items[id].ws == db.items[id].ws
    decreases |ids|
  {
    if ids != [] {
      BuryAllKeepsWorkspace(SaveItem(db, ids[0], Buried(db.items[ids[0]], now), Delete, user), ids[1..], now, user, id);
    }
  }

  lemma CreateEventTold(db: Db, ws: Id, user: Id, fields: EventFields, id: Id, env: Env)
    requires id !in db.events
    ensures Wrote(db, CreateEvent(db, ws, user, fields, id, env), EventKey(id), ws, 1, LastSeq(db.log) + 1)
  {
    var row := EventRow(ws, fields, user, 1, None);
    AnnounceExtends(SaveEvent(db, id, row, Upsert, user), id, user, EventCreated, {}, None, env.clock, env.hint);
    EventWritten(db, id, row, Upsert, user, CreateEvent(db, ws, user, fields, id, env));
  }

  lemma UpdateEventTold(db: Db, user: Id, id: Id, sent: Sent, env: Env)
    requires id in db.events && db.events[id].deletedAt.None?
    ensures Wrote(db, UpdateEvent(db, user, id, sent, env), EventKey(id), db.events[id].ws, db.events[id].version + 1,
                  LastSeq(db.log) + 1)
  {
    var row := Updated(db.events[id], sent);
    AnnounceExtends(SaveEvent(db, id, row, Upsert, user), id, user, EventChanged,
                    ChangesSince(db.events[id].fields, row.fields), None, env.clock, env.hint);
    EventWritten(db, id, row, Upsert, user, UpdateEvent(db, user, id, sent, env));
  }

  lemma DeleteEventTold(db: Db, user: Id, id: Id, env: Env)
    requires id in db.events
    ensures Wrote(db, DeleteEvent(db, user, id, env), EventKey(id), db.events[id].ws, db.events[id].version + 1,
                  LastSeq(db.log) + 1)
  {
    var row := Requests.Retired(db.events[id], env.utc);
    var saved := SaveEvent(db, id, row, Delete, user);
    WithdrawExtends(saved, user, id, env.clock);
    WithdrawAllKeepsEvents(saved, Ascending(DueAfter(saved.notes, id, env.clock)), env.clock, user);
    EventWritten(db, id, row, Delete, user, DeleteEvent(db, user, id, env));
  }

  lemma AnnouncementTold(db: Db, event: Id, actor: Id, kind: NoteKind, changes: set<Change>, message: Option<string>,
                         now: Time, hint: nat)
    requires event in db.events
    ensures var a := AnnounceSpec(db, event, actor, kind, changes, message, now, hint);
            a.Announced? ==> a.note in a.db.notes && LoggedAt(db, a.db, NoteKey(a.note), |a.db.log| - 1)
  {
  }

  lemma DeleteTreeTold(db: Db, ws: Id, id: Id, now: Time, user: Id)
    requires id in db.items
    ensures var db' := DeleteTree(db, ws, id, now, user);
            && id in db'.items
            && Wrote(db, db', ItemKey(id), db.items[id].ws, db'.items[id].version, LastSeq(db'.log))
  {
    var children := Ascending(Doomed(db.items, ws, id));
    BuryAllExtends(db, children, now, user);
    BuryAllKeepsWorkspace(db, children, now, user, id);
    var db1 := BuryAll(db, children, now, user);
    ItemWritten(db, db1, id, Buried(db1.items[id], now), Delete, user);
  }

  // --- The appliers ----------------------------------------------------------------------

  lemma EventCreateTells(db: Db, user: Id, ws: Id, op: Operation, env: Env)
    requires (op.entity, op.op) == ("event", "create")
    ensures Tells(db, ws, op, EventCreateSpec(db, user, ws, op, env))
  {
    hide CreateEvent, Wrote, Columns;
    var a := EventCreateSpec(db, user, ws, op, env);
    if a.Done? {
      var id := a.result.entityId.value;
      CreateEventTold(db, ws, user, Columns(op.payload.value.sent, OUTBOX_FIELDS), id, env);
    }
  }

  lemma EventUpdateTells(db: Db, user: Id, ws: Id, op: Operation, env: Env)
    requires (op.entity, op.op) == ("event", "update")
    ensures Tells(db, ws, op, EventUpdateSpec(db, user, ws, op, env))
  {
    hide UpdateEvent, Wrote;
    var a := EventUpdateSpec(db, user, ws, op, env);
    if a.Done? {
      var id := op.entityId.value;
      UpdateEventTold(db, user, id, op.payload.GetOr(EventBody(map[])).sent, env);
    }
  }

  lemma EventDeleteTells(db: Db, user: Id, ws: Id, op: Operation, env: Env)
    requires (op.entity, op.op) == ("event", "delete")
    ensures Tells(db, ws, op, EventDeleteSpec(db, user, ws, op, env))
  {
    hide DeleteEvent, Wrote;
    var a := EventDeleteSpec(db, user, ws, op, env);
    if a.Done? && a.result.seqNo.Some? {
      var id := op.entityId.value;
      DeleteEventTold(db, user, id, env);
    }
  }

  lemma NoteCreateTells(db: Db, user: Id, ws: Id, op: Operation, env: Env)
    requires (op.entity, op.op) == ("notification", "create")
    ensures Tells(db, ws, op, NoteCreateSpec(db, user, ws, op, env))
  {
    hide AnnounceSpec, Wrote;
    if op.entityId.Some? && op.entityId.value in db.events && op.payload.GetOr(NoteBody(None)).NoteBody? {
      AnnouncementTold(db, op.entityId.value, user, Manual, {}, op.payload.GetOr(NoteBody(None)).message, env.clock, env.hint);
    }
  }

  lemma ItemCreateTells(db: Db, user: Id, ws: Id, op: Operation, env: Env)
    requires (op.entity, op.op) == ("watchlist_item", "create")
    ensures Tells(db, ws, op, ItemCreateSpec(db, user, ws, op, env))
  {
    hide PlanCreate, Wrote, SaveItem;
    var a := ItemCreateSpec(db, user, ws, op, env);
    if a.Done? {
      var id, draft := a.result.entityId.value, op.payload.value.draft;
      var row := DraftRow(ws, user, draft, PlanCreate(db.items, ws, draft.parent, draft.after, draft.before).position);
      ItemWritten(db, db, id, row, Upsert, user);
    }
  }

  lemma ItemUpdateTells(db: Db, user: Id, ws: Id, op: Operation, env: Env)
    requires (op.entity, op.op) == ("watchlist_item", "update")
    ensures Tells(db, ws, op, ItemUpdateSpec(db, user, ws, op, env))
  {
    hide Wrote, SaveItem;
    var a := ItemUpdateSpec(db, user, ws, op, env);
    if a.Done? {
      var id := op.entityId.value;
      var row := Edited(db.items[id], op.payload.GetOr(EditBody(ItemEdit(None, None, None, None))).edit, user, env.utc);
      ItemWritten(db, db, id, row, Upsert, user);
    }
  }

  lemma ItemMoveTells(db: Db, user: Id, ws: Id, op: Operation, env: Env)
    requires (op.entity, op.op) == ("watchlist_item", "move")
    ensures Tells(db, ws, op, ItemMoveSpec(db, user, ws, op, env))
  {
    hide PlanMove, Wrote, SaveItem;
    var a := ItemMoveSpec(db, user, ws, op, env);
    if a.Done? {
      var id, target := op.entityId.value, op.payload.GetOr(MoveBody(Target(false, None, None, None))).target;
      var parent := NewParent(db.items[id], target);
      var row := Moved(db.items[id], parent, PlanMove(db.items, ws, id, parent, target.after, target.before, Some(id)).position);
      ItemWritten(db, db, id, row, Upsert, user);
    }
  }

  lemma ItemDeleteTells(db: Db, user: Id, ws: Id, op: Operation, env: Env)
    requires (op.entity, op.op) == ("watchlist_item", "delete")
    ensures Tells(db, ws, op, ItemDeleteSpec(db, user, ws, op, env))
  {
    hide DeleteTree, Wrote;
    var a := ItemDeleteSpec(db, user, ws, op, env);
    if a.Done? && a.result.seqNo.Some? {
      var id := op.entityId.value;
      DeleteTreeTold(db, ws, id, env.utc, user);
    }
  }

  /** Every operation's answer tells the truth. */
  lemma EveryAnswerTells(db: Db, user: Id, ws: Id, op: Operation, env: Env)
    ensures Tells(db, ws, op, Attempted(db, user, ws, op, env))
  {
    hide EventCreateSpec, EventUpdateSpec, EventDeleteSpec, NoteCreateSpec,
         ItemCreateSpec, ItemUpdateSpec, ItemMoveSpec, ItemDeleteSpec, AppliedTells, LiveRow;
    match (op.entity, op.op) {
      case ("event", "create") => EventCreateTells(db, user, ws, op, env);
      case ("event", "update") => EventUpdateTells(db, user, ws, op, env);
      case ("event", "delete") => EventDeleteTells(db, user, ws, op, env);
      case ("notification", "create") => NoteCreateTells(db, user, ws, op, env);
      case ("watchlist_item", "create") => ItemCreateTells(db, user, ws, op, env);
      case ("watchlist_item", "update") => ItemUpdateTells(db, user, ws, op, env);
      case ("watchlist_item", "delete") => ItemDeleteTells(db, user, ws, op, env);
      case ("watchlist_item", "move") => ItemMoveTells(db, user, ws, op, env);
      case _ =>
    }
  }

  /** The same of a new operation id once its answer is cached: an applied operation wrote
      what it says, any other wrote nothing. */
  ghost predicate TellsAfter(db: Db, db': Db, ws: Id, op: Operation, r: OperationResult) {
    && Tells(db, ws, op, if r.status == Applied then Done(db'.(applied := db.applied), r) else Failed(r))
    && (r.status != Applied ==> db'.(applied := db.applied) == db)
  }

  lemma NewAnswerTells(db: Db, user: Id, ws: Id, op: Operation, env: Env)
    requires op.opId !in db.applied
    ensures var (db', r) := ApplyOneSpec(db, user, ws, op, env); TellsAfter(db, db', ws, op, r)
  {
    EveryAnswerTells(db, user, ws, op, env);
    AttemptExtends(db, user, ws, op, env);
    hide Attempted, AppliedTells, StaleEdit;
  }
}
