/** What every reachable state of the server keeps, over any run of outbox
    operations and REST requests, and the exactly-once contract of the outbox. */
module Server {
  import opened Wrappers
  import opened ChangeLog
  import opened Notifications
  import opened Watchlist
  import opened Requests

  /** The invariant of the shared tables; `clock` is the latest database-clock
      reading a writer took. */
  ghost predicate Sound(db: Db, clock: Time) {
    && LogTells(db)
    && Forest(db.items)
    && RanksDistinct(db.items)
    && Spaced(db, clock)
  }

  // --- Events -------------------------------------------------------------------

  // Saving a live event row whose workspace and liveness persist.
  lemma SaveEventKeepsSound(db: Db, clock: Time, id: Id, row: EventRow, user: Id)
    requires Sound(db, clock) && row.deletedAt.None?
    requires NextVersion(Lookup(db, EventKey(id)), EventSnap(row), Upsert)
    ensures Sound(SaveEvent(db, id, row, Upsert, user), clock)
  {
    SaveEventKeepsLog(db, id, row, Upsert, user);
    WriteKeepsSpacing(db, SaveEvent(db, id, row, Upsert, user), clock, EventKey(id), EventSnap(row), Upsert, user);
  }

  lemma AnnounceKeepsSound(db: Db, clock: Time, event: Id, actor: Id, kind: NoteKind, changes: set<Change>,
                           message: Option<string>, now: Time, hint: nat)
    requires Sound(db, clock) && clock <= now && event in db.events
    ensures var a := AnnounceSpec(db, event, actor, kind, changes, message, now, hint);
            a.Announced? ==> Sound(a.db, now)
  {
    AnnounceKeepsLog(db, event, actor, kind, changes, message, now, hint);
    AnnounceKeepsSpacing(db, clock, event, actor, kind, changes, message, now, hint);
  }

  lemma CreateEventKeepsSound(db: Db, clock: Time, ws: Id, user: Id, fields: EventFields, id: Id, env: Env)
    requires Sound(db, clock) && clock <= env.clock && id !in db.events
    ensures Sound(CreateEvent(db, ws, user, fields, id, env), env.clock)
  {
    var row := EventRow(ws, fields, user, 1, None);
    SaveEventKeepsSound(db, clock, id, row, user);
    AnnounceKeepsSound(SaveEvent(db, id, row, Upsert, user), clock, id, user, EventCreated, {}, None, env.clock, env.hint);
  }

  lemma UpdateEventKeepsSound(db: Db, clock: Time, user: Id, id: Id, sent: Sent, env: Env)
    requires Sound(db, clock) && clock <= env.clock && id in db.events && db.events[id].deletedAt.None?
    ensures Sound(UpdateEvent(db, user, id, sent, env), env.clock)
  {
    var row := Updated(db.events[id], sent);
    SaveEventKeepsSound(db, clock, id, row, user);
    var logged := SaveEvent(db, id, row, Upsert, user);
    var changes := ChangesSince(db.events[id].fields, row.fields);
    if changes == {} {
      SpacedLater(logged, clock, env.clock);
    } else {
      AnnounceKeepsSound(logged, clock, id, user, EventChanged, changes, None, env.clock, env.hint);
    }
  }

  // Right after the event row is retired, only its pending notifications break the
  // spacing invariant.
  lemma RetiredEventLeavesPending(db: Db, clock: Time, id: Id, row: EventRow, user: Id, now: Time)
    requires LogTells(db) && Spaced(db, clock) && clock <= now
    requires id in db.events && db.events[id].deletedAt.None?
    requires row.ws == db.events[id].ws && row.deletedAt.Some?
    ensures var logged := SaveEvent(db, id, row, Delete, user);
            SpacedExcept(logged, now, Ascending(DueAfter(logged.notes, id, now)))
  {
    var logged := SaveEvent(db, id, row, Delete, user);
    var pending := DueAfter(logged.notes, id, now);
    forall n | n in db.notes ensures Windowed(logged.log, n) <==> Windowed(db.log, n) {
      NoteHasHistory(db, n);
      FirstEntryStays(db.log, EventKey(id), EventSnap(row), Delete, user, n);
    }
    forall n | n in logged.notes && n !in pending ensures SoundNote(logged, n, now) {
      assert SoundNote(db, n, clock);
    }
    forall n | n in pending ensures SoundNote(db, n, clock) {}
    forall a, b | a in logged.notes && b in logged.notes ensures FarApart(logged, a, b) {
      assert FarApart(db, a, b);
    }
  }

  lemma DeleteEventKeepsSound(db: Db, clock: Time, user: Id, id: Id, env: Env)
    requires Sound(db, clock) && clock <= env.clock && id in db.events && db.events[id].deletedAt.None?
    ensures Sound(DeleteEvent(db, user, id, env), env.clock)
  {
    var row := Retired(db.events[id], env.utc);
    var logged := SaveEvent(db, id, row, Delete, user);
    SaveEventKeepsLog(db, id, row, Delete, user);
    RetiredEventLeavesPending(db, clock, id, row, user, env.clock);
    WithdrawKeepsSpacing(logged, env.clock, Ascending(DueAfter(logged.notes, id, env.clock)), user, env.clock);
    WithdrawTakesThePending(logged, id, user, env.clock);
  }

  // --- Watchlist -----------------------------------------------------------------

  lemma SaveItemKeepsOthers(db: Db, clock: Time, id: Id, row: ItemRow, op: ChangeOp, user: Id)
    requires LogTells(db) && Spaced(db, clock)
    requires NextVersion(Lookup(db, ItemKey(id)), ItemSnap(row), op)
    ensures LogTells(SaveItem(db, id, row, op, user)) && Spaced(SaveItem(db, id, row, op, user), clock)
  {
    SaveItemKeepsLog(db, id, row, op, user);
    WriteKeepsSpacing(db, SaveItem(db, id, row, op, user), clock, ItemKey(id), ItemSnap(row), op, user);
  }

  lemma CreateItemKeepsSound(db: Db, clock: Time, ws: Id, user: Id, draft: ItemDraft, id: Id)
    requires Sound(db, clock) && id !in db.items
    requires PlanCreate(db.items, ws, draft.parent, draft.after, draft.before).At?
    ensures var p := PlanCreate(db.items, ws, draft.parent, draft.after, draft.before).position;
            Sound(SaveItem(db, id, DraftRow(ws, user, draft, p), Upsert, user), clock)
  {
    var p := PlanCreate(db.items, ws, draft.parent, draft.after, draft.before).position;
    var row := DraftRow(ws, user, draft, p);
    SaveItemKeepsOthers(db, clock, id, row, Upsert, user);
    CreateKeepsForest(db.items, ws, draft.parent, draft.after, draft.before, id, row);
    CreateRefinesOrder(db.items, ws, draft.parent, draft.after, draft.before, id, row);
  }

  lemma MoveItemKeepsSound(db: Db, clock: Time, ws: Id, user: Id, id: Id, parent: Option<Id>, after: Option<Id>,
                           before: Option<Id>, tail: Option<Id>)
    requires Sound(db, clock) && Live(db.items, ws, id)
    requires tail == None || tail == Some(id)
    requires PlanMove(db.items, ws, id, parent, after, before, tail).At?
    ensures var p := PlanMove(db.items, ws, id, parent, after, before, tail).position;
            Sound(SaveItem(db, id, Moved(db.items[id], parent, p), Upsert, user), clock)
  {
    var p := PlanMove(db.items, ws, id, parent, after, before, tail).position;
    var row := Moved(db.items[id], parent, p);
    SaveItemKeepsOthers(db, clock, id, row, Upsert, user);
    MoveKeepsForest(db.items, ws, id, parent, after, before, tail, row);
    MoveRefinesOrder(db.items, ws, id, parent, after, before, tail, row);
  }

  lemma EditItemKeepsSound(db: Db, clock: Time, ws: Id, user: Id, id: Id, edit: ItemEdit, env: Env)
    requires Sound(db, clock) && Live(db.items, ws, id)
    ensures Sound(EditItem(db, user, id, edit, env), clock)
  {
    var row := Edited(db.items[id], edit, user, env.utc);
    SaveItemKeepsOthers(db, clock, id, row, Upsert, user);
  }

  lemma {:induction false} BuryAllKeepsSpacing(db: Db, clock: Time, ids: seq<Id>, now: Time, user: Id)
    requires LogTells(db) && Spaced(db, clock)
    requires forall i :: i in ids ==> i in db.items && db.items[i].deletedAt.None?
    requires forall i, j :: 0 <= i < j < |ids| ==> ids[i] != ids[j]
    ensures Spaced(BuryAll(db, ids, now, user), clock)
    decreases |ids|
  {
    if ids != [] {
      var row := Buried(db.items[ids[0]], now);
      SaveItemKeepsOthers(db, clock, ids[0], row, Delete, user);
      BuryAllKeepsSpacing(SaveItem(db, ids[0], row, Delete, user), clock, ids[1..], now, user);
    }
  }

  lemma DeleteItemKeepsSound(db: Db, clock: Time, ws: Id, user: Id, id: Id, now: Time)
    requires Sound(db, clock) && Live(db.items, ws, id)
    ensures Sound(DeleteTree(db, ws, id, now, user), clock)
  {
    hide LogTells, Spaced, Forest, RanksDistinct, Recorded;
    var doomed := Doomed(db.items, ws, id);
    DeleteTakesTheTree(db, ws, id, now, user);
    DeleteKeepsLog(db, ws, id, now, user);
    TreeGoneKeepsShape(db.items, ws, id, now, DeleteTree(db, ws, id, now, user).items);
    BurySetBuries(db, doomed, now, user);
    BuryAllKeepsLog(db, Ascending(doomed), now, user);
    BuryAllKeepsSpacing(db, clock, Ascending(doomed), now, user);
    var db1 := BuryAll(db, Ascending(doomed), now, user);
    SaveItemKeepsOthers(db1, clock, id, Buried(db1.items[id], now), Delete, user);
  }

  // --- Requests --------------------------------------------------------------------

  lemma EventWriteKeepsSound(db: Db, clock: Time, user: Id, ws: Id, op: Operation, env: Env)
    requires Sound(db, clock) && clock <= env.clock
    ensures EventCreateSpec(db, user, ws, op, env).Done? ==> Sound(EventCreateSpec(db, user, ws, op, env).db, env.clock)
    ensures EventUpdateSpec(db, user, ws, op, env).Done? ==> Sound(EventUpdateSpec(db, user, ws, op, env).db, env.clock)
  {
    if EventCreateSpec(db, user, ws, op, env).Done? {
      var id := if op.entityId.Some? then op.entityId.value else NewId(db.events.Keys, env.hint);
      CreateEventKeepsSound(db, clock, ws, user, Columns(op.payload.value.sent, OUTBOX_FIELDS), id, env);
    }
    if EventUpdateSpec(db, user, ws, op, env).Done? {
      UpdateEventKeepsSound(db, clock, user, op.entityId.value, op.payload.GetOr(EventBody(map[])).sent, env);
    }
  }

  lemma EventOperationKeepsSound(db: Db, clock: Time, user: Id, ws: Id, op: Operation, env: Env)
    requires Sound(db, clock) && clock <= env.clock
    ensures EventCreateSpec(db, user, ws, op, env).Done? ==> Sound(EventCreateSpec(db, user, ws, op, env).db, env.clock)
    ensures EventUpdateSpec(db, user, ws, op, env).Done? ==> Sound(EventUpdateSpec(db, user, ws, op, env).db, env.clock)
    ensures EventDeleteSpec(db, user, ws, op, env).Done? ==> Sound(EventDeleteSpec(db, user, ws, op, env).db, env.clock)
    ensures NoteCreateSpec(db, user, ws, op, env).Done? ==> Sound(NoteCreateSpec(db, user, ws, op, env).db, env.clock)
  {
    SpacedLater(db, clock, env.clock);
    EventWriteKeepsSound(db, clock, user, ws, op, env);
    if EventDeleteSpec(db, user, ws, op, env).Done? {
      if db.events[op.entityId.value].deletedAt.None? {
        DeleteEventKeepsSound(db, clock, user, op.entityId.value, env);
      }
    }
    if NoteCreateSpec(db, user, ws, op, env).Done? {
      AnnounceKeepsSound(db, clock, op.entityId.value, user, Manual, {}, op.payload.GetOr(NoteBody(None)).message, env.clock, env.hint);
    }
  }

  lemma ItemOperationKeepsSound(db: Db, clock: Time, user: Id, ws: Id, op: Operation, env: Env)
    requires Sound(db, clock)
    ensures ItemCreateSpec(db, user, ws, op, env).Done? ==> Sound(ItemCreateSpec(db, user, ws, op, env).db, clock)
    ensures ItemUpdateSpec(db, user, ws, op, env).Done? ==> Sound(ItemUpdateSpec(db, user, ws, op, env).db, clock)
    ensures ItemMoveSpec(db, user, ws, op, env).Done? ==> Sound(ItemMoveSpec(db, user, ws, op, env).db, clock)
    ensures ItemDeleteSpec(db, user, ws, op, env).Done? ==> Sound(ItemDeleteSpec(db, user, ws, op, env).db, clock)
  {
    hide Sound, PlanCreate, PlanMove, DeleteTree, SaveItem, EditItem, NewId, Success, DraftRow, Moved;
    if ItemCreateSpec(db, user, ws, op, env).Done? {
      var id := if op.entityId.Some? then op.entityId.value else NewId(db.items.Keys, env.hint);
      CreateItemKeepsSound(db, clock, ws, user, op.payload.value.draft, id);
    }
    if ItemUpdateSpec(db, user, ws, op, env).Done? {
      EditItemKeepsSound(db, clock, ws, user, op.entityId.value,
                         op.payload.GetOr(EditBody(ItemEdit(None, None, None, None))).edit, env);
    }
    if ItemMoveSpec(db, user, ws, op, env).Done? {
      var id := op.entityId.value;
      var target := op.payload.GetOr(MoveBody(Target(false, None, None, None))).target;
      MoveItemKeepsSound(db, clock, ws, user, id, NewParent(db.items[id], target), target.after, target.before, Some(id));
    }
    if ItemDeleteSpec(db, user, ws, op, env).Done? {
      if db.items[op.entityId.value].deletedAt.None? {
        DeleteItemKeepsSound(db, clock, ws, user, op.entityId.value, env.utc);
      }
    }
  }

  lemma AttemptKeepsSound(db: Db, clock: Time, user: Id, ws: Id, op: Operation, env: Env)
    requires Sound(db, clock) && clock <= env.clock
    ensures Attempted(db, user, ws, op, env).Done? ==> Sound(Attempted(db, user, ws, op, env).db, env.clock)
  {
    hide EventCreateSpec, EventUpdateSpec, EventDeleteSpec, NoteCreateSpec,
         ItemCreateSpec, ItemUpdateSpec, ItemMoveSpec, ItemDeleteSpec;
    SpacedLater(db, clock, env.clock);
    EventOperationKeepsSound(db, clock, user, ws, op, env);
    ItemOperationKeepsSound(db, env.clock, user, ws, op, env);
  }

  lemma CachingKeepsSound(db: Db, clock: Time, applied: map<Id, AppliedOp>)
    requires Sound(db, clock)
    ensures Sound(db.(applied := applied), clock)
  {
  }

  lemma ApplyOneKeepsSound(db: Db, clock: Time, user: Id, ws: Id, op: Operation, env: Env)
    requires Sound(db, clock) && clock <= env.clock
    ensures Sound(ApplyOneSpec(db, user, ws, op, env).0, env.clock)
  {
    SpacedLater(db, clock, env.clock);
    AttemptKeepsSound(db, clock, user, ws, op, env);
    var attempt := Attempted(db, user, ws, op, env);
    var kept := if attempt.Done? then attempt.db else db;
    CachingKeepsSound(kept, env.clock, kept.applied[op.opId := AppliedOp(user, ws, attempt.result)]);
  }

  lemma RestEventKeepsSound(db: Db, clock: Time, r: Request)
    requires r.RestCreateEvent? || r.RestUpdateEvent? || r.RestDeleteEvent? || r.RestNotify?
    requires Sound(db, clock) && clock <= r.env.clock
    ensures Sound(RestEvent(db, r).0, r.env.clock)
  {
    SpacedLater(db, clock, r.env.clock);
    match r
    case RestCreateEvent(user, ws, sent, env) =>
      CreateEventKeepsSound(db, clock, ws, user, Columns(sent, ALL_FIELDS), NewId(db.events.Keys, env.hint), env);
    case RestUpdateEvent(user, ws, id, version, sent, env) =>
      if LiveEvent(db, ws, id) { UpdateEventKeepsSound(db, clock, user, id, sent, env); }
    case RestDeleteEvent(user, ws, id, env) =>
      if LiveEvent(db, ws, id) { DeleteEventKeepsSound(db, clock, user, id, env); }
    case RestNotify(user, ws, id, message, env) =>
      if LiveEvent(db, ws, id) { AnnounceKeepsSound(db, clock, id, user, Manual, {}, message, env.clock, env.hint); }
  }

  lemma RestItemKeepsSound(db: Db, clock: Time, r: Request)
    requires r.RestCreateItem? || r.RestUpdateItem? || r.RestCheckItem? || r.RestMoveItem? || r.RestDeleteItem?
    requires Sound(db, clock)
    ensures Sound(RestItem(db, r).0, clock)
  {
    match r
    case RestCreateItem(user, ws, draft, env) =>
      if PlanCreate(db.items, ws, draft.parent, draft.after, draft.before).At? {
        CreateItemKeepsSound(db, clock, ws, user, draft, NewId(db.items.Keys, env.hint));
      }
    case RestUpdateItem(user, ws, id, version, edit, env) =>
      if Live(db.items, ws, id) { EditItemKeepsSound(db, clock, ws, user, id, edit.(done := None), env); }
    case RestCheckItem(user, ws, id, version, done, env) =>
      if Live(db.items, ws, id) { EditItemKeepsSound(db, clock, ws, user, id, ItemEdit(None, None, None, Some(done)), env); }
    case RestMoveItem(user, ws, id, version, target, env) =>
      if Live(db.items, ws, id) {
        var parent := NewParent(db.items[id], target);
        if PlanMove(db.items, ws, id, parent, target.after, target.before, None).At? {
          MoveItemKeepsSound(db, clock, ws, user, id, parent, target.after, target.before, None);
        }
      }
    case RestDeleteItem(user, ws, id, env) =>
      if Live(db.items, ws, id) { DeleteItemKeepsSound(db, clock, ws, user, id, env.utc); }
  }

  lemma StepKeepsSound(db: Db, clock: Time, r: Request)
    requires Sound(db, clock) && clock <= r.env.clock
    ensures Sound(Step(db, r).0, r.env.clock)
  {
    if r.Apply? {
      ApplyOneKeepsSound(db, clock, r.user, r.ws, r.op, r.env);
    } else if r.RestCreateEvent? || r.RestUpdateEvent? || r.RestDeleteEvent? || r.RestNotify? {
      RestEventKeepsSound(db, clock, r);
    } else {
      SpacedLater(db, clock, r.env.clock);
      RestItemKeepsSound(db, r.env.clock, r);
    }
  }

  /** The database clock does not run backwards from one writer to the next. */
  ghost predicate ClockAdvances(clock: Time, rs: seq<Request>)
    decreases |rs|
  {
    rs == [] || (clock <= rs[0].env.clock && ClockAdvances(rs[0].env.clock, rs[1..]))
  }

  function LastClock(clock: Time, rs: seq<Request>): Time {
    if rs == [] then clock else rs[|rs| - 1].env.clock
  }

  /** In every reachable state the log tells every row's story, the watchlist is a
      forest with distinct sibling ranks, and notifications are spaced. */
  lemma {:induction false} ReachableIsSound(db: Db, clock: Time, rs: seq<Request>)
    requires Sound(db, clock) && ClockAdvances(clock, rs)
    ensures Sound(Run(db, rs).0, LastClock(clock, rs))
    decreases |rs|
  {
    if rs != [] {
      StepKeepsSound(db, clock, rs[0]);
      ReachableIsSound(Step(db, rs[0]).0, rs[0].env.clock, rs[1..]);
      assert LastClock(clock, rs) == LastClock(rs[0].env.clock, rs[1..]);
    }
  }

  // --- Exactly once ---------------------------------------------------------------------

  // No request touches the cache, except an operation caching itself; every request
  // only appends to the log.

  predicate Extends(db: Db, db': Db) {
    db'.applied == db.applied && db.log <= db'.log
  }

  lemma {:induction false} BuryAllExtends(db: Db, ids: seq<Id>, now: Time, user: Id)
    requires forall i :: i in ids ==> i in db.items
    ensures Extends(db, BuryAll(db, ids, now, user))
    decreases |ids|
  {
    if ids != [] {
      BuryAllExtends(SaveItem(db, ids[0], Buried(db.items[ids[0]], now), Delete, user), ids[1..], now, user);
    }
  }

  lemma {:induction false} WithdrawAllExtends(db: Db, ids: seq<Id>, now: Time, actor: Id)
    requires forall n :: n in ids ==> n in db.notes
    ensures Extends(db, WithdrawAll(db, ids, now, actor))
    decreases |ids|
  {
    if ids != [] {
      WithdrawAllExtends(SaveNote(db, ids[0], Withdrawn(db.notes[ids[0]], now), Delete, actor), ids[1..], now, actor);
    }
  }

  lemma DeleteExtends(db: Db, user: Id, ws: Id, id: Id, now: Time)
    requires id in db.items
    ensures Extends(db, DeleteTree(db, ws, id, now, user))
  {
    BuryAllExtends(db, Ascending(Doomed(db.items, ws, id)), now, user);
  }

  lemma WithdrawExtends(db: Db, user: Id, id: Id, now: Time)
    ensures Extends(db, WithdrawSpec(db, id, user, now))
  {
    WithdrawAllExtends(db, Ascending(DueAfter(db.notes, id, now)), now, user);
  }

  lemma AnnounceExtends(db: Db, event: Id, actor: Id, kind: NoteKind, changes: set<Change>, message: Option<string>,
                           now: Time, hint: nat)
    requires event in db.events
    ensures var a := AnnounceSpec(db, event, actor, kind, changes, message, now, hint);
            a.Announced? ==> Extends(db, a.db)
  {
  }

  lemma CreateEventExtends(db: Db, ws: Id, user: Id, fields: EventFields, id: Id, env: Env)
    requires id !in db.events
    ensures Extends(db, CreateEvent(db, ws, user, fields, id, env))
  {
  }

  lemma UpdateEventExtends(db: Db, user: Id, id: Id, sent: Sent, env: Env)
    requires id in db.events && db.events[id].deletedAt.None?
    ensures Extends(db, UpdateEvent(db, user, id, sent, env))
  {
    var row := Updated(db.events[id], sent);
    AnnounceExtends(SaveEvent(db, id, row, Upsert, user), id, user, EventChanged,
                       ChangesSince(db.events[id].fields, row.fields), None, env.clock, env.hint);
  }

  lemma DeleteEventExtends(db: Db, user: Id, id: Id, env: Env)
    requires id in db.events
    ensures Extends(db, DeleteEvent(db, user, id, env))
  {
    WithdrawExtends(SaveEvent(db, id, Retired(db.events[id], env.utc), Delete, user), user, id, env.clock);
  }

  lemma EventOperationExtends(db: Db, user: Id, ws: Id, op: Operation, env: Env)
    ensures EventCreateSpec(db, user, ws, op, env).Done? ==> Extends(db, EventCreateSpec(db, user, ws, op, env).db)
    ensures EventUpdateSpec(db, user, ws, op, env).Done? ==> Extends(db, EventUpdateSpec(db, user, ws, op, env).db)
    ensures EventDeleteSpec(db, user, ws, op, env).Done? ==> Extends(db, EventDeleteSpec(db, user, ws, op, env).db)
    ensures NoteCreateSpec(db, user, ws, op, env).Done? ==> Extends(db, NoteCreateSpec(db, user, ws, op, env).db)
  {
    hide CreateEvent, UpdateEvent, DeleteEvent, AnnounceSpec, Columns, Success, NewId;
    if EventCreateSpec(db, user, ws, op, env).Done? {
      var id := if op.entityId.Some? then op.entityId.value else NewId(db.events.Keys, env.hint);
      CreateEventExtends(db, ws, user, Columns(op.payload.value.sent, OUTBOX_FIELDS), id, env);
    }
    if op.entityId.Some? && op.entityId.value in db.events {
      var id := op.entityId.value;
      DeleteEventExtends(db, user, id, env);
      if NoteCreateSpec(db, user, ws, op, env).Done? {
        AnnounceExtends(db, id, user, Manual, {}, op.payload.GetOr(NoteBody(None)).message, env.clock, env.hint);
      }
      if EventUpdateSpec(db, user, ws, op, env).Done? {
        UpdateEventExtends(db, user, id, op.payload.GetOr(EventBody(map[])).sent, env);
      }
    }
  }

  lemma ItemOperationExtends(db: Db, user: Id, ws: Id, op: Operation, env: Env)
    ensures ItemCreateSpec(db, user, ws, op, env).Done? ==> Extends(db, ItemCreateSpec(db, user, ws, op, env).db)
    ensures ItemUpdateSpec(db, user, ws, op, env).Done? ==> Extends(db, ItemUpdateSpec(db, user, ws, op, env).db)
    ensures ItemMoveSpec(db, user, ws, op, env).Done? ==> Extends(db, ItemMoveSpec(db, user, ws, op, env).db)
    ensures ItemDeleteSpec(db, user, ws, op, env).Done? ==> Extends(db, ItemDeleteSpec(db, user, ws, op, env).db)
  {
    hide PlanCreate, PlanMove, DeleteTree, Success, NewId, Live, Edited, DraftRow, Moved, NewParent;
    if op.entityId.Some? && op.entityId.value in db.items {
      DeleteExtends(db, user, ws, op.entityId.value, env.utc);
    }
  }

  lemma AttemptExtends(db: Db, user: Id, ws: Id, op: Operation, env: Env)
    ensures Attempted(db, user, ws, op, env).Done? ==> Extends(db, Attempted(db, user, ws, op, env).db)
  {
    hide EventCreateSpec, EventUpdateSpec, EventDeleteSpec, NoteCreateSpec,
         ItemCreateSpec, ItemUpdateSpec, ItemMoveSpec, ItemDeleteSpec;
    EventOperationExtends(db, user, ws, op, env);
    ItemOperationExtends(db, user, ws, op, env);
  }

  lemma RestExtends(db: Db, r: Request)
    requires !r.Apply?
    ensures Extends(db, Step(db, r).0)
  {
    hide CreateEvent, UpdateEvent, DeleteEvent, Columns, NewId, PlanCreate, PlanMove, DeleteTree, Edited, Pending, Merged, NewNote;
    match r
    case RestCreateEvent(user, ws, sent, env) =>
      CreateEventExtends(db, ws, user, Columns(sent, ALL_FIELDS), NewId(db.events.Keys, env.hint), env);
    case RestUpdateEvent(user, ws, id, version, sent, env) =>
      if LiveEvent(db, ws, id) { UpdateEventExtends(db, user, id, sent, env); }
    case RestDeleteEvent(user, ws, id, env) =>
      if LiveEvent(db, ws, id) { DeleteEventExtends(db, user, id, env); }
    case RestNotify(user, ws, id, message, env) =>
      if LiveEvent(db, ws, id) { AnnounceExtends(db, id, user, Manual, {}, message, env.clock, env.hint); }
    case RestDeleteItem(user, ws, id, env) =>
      if Live(db.items, ws, id) { DeleteExtends(db, user, ws, id, env.utc); }
    case _ =>
  }

  /** A step adds the operation's own answer to the cache and changes no other. */
  lemma StepCaches(db: Db, r: Request)
    ensures var (db', reply) := Step(db, r);
            if r.Apply? then
              && r.op.opId in db'.applied
              && reply == Outcome(Replayed(db'.applied[r.op.opId], r.ws, r.op.opId))
              && (forall o :: o != r.op.opId ==> (o in db'.applied <==> o in db.applied))
              && (forall o :: o in db.applied ==> db'.applied[o] == db.applied[o])
            else db'.applied == db.applied
    ensures db.log <= Step(db, r).0.log
  {
    if r.Apply? {
      AttemptExtends(db, r.user, r.ws, r.op, r.env);
    } else {
      RestExtends(db, r);
    }
  }

  /** An operation that fails leaves every table and the log as they were; only its
      own cached answer is new. */
  lemma FailureChangesNothing(db: Db, user: Id, ws: Id, op: Operation, env: Env)
    requires op.opId !in db.applied && Attempted(db, user, ws, op, env).Failed?
    ensures var (db', result) := ApplyOneSpec(db, user, ws, op, env);
            && db'.events == db.events && db'.items == db.items && db'.notes == db.notes && db'.log == db.log
            && db'.applied == db.applied[op.opId := AppliedOp(user, ws, result)]
            && result.status != Applied
  {
    hide CreateEvent, UpdateEvent, DeleteEvent, AnnounceSpec, PlanCreate, PlanMove, DeleteTree, SaveItem, EditItem,
         Success, NewId, Columns, Live, DraftRow, Moved, NewParent;
  }

  /** The run with every repetition of an operation id left out. */
  function FirstsOnly(rs: seq<Request>, seen: set<Id>): seq<Request>
    decreases |rs|
  {
    if rs == [] then []
    else if rs[0].Apply? && rs[0].op.opId in seen then FirstsOnly(rs[1..], seen)
    else [rs[0]] + FirstsOnly(rs[1..], if rs[0].Apply? then seen + {rs[0].op.opId} else seen)
  }

  /** Exactly once: however operations are retried, reordered into later batches or
      interleaved with REST writes, the tables and the log end as if each
      operation id had been sent once. */
  lemma {:induction false} RepeatsChangeNothing(db: Db, rs: seq<Request>)
    ensures Run(db, rs).0 == Run(db, FirstsOnly(rs, db.applied.Keys)).0
    decreases |rs|
  {
    if rs != [] {
      StepCaches(db, rs[0]);
      var db1 := Step(db, rs[0]).0;
      RepeatsChangeNothing(db1, rs[1..]);
      if rs[0].Apply? && rs[0].op.opId in db.applied {
        assert db1 == db;
      } else {
        var seen' := if rs[0].Apply? then db.applied.Keys + {rs[0].op.opId} else db.applied.Keys;
        assert db1.applied.Keys == seen';
        var firsts := FirstsOnly(rs[1..], seen');
        assert FirstsOnly(rs, db.applied.Keys) == [rs[0]] + firsts;
        assert ([rs[0]] + firsts)[1..] == firsts;
      }
    }
  }

  lemma {:induction false} CacheNeverForgets(db: Db, rs: seq<Request>, opId: Id)
    requires opId in db.applied
    ensures opId in Run(db, rs).0.applied && Run(db, rs).0.applied[opId] == db.applied[opId]
    decreases |rs|
  {
    if rs != [] {
      StepCaches(db, rs[0]);
      CacheNeverForgets(Step(db, rs[0]).0, rs[1..], opId);
    }
  }

  lemma {:induction false} RunReplies(db: Db, rs: seq<Request>)
    ensures |Run(db, rs).1| == |rs|
    decreases |rs|
  {
    if rs != [] { RunReplies(Step(db, rs[0]).0, rs[1..]); }
  }

  // The reply to an operation is what the cache holds for it at the end of the run.
  lemma {:induction false} ReplyIsCached(db: Db, rs: seq<Request>, i: nat)
    requires i < |rs| && rs[i].Apply?
    ensures |Run(db, rs).1| == |rs|
    ensures var op := rs[i].op;
            && op.opId in Run(db, rs).0.applied
            && Run(db, rs).1[i] == Outcome(Replayed(Run(db, rs).0.applied[op.opId], rs[i].ws, op.opId))
    decreases |rs|
  {
    RunReplies(db, rs);
    StepCaches(db, rs[0]);
    var db1 := Step(db, rs[0]).0;
    if i == 0 {
      CacheNeverForgets(db1, rs[1..], rs[0].op.opId);
    } else {
      ReplyIsCached(db1, rs[1..], i - 1);
    }
  }

  /** Every repeat of an operation id from the same workspace gets the first answer
      verbatim, whatever happened in between. */
  lemma {:induction false} RepeatsGetTheFirstAnswer(db: Db, rs: seq<Request>, i: nat, j: nat)
    requires i < j < |rs| && rs[i].Apply? && rs[j].Apply?
    requires rs[i].op.opId == rs[j].op.opId && rs[i].ws == rs[j].ws
    ensures |Run(db, rs).1| == |rs| && Run(db, rs).1[j] == Run(db, rs).1[i]
  {
    ReplyIsCached(db, rs, i);
    ReplyIsCached(db, rs, j);
  }

  function Flatten(batches: seq<seq<Request>>): seq<Request> {
    if batches == [] then [] else batches[0] + Flatten(batches[1..])
  }

  function RunBatches(db: Db, batches: seq<seq<Request>>): Db
    decreases |batches|
  {
    if batches == [] then db else RunBatches(Run(db, batches[0]).0, batches[1..])
  }

  lemma {:induction false} RunAppends(db: Db, a: seq<Request>, b: seq<Request>)
    ensures Run(db, a + b).0 == Run(Run(db, a).0, b).0
    decreases |a|
  {
    if a == [] {
      assert a + b == b;
    } else {
      assert (a + b)[1..] == a[1..] + b;
      RunAppends(Step(db, a[0]).0, a[1..], b);
    }
  }

  /** How a client cuts its outbox into batches makes no difference. */
  lemma {:induction false} BatchingIsIrrelevant(db: Db, batches: seq<seq<Request>>)
    ensures RunBatches(db, batches) == Run(db, Flatten(batches)).0
    decreases |batches|
  {
    if batches != [] {
      BatchingIsIrrelevant(Run(db, batches[0]).0, batches[1..]);
      RunAppends(db, batches[0], Flatten(batches[1..]));
    }
  }
}
