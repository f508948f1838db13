/** Every way a client writes: the outbox operations of `sync/service.py` and the
    REST handlers of `api/v1/events.py` and `api/v1/watchlist.py`, over the tables
    they share. Request validation is outside: a body its schema rejects arrives
    as `Malformed`. */
module Requests {
  import opened Wrappers
  import opened ChangeLog
  import opened Notifications
  import opened Watchlist

  /** What a request draws from outside: the process clock, the database clock read
      under the event lock, and the identifier generator. */
  datatype Env = Env(utc: Time, clock: Time, hint: nat)

  /** The fields a body sent; None is an explicit null. */
  type Sent = map<EventField, Option<string>>

  datatype ItemEdit = ItemEdit(title: Option<string>, kind: Option<string>, note: Option<Option<string>>, done: Option<bool>)

  datatype ItemDraft = ItemDraft(title: string, kind: string, note: Option<string>, parent: Option<Id>,
                                 after: Option<Id>, before: Option<Id>)

  datatype Target = Target(setParent: bool, parent: Option<Id>, after: Option<Id>, before: Option<Id>)

  datatype Payload =
    | EventBody(sent: Sent)
    | NoteBody(message: Option<string>)
    | DraftBody(draft: ItemDraft)
    | EditBody(edit: ItemEdit)
    | MoveBody(target: Target)
    | Malformed

  datatype Operation = Operation(opId: Id, entity: string, op: string, entityId: Option<Id>,
                                 baseVersion: Option<nat>, payload: Option<Payload>)

  datatype Attempt = Done(db: Db, result: OperationResult) | Failed(result: OperationResult)

  // --- Results ----------------------------------------------------------------

  function Fail(opId: Id, status: Status, error: string): Attempt {
    Failed(OperationResult(opId, status, None, None, None, None, Some(error)))
  }

  function Stale(opId: Id, id: Id, current: nat): Attempt {
    Failed(OperationResult(opId, Conflict, Some(id), None, None, Some(current), None))
  }

  function Success(opId: Id, id: Id, version: nat, seqNo: Option<nat>): OperationResult {
    OperationResult(opId, Applied, Some(id), Some(version), seqNo, None, None)
  }

  // --- Events --------------------------------------------------------------------

  const ALL_FIELDS: set<EventField> :=
    {Title, Category, VenueId, StartsAt, EndsAt, VenueTimezone, Status, Source, Notes,
     CoverImageUrl, VenueImageUrl, VenueAddress, DepartureAt, SpotifyPlaylistUrl}

  /** The outbox create copies fewer columns than the REST one. */
  const OUTBOX_FIELDS: set<EventField> :=
    {Title, Category, VenueId, StartsAt, EndsAt, VenueTimezone, Status, Source, Notes}

  function Columns(sent: Sent, copied: set<EventField>): EventFields {
    map[Status := "planned", Source := "manual"] + map f | f in sent && f in copied && sent[f].Some? :: sent[f].value
  }

  function Patched(fields: EventFields, sent: Sent): EventFields {
    (fields - (set f | f in sent && sent[f].None?)) + map f | f in sent && sent[f].Some? :: sent[f].value
  }

  predicate LiveEvent(db: Db, ws: Id, id: Id) {
    id in db.events && db.events[id].ws == ws && db.events[id].deletedAt.None?
  }

  /** Insert, log, announce. */
  function CreateEvent(db: Db, ws: Id, user: Id, fields: EventFields, id: Id, env: Env): Db
    requires id !in db.events
  {
    var logged := SaveEvent(db, id, EventRow(ws, fields, user, 1, None), Upsert, user);
    AnnounceSpec(logged, id, user, EventCreated, {}, None, env.clock, env.hint).db
  }

  function Updated(row: EventRow, sent: Sent): EventRow {
    row.(fields := Patched(row.fields, sent), version := row.version + 1)
  }

  /** Patch, log, and announce only when a watched field changed. */
  function UpdateEvent(db: Db, user: Id, id: Id, sent: Sent, env: Env): Db
    requires id in db.events && db.events[id].deletedAt.None?
  {
    var row := Updated(db.events[id], sent);
    var logged := SaveEvent(db, id, row, Upsert, user);
    var changes := ChangesSince(db.events[id].fields, row.fields);
    if changes == {} then logged
    else AnnounceSpec(logged, id, user, EventChanged, changes, None, env.clock, env.hint).db
  }

  function Retired(row: EventRow, utc: Time): EventRow {
    row.(deletedAt := Some(utc), version := row.version + 1)
  }

  /** Soft-delete, log, withdraw what was still to come. */
  function DeleteEvent(db: Db, user: Id, id: Id, env: Env): Db
    requires id in db.events
  {
    var logged := SaveEvent(db, id, Retired(db.events[id], env.utc), Delete, user);
    WithdrawSpec(logged, id, user, env.clock)
  }

  function EventCreateSpec(db: Db, user: Id, ws: Id, op: Operation, env: Env): Attempt {
    if op.payload.None? then Fail(op.opId, Invalid, "missing payload")
    else if !op.payload.value.EventBody? then Fail(op.opId, Invalid, "invalid payload")
    else if op.entityId.Some? && op.entityId.value in db.events then Fail(op.opId, Invalid, "entity_id already exists")
    else
      var id := if op.entityId.Some? then op.entityId.value else NewId(db.events.Keys, env.hint);
      Done(CreateEvent(db, ws, user, Columns(op.payload.value.sent, OUTBOX_FIELDS), id, env),
           Success(op.opId, id, 1, Some(LastSeq(db.log) + 1)))
  }

  function EventUpdateSpec(db: Db, user: Id, ws: Id, op: Operation, env: Env): Attempt {
    if op.entityId.None? then Fail(op.opId, Invalid, "missing entity_id")
    else if op.baseVersion.None? then Fail(op.opId, Invalid, "missing base_version")
    else
      var id := op.entityId.value;
      if id !in db.events || db.events[id].ws != ws then Fail(op.opId, NotFound, "event not found")
      else if db.events[id].deletedAt.Some? then Fail(op.opId, NotFound, "event was deleted")
      else if db.events[id].version != op.baseVersion.value then Stale(op.opId, id, db.events[id].version)
      else
        match op.payload.GetOr(EventBody(map[]))
        case EventBody(sent) =>
          if Source in sent then Fail(op.opId, Invalid, "invalid payload")
          else
            Done(UpdateEvent(db, user, id, sent, env),
                 Success(op.opId, id, db.events[id].version + 1, Some(LastSeq(db.log) + 1)))
        case _ => Fail(op.opId, Invalid, "invalid payload")
  }

  function EventDeleteSpec(db: Db, user: Id, ws: Id, op: Operation, env: Env): Attempt {
    if op.entityId.None? then Fail(op.opId, Invalid, "missing entity_id")
    else
      var id := op.entityId.value;
      if id !in db.events || db.events[id].ws != ws then Fail(op.opId, NotFound, "event not found")
      else if db.events[id].deletedAt.Some? then Done(db, Success(op.opId, id, db.events[id].version, None))
      else
        Done(DeleteEvent(db, user, id, env),
             Success(op.opId, id, db.events[id].version + 1, Some(LastSeq(db.log) + 1)))
  }

  function NoteCreateSpec(db: Db, user: Id, ws: Id, op: Operation, env: Env): Attempt {
    if op.entityId.None? then Fail(op.opId, Invalid, "missing entity_id")
    else
      match op.payload.GetOr(NoteBody(None))
      case NoteBody(message) =>
        var id := op.entityId.value;
        if id !in db.events || db.events[id].ws != ws then Fail(op.opId, NotFound, "event not found")
        else (
          match AnnounceSpec(db, id, user, Manual, {}, message, env.clock, env.hint)
          case Gone => Fail(op.opId, NotFound, "event was deleted")
          case Announced(db', n) => Done(db', Success(op.opId, n, db'.notes[n].version, None)))
      case _ => Fail(op.opId, Invalid, "invalid payload")
  }

  // --- Watchlist ---------------------------------------------------------------------

  function RefusalResult(opId: Id, why: Refusal): Attempt {
    match why
    case BothAnchors => Fail(opId, Invalid, "specify only one of after_id / before_id")
    case AnchorNotFound => Fail(opId, NotFound, "anchor not found")
    case AnchorElsewhere => Fail(opId, Invalid, "anchor belongs to a different parent scope")
    case ParentNotFound => Fail(opId, NotFound, "parent not found")
    case TooDeep => Fail(opId, Invalid, "watchlist nests one level only")
    case OwnParent => Fail(opId, Invalid, "cannot make an item its own parent")
    case HasChildren => Fail(opId, Invalid, "cannot move a parent item under another parent")
  }

  function Edited(row: ItemRow, edit: ItemEdit, user: Id, utc: Time): ItemRow {
    var done := edit.done.GetOr(row.done);
    var row' := row.(title := edit.title.GetOr(row.title), kind := edit.kind.GetOr(row.kind),
                     note := edit.note.GetOr(row.note), version := row.version + 1);
    if done == row.done then row'
    else row'.(done := done, doneAt := if done then Some(utc) else None, doneBy := if done then Some(user) else None)
  }

  function EditItem(db: Db, user: Id, id: Id, edit: ItemEdit, env: Env): Db
    requires id in db.items
  {
    SaveItem(db, id, Edited(db.items[id], edit, user, env.utc), Upsert, user)
  }

  function DraftRow(ws: Id, user: Id, draft: ItemDraft, position: real): ItemRow {
    ItemRow(ws, draft.parent, draft.title, draft.kind, draft.note, position, false, None, None, user, 1, None)
  }

  function ItemCreateSpec(db: Db, user: Id, ws: Id, op: Operation, env: Env): Attempt {
    if op.payload.None? then Fail(op.opId, Invalid, "missing payload")
    else if !op.payload.value.DraftBody? then Fail(op.opId, Invalid, "invalid payload")
    else
      var draft := op.payload.value.draft;
      match PlanCreate(db.items, ws, draft.parent, draft.after, draft.before)
      case Refused(why) => RefusalResult(op.opId, why)
      case At(position) =>
        if op.entityId.Some? && op.entityId.value in db.items then Fail(op.opId, Invalid, "entity_id already exists")
        else
          var id := if op.entityId.Some? then op.entityId.value else NewId(db.items.Keys, env.hint);
          Done(SaveItem(db, id, DraftRow(ws, user, draft, position), Upsert, user),
               Success(op.opId, id, 1, Some(LastSeq(db.log) + 1)))
  }

  function ItemUpdateSpec(db: Db, user: Id, ws: Id, op: Operation, env: Env): Attempt {
    if op.entityId.None? then Fail(op.opId, Invalid, "missing entity_id")
    else if op.baseVersion.None? then Fail(op.opId, Invalid, "missing base_version")
    else
      var id := op.entityId.value;
      if !Live(db.items, ws, id) then Fail(op.opId, NotFound, "watchlist item not found")
      else if db.items[id].version != op.baseVersion.value then Stale(op.opId, id, db.items[id].version)
      else
        match op.payload.GetOr(EditBody(ItemEdit(None, None, None, None)))
        case EditBody(edit) =>
          Done(EditItem(db, user, id, edit, env),
               Success(op.opId, id, db.items[id].version + 1, Some(LastSeq(db.log) + 1)))
        case _ => Fail(op.opId, Invalid, "invalid payload")
  }

  function NewParent(row: ItemRow, target: Target): Option<Id> {
    if target.setParent then target.parent else row.parent
  }

  function ItemMoveSpec(db: Db, user: Id, ws: Id, op: Operation, env: Env): Attempt {
    if op.entityId.None? then Fail(op.opId, Invalid, "missing entity_id")
    else if op.baseVersion.None? then Fail(op.opId, Invalid, "missing base_version")
    else
      var id := op.entityId.value;
      if !Live(db.items, ws, id) then Fail(op.opId, NotFound, "watchlist item not found")
      else if db.items[id].version != op.baseVersion.value then Stale(op.opId, id, db.items[id].version)
      else
        match op.payload.GetOr(MoveBody(Target(false, None, None, None)))
        case MoveBody(target) => (
          var parent := NewParent(db.items[id], target);
          match PlanMove(db.items, ws, id, parent, target.after, target.before, Some(id))
          case Refused(why) => RefusalResult(op.opId, why)
          case At(position) =>
            Done(SaveItem(db, id, Moved(db.items[id], parent, position), Upsert, user),
                 Success(op.opId, id, db.items[id].version + 1, Some(LastSeq(db.log) + 1))))
        case _ => Fail(op.opId, Invalid, "invalid payload")
  }

  function ItemDeleteSpec(db: Db, user: Id, ws: Id, op: Operation, env: Env): Attempt {
    if op.entityId.None? then Fail(op.opId, Invalid, "missing entity_id")
    else
      var id := op.entityId.value;
      if id !in db.items || db.items[id].ws != ws then Fail(op.opId, NotFound, "watchlist item not found")
      else if db.items[id].deletedAt.Some? then Done(db, Success(op.opId, id, db.items[id].version, None))
      else
        var db' := DeleteTree(db, ws, id, env.utc, user);
        Done(db', Success(op.opId, id, db'.items[id].version, Some(LastSeq(db'.log))))
  }

  // --- The outbox ------------------------------------------------------------------------

  /** The dispatch table; an operation this server does not know fails alone. */
  function Attempted(db: Db, user: Id, ws: Id, op: Operation, env: Env): Attempt {
    if (op.entity, op.op) == ("event", "create") then EventCreateSpec(db, user, ws, op, env)
    else if (op.entity, op.op) == ("event", "update") then EventUpdateSpec(db, user, ws, op, env)
    else if (op.entity, op.op) == ("event", "delete") then EventDeleteSpec(db, user, ws, op, env)
    else if (op.entity, op.op) == ("notification", "create") then NoteCreateSpec(db, user, ws, op, env)
    else if (op.entity, op.op) == ("watchlist_item", "create") then ItemCreateSpec(db, user, ws, op, env)
    else if (op.entity, op.op) == ("watchlist_item", "update") then ItemUpdateSpec(db, user, ws, op, env)
    else if (op.entity, op.op) == ("watchlist_item", "delete") then ItemDeleteSpec(db, user, ws, op, env)
    else if (op.entity, op.op) == ("watchlist_item", "move") then ItemMoveSpec(db, user, ws, op, env)
    else Fail(op.opId, Invalid, "unsupported operation")
  }

  /** What a known operation id answers: the cached response, to its own workspace. */
  function Replayed(cached: AppliedOp, ws: Id, opId: Id): OperationResult {
    if cached.ws != ws then
      OperationResult(opId, Forbidden, None, None, None, None, Some("op_id belongs to another workspace"))
    else cached.response
  }

  /** `_apply_one`: the cache first, then the applier inside its savepoint. */
  function ApplyOneSpec(db: Db, user: Id, ws: Id, op: Operation, env: Env): (Db, OperationResult) {
    if op.opId in db.applied then (db, Replayed(db.applied[op.opId], ws, op.opId))
    else
      var attempt := Attempted(db, user, ws, op, env);
      var kept := if attempt.Done? then attempt.db else db;
      (kept.(applied := kept.applied[op.opId := AppliedOp(user, ws, attempt.result)]), attempt.result)
  }

  // --- The REST handlers --------------------------------------------------------------------

  datatype Request =
    | Apply(user: Id, ws: Id, op: Operation, env: Env)
    | RestCreateEvent(user: Id, ws: Id, sent: Sent, env: Env)
    | RestUpdateEvent(user: Id, ws: Id, id: Id, version: nat, sent: Sent, env: Env)
    | RestDeleteEvent(user: Id, ws: Id, id: Id, env: Env)
    | RestNotify(user: Id, ws: Id, id: Id, message: Option<string>, env: Env)
    | RestCreateItem(user: Id, ws: Id, draft: ItemDraft, env: Env)
    | RestUpdateItem(user: Id, ws: Id, id: Id, version: nat, edit: ItemEdit, env: Env)
    | RestCheckItem(user: Id, ws: Id, id: Id, version: nat, done: bool, env: Env)
    | RestMoveItem(user: Id, ws: Id, id: Id, version: nat, target: Target, env: Env)
    | RestDeleteItem(user: Id, ws: Id, id: Id, env: Env)

  datatype Reply = Outcome(result: OperationResult) | Ok(id: Id) | HttpError(code: nat)

  function RefusalCode(why: Refusal): nat {
    match why
    case AnchorNotFound => 404
    case ParentNotFound => 404
    case _ => 400
  }

  function RestEvent(db: Db, r: Request): (Db, Reply)
    requires r.RestCreateEvent? || r.RestUpdateEvent? || r.RestDeleteEvent? || r.RestNotify?
  {
    match r
    case RestCreateEvent(user, ws, sent, env) =>
      var id := NewId(db.events.Keys, env.hint);
      (CreateEvent(db, ws, user, Columns(sent, ALL_FIELDS), id, env), Ok(id))
    case RestUpdateEvent(user, ws, id, version, sent, env) =>
      if !LiveEvent(db, ws, id) then (db, HttpError(404))
      else if db.events[id].version != version then (db, HttpError(409))
      else (UpdateEvent(db, user, id, sent, env), Ok(id))
    case RestDeleteEvent(user, ws, id, env) =>
      if !LiveEvent(db, ws, id) then (db, HttpError(404))
      else (DeleteEvent(db, user, id, env), Ok(id))
    case RestNotify(user, ws, id, message, env) =>
      if !LiveEvent(db, ws, id) then (db, HttpError(404))
      else
        var a := AnnounceSpec(db, id, user, Manual, {}, message, env.clock, env.hint);
        (a.db, Ok(a.note))
  }

  function RestItem(db: Db, r: Request): (Db, Reply)
    requires r.RestCreateItem? || r.RestUpdateItem? || r.RestCheckItem? || r.RestMoveItem? || r.RestDeleteItem?
  {
    match r
    case RestCreateItem(user, ws, draft, env) => (
      match PlanCreate(db.items, ws, draft.parent, draft.after, draft.before)
      case Refused(why) => (db, HttpError(RefusalCode(why)))
      case At(position) =>
        var id := NewId(db.items.Keys, env.hint);
        (SaveItem(db, id, DraftRow(ws, user, draft, position), Upsert, user), Ok(id)))
    case RestUpdateItem(user, ws, id, version, edit, env) =>
      if !Live(db.items, ws, id) then (db, HttpError(404))
      else if db.items[id].version != version then (db, HttpError(409))
      else (EditItem(db, user, id, edit.(done := None), env), Ok(id))
    case RestCheckItem(user, ws, id, version, done, env) =>
      if !Live(db.items, ws, id) then (db, HttpError(404))
      else if db.items[id].version != version then (db, HttpError(409))
      else if db.items[id].done == done then (db, Ok(id))
      else (EditItem(db, user, id, ItemEdit(None, None, None, Some(done)), env), Ok(id))
    case RestMoveItem(user, ws, id, version, target, env) =>
      if !Live(db.items, ws, id) then (db, HttpError(404))
      else if db.items[id].version != version then (db, HttpError(409))
      else (
        var parent := NewParent(db.items[id], target);
        match PlanMove(db.items, ws, id, parent, target.after, target.before, None)
        case Refused(why) => (db, HttpError(RefusalCode(why)))
        case At(position) => (SaveItem(db, id, Moved(db.items[id], parent, position), Upsert, user), Ok(id)))
    case RestDeleteItem(user, ws, id, env) =>
      if !Live(db.items, ws, id) then (db, HttpError(404))
      else (DeleteTree(db, ws, id, env.utc, user), Ok(id))
  }

  function Step(db: Db, r: Request): (Db, Reply) {
    if r.Apply? then
      var (db', result) := ApplyOneSpec(db, r.user, r.ws, r.op, r.env);
      (db', Outcome(result))
    else if r.RestCreateEvent? || r.RestUpdateEvent? || r.RestDeleteEvent? || r.RestNotify? then RestEvent(db, r)
    else RestItem(db, r)
  }

  function Run(db: Db, rs: seq<Request>): (Db, seq<Reply>)
    decreases |rs|
  {
    if rs == [] then (db, [])
    else
      var (db1, reply) := Step(db, rs[0]);
      var (db2, replies) := Run(db1, rs[1..]);
      (db2, [reply] + replies)
  }
}
