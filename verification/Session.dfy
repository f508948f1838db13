/** The same writes in the program's own form: one database session whose tables the
    appliers and handlers change in place, each held to its specification in `Requests`. */
module Session {
  import opened Wrappers
  import opened ChangeLog
  import opened Notifications
  import opened Watchlist
  import opened Requests
  import opened Server
  import opened Answers

  lemma SetColumn(fields: EventFields, f: EventField, value: Option<string>)
    ensures var set' := if value.Some? then fields[f := value.value] else fields - {f};
            forall g: EventField :: Column(set', g) == if g == f then value else Column(fields, g)
  {
    var set' := if value.Some? then fields[f := value.value] else fields - {f};
    forall g: EventField ensures Column(set', g) == if g == f then value else Column(fields, g) {
      assert g in set' <==> if g == f then value.Some? else g in fields;
    }
  }

  // Equal columns, equal fields.
  lemma SameColumns(a: EventFields, b: EventFields)
    requires forall f: EventField :: Column(a, f) == Column(b, f)
    ensures a == b
  {
    forall f ensures (f in a <==> f in b) && (f in a ==> a[f] == b[f]) { assert Column(a, f) == Column(b, f); }
    assert a.Keys == b.Keys;
  }

  lemma PatchedColumn(fields: EventFields, sent: Sent, f: EventField)
    ensures Column(Patched(fields, sent), f) == if f in sent then sent[f] else Column(fields, f)
  {
  }

  /** How an applier ends: it returns a result, or raises `_OperationFailed` with one. */
  datatype Verdict = Returned(result: OperationResult) | Raised(result: OperationResult)

  function Failure(opId: Id, status: Status, error: string): Verdict {
    Raised(Fail(opId, status, error).result)
  }

  /** A failed applier may leave anything behind: the savepoint is not its business. */
  predicate Meets(spec: Attempt, v: Verdict, after: Db) {
    match spec
    case Done(db, result) => v == Returned(result) && after == db
    case Failed(result) => v == Raised(result)
  }

  function Batch(user: Id, ws: Id, operations: seq<(Operation, Env)>): seq<Request> {
    if operations == [] then []
    else [Apply(user, ws, operations[0].0, operations[0].1)] + Batch(user, ws, operations[1..])
  }

  function Outcomes(results: seq<OperationResult>): seq<Reply> {
    seq(|results|, i requires 0 <= i < |results| => Outcome(results[i]))
  }

  class Tables {
    var events: map<Id, EventRow>
    var items: map<Id, ItemRow>
    var notes: map<Id, NoteRow>
    var log: seq<Entry>
    var applied: map<Id, AppliedOp>

    constructor ()
      ensures Contents() == EMPTY_DB
      ensures forall clock: Time :: Sound(Contents(), clock)
    {
      events, items, notes, log, applied := map[], map[], map[], [], map[];
      new;
      forall clock: Time ensures Sound(Contents(), clock) { }
    }

    function Contents(): Db
      reads this
    {
      Db(events, items, notes, log, applied)
    }

    // --- Notifications ---------------------------------------------------------------

    method WriteNote(n: Id, row: NoteRow, op: ChangeOp, actor: Id)
      modifies this`notes, this`log
      ensures Contents() == SaveNote(old(Contents()), n, row, op, actor)
    {
      notes := notes[n := row];
      log := Recorded(log, NoteKey(n), NoteSnap(row), op, actor);
    }

    method AnnounceEvent(event: Id, actor: Id, kind: NoteKind, changes: set<Change>, message: Option<string>,
                         now: Time, hint: nat)
      returns (note: Option<Id>)
      requires event in events
      modifies this`notes, this`log
      ensures match AnnounceSpec(old(Contents()), event, actor, kind, changes, message, now, hint)
              case Gone => note == None && Contents() == old(Contents())
              case Announced(db, n) => note == Some(n) && Contents() == db
    {
      hide Recorded, Normalized, StrongerKind, Pending, NewId;
      if events[event].deletedAt.Some? { return None; }
      var text := Normalized(message);
      var pending := Pending(notes, event, now);
      if pending.Some? {
        var n := pending.value;
        var row := notes[n];
        row := row.(kind := StrongerKind(row.kind, kind), changes := row.changes + changes);
        if text.Some? { row := row.(message := text); }
        row := row.(version := row.version + 1);
        WriteNote(n, row, Upsert, actor);
        return Some(n);
      }
      var n := NewId(notes.Keys, hint);
      var row := NoteRow(events[event].ws, event, kind, changes, text,
                         if kind == Manual then now else now + COALESCE_WINDOW, actor, 1, None);
      WriteNote(n, row, Upsert, actor);
      note := Some(n);
    }

    method WithdrawPending(event: Id, actor: Id, now: Time)
      modifies this`notes, this`log
      ensures Contents() == WithdrawSpec(old(Contents()), event, actor, now)
    {
      var rows := Ascending(DueAfter(notes, event, now));
      assert forall n :: n in rows ==> n in notes;
      ghost var withdrawn := WithdrawAll(Contents(), rows, now, actor);
      assert withdrawn == WithdrawSpec(Contents(), event, actor, now);
      hide Recorded, DueAfter, WithdrawSpec;
      var i := 0;
      while i < |rows|
        invariant 0 <= i <= |rows|
        invariant forall n :: n in rows ==> n in notes
        invariant events == old(events) && items == old(items) && applied == old(applied)
        invariant WithdrawAll(Contents(), rows[i..], now, actor) == withdrawn
      {
        var n := rows[i];
        assert rows[i..][1..] == rows[i + 1..];
        WriteNote(n, notes[n].(deletedAt := Some(now), version := notes[n].version + 1), Delete, actor);
        i := i + 1;
      }
      assert rows[i..] == [];
    }

    // --- What both entry points do to events --------------------------------------------

    method InsertEvent(ws: Id, user: Id, fields: EventFields, id: Id, env: Env)
      requires id !in events
      modifies this`events, this`notes, this`log
      ensures Contents() == CreateEvent(old(Contents()), ws, user, fields, id, env)
    {
      var row := EventRow(ws, fields, user, 1, None);
      events := events[id := row];
      log := Recorded(log, EventKey(id), EventSnap(row), Upsert, user);
      var note := AnnounceEvent(id, user, EventCreated, {}, None, env.clock, env.hint);
    }

    /** `for key, value in data.items(): setattr(event, key, value)`. */
    method SetAttributes(fields: EventFields, sent: Sent) returns (patched: EventFields)
      ensures patched == Patched(fields, sent)
    {
      hide Column, Patched;
      patched := fields;
      var keys := sent.Keys;
      while keys != {}
        invariant keys <= sent.Keys
        invariant forall f: EventField ::
          Column(patched, f) == if f in sent && f !in keys then sent[f] else Column(fields, f)
        decreases |keys|
      {
        var f :| f in keys;
        SetColumn(patched, f, sent[f]);
        if sent[f].Some? { patched := patched[f := sent[f].value]; } else { patched := patched - {f}; }
        keys := keys - {f};
      }
      forall f: EventField ensures Column(patched, f) == Column(Patched(fields, sent), f) { PatchedColumn(fields, sent, f); }
      SameColumns(patched, Patched(fields, sent));
    }

    method PatchEvent(user: Id, id: Id, sent: Sent, env: Env)
      requires id in events && events[id].deletedAt.None?
      modifies this`events, this`notes, this`log
      ensures Contents() == UpdateEvent(old(Contents()), user, id, sent, env)
    {
      var before := events[id].fields;
      var fields := SetAttributes(before, sent);
      var row := events[id].(fields := fields, version := events[id].version + 1);
      events := events[id := row];
      log := Recorded(log, EventKey(id), EventSnap(row), Upsert, user);
      var changes := ChangesSince(before, fields);
      if changes != {} {
        var note := AnnounceEvent(id, user, EventChanged, changes, None, env.clock, env.hint);
      }
    }

    method RetireEvent(user: Id, id: Id, env: Env)
      requires id in events
      modifies this`events, this`notes, this`log
      ensures Contents() == DeleteEvent(old(Contents()), user, id, env)
    {
      var row := events[id].(deletedAt := Some(env.utc), version := events[id].version + 1);
      events := events[id := row];
      log := Recorded(log, EventKey(id), EventSnap(row), Delete, user);
      WithdrawPending(id, user, env.clock);
    }

    // --- What both entry points do to watchlist items -------------------------------------

    method WriteItem(id: Id, row: ItemRow, op: ChangeOp, user: Id)
      modifies this`items, this`log
      ensures Contents() == SaveItem(old(Contents()), id, row, op, user)
    {
      items := items[id := row];
      log := Recorded(log, ItemKey(id), ItemSnap(row), op, user);
    }

    method SetItem(user: Id, id: Id, edit: ItemEdit, env: Env)
      requires id in items
      modifies this`items, this`log
      ensures Contents() == EditItem(old(Contents()), user, id, edit, env)
    {
      var row := items[id];
      if edit.title.Some? { row := row.(title := edit.title.value); }
      if edit.kind.Some? { row := row.(kind := edit.kind.value); }
      if edit.note.Some? { row := row.(note := edit.note.value); }
      if edit.done.Some? && edit.done.value != row.done {
        row := row.(done := edit.done.value);
        if row.done {
          row := row.(doneAt := Some(env.utc), doneBy := Some(user));
        } else {
          row := row.(doneAt := None, doneBy := None);
        }
      }
      row := row.(version := row.version + 1);
      WriteItem(id, row, Upsert, user);
    }

    method BuryTree(ws: Id, id: Id, now: Time, user: Id)
      requires id in items
      modifies this`items, this`log
      ensures Contents() == DeleteTree(old(Contents()), ws, id, now, user)
    {
      var children := Ascending(Doomed(items, ws, id));
      assert forall c :: c in children ==> c in items;
      hide Recorded, Doomed, LiveChildren;
      ghost var buried := BuryAll(Contents(), children, now, user);
      var i := 0;
      while i < |children|
        invariant 0 <= i <= |children|
        invariant items.Keys == old(items.Keys) && forall c :: c in children ==> c in items
        invariant events == old(events) && notes == old(notes) && applied == old(applied)
        invariant BuryAll(Contents(), children[i..], now, user) == buried
      {
        var c := children[i];
        assert children[i..][1..] == children[i + 1..];
        WriteItem(c, items[c].(deletedAt := Some(now), version := items[c].version + 1), Delete, user);
        i := i + 1;
      }
      assert children[i..] == [];
      WriteItem(id, items[id].(deletedAt := Some(now), version := items[id].version + 1), Delete, user);
    }

    // --- The outbox appliers ------------------------------------------------------------

    method ApplyEventCreate(user: Id, ws: Id, op: Operation, env: Env) returns (v: Verdict)
      modifies this
      ensures Meets(EventCreateSpec(old(Contents()), user, ws, op, env), v, Contents())
    {
      if op.payload.None? { return Failure(op.opId, Invalid, "missing payload"); }
      if !op.payload.value.EventBody? { return Failure(op.opId, Invalid, "invalid payload"); }
      var fields := Columns(op.payload.value.sent, OUTBOX_FIELDS);
      if op.entityId.Some? && op.entityId.value in events { return Failure(op.opId, Invalid, "entity_id already exists"); }
      var id := if op.entityId.Some? then op.entityId.value else NewId(events.Keys, env.hint);
      var seqNo := LastSeq(log) + 1;
      InsertEvent(ws, user, fields, id, env);
      v := Returned(Success(op.opId, id, 1, Some(seqNo)));
    }

    method ApplyEventUpdate(user: Id, ws: Id, op: Operation, env: Env) returns (v: Verdict)
      modifies this
      ensures Meets(EventUpdateSpec(old(Contents()), user, ws, op, env), v, Contents())
    {
      if op.entityId.None? { return Failure(op.opId, Invalid, "missing entity_id"); }
      if op.baseVersion.None? { return Failure(op.opId, Invalid, "missing base_version"); }
      var id := op.entityId.value;
      if id !in events || events[id].ws != ws { return Failure(op.opId, NotFound, "event not found"); }
      if events[id].deletedAt.Some? { return Failure(op.opId, NotFound, "event was deleted"); }
      if events[id].version != op.baseVersion.value { return Raised(Stale(op.opId, id, events[id].version).result); }
      var body := op.payload.GetOr(EventBody(map[]));
      if !body.EventBody? || Source in body.sent { return Failure(op.opId, Invalid, "invalid payload"); }
      var seqNo, version := LastSeq(log) + 1, events[id].version + 1;
      PatchEvent(user, id, body.sent, env);
      v := Returned(Success(op.opId, id, version, Some(seqNo)));
    }

    method ApplyEventDelete(user: Id, ws: Id, op: Operation, env: Env) returns (v: Verdict)
      modifies this
      ensures Meets(EventDeleteSpec(old(Contents()), user, ws, op, env), v, Contents())
    {
      if op.entityId.None? { return Failure(op.opId, Invalid, "missing entity_id"); }
      var id := op.entityId.value;
      if id !in events || events[id].ws != ws { return Failure(op.opId, NotFound, "event not found"); }
      if events[id].deletedAt.Some? { return Returned(Success(op.opId, id, events[id].version, None)); }
      var seqNo, version := LastSeq(log) + 1, events[id].version + 1;
      RetireEvent(user, id, env);
      v := Returned(Success(op.opId, id, version, Some(seqNo)));
    }

    method ApplyNotificationCreate(user: Id, ws: Id, op: Operation, env: Env) returns (v: Verdict)
      modifies this
      ensures Meets(NoteCreateSpec(old(Contents()), user, ws, op, env), v, Contents())
    {
      if op.entityId.None? { return Failure(op.opId, Invalid, "missing entity_id"); }
      var body := op.payload.GetOr(NoteBody(None));
      if !body.NoteBody? { return Failure(op.opId, Invalid, "invalid payload"); }
      var id := op.entityId.value;
      if id !in events || events[id].ws != ws { return Failure(op.opId, NotFound, "event not found"); }
      if events[id].deletedAt.Some? { return Failure(op.opId, NotFound, "event was deleted"); }
      var note := AnnounceEvent(id, user, Manual, {}, body.message, env.clock, env.hint);
      v := Returned(Success(op.opId, note.value, notes[note.value].version, None));
    }

    method ApplyWatchlistCreate(user: Id, ws: Id, op: Operation, env: Env) returns (v: Verdict)
      modifies this
      ensures Meets(ItemCreateSpec(old(Contents()), user, ws, op, env), v, Contents())
    {
      if op.payload.None? { return Failure(op.opId, Invalid, "missing payload"); }
      if !op.payload.value.DraftBody? { return Failure(op.opId, Invalid, "invalid payload"); }
      var draft := op.payload.value.draft;
      var place := PlanCreate(items, ws, draft.parent, draft.after, draft.before);
      if place.Refused? { return Raised(RefusalResult(op.opId, place.why).result); }
      if op.entityId.Some? && op.entityId.value in items { return Failure(op.opId, Invalid, "entity_id already exists"); }
      var id := if op.entityId.Some? then op.entityId.value else NewId(items.Keys, env.hint);
      var seqNo := LastSeq(log) + 1;
      WriteItem(id, DraftRow(ws, user, draft, place.position), Upsert, user);
      v := Returned(Success(op.opId, id, 1, Some(seqNo)));
    }

    method ApplyWatchlistUpdate(user: Id, ws: Id, op: Operation, env: Env) returns (v: Verdict)
      modifies this
      ensures Meets(ItemUpdateSpec(old(Contents()), user, ws, op, env), v, Contents())
    {
      if op.entityId.None? { return Failure(op.opId, Invalid, "missing entity_id"); }
      if op.baseVersion.None? { return Failure(op.opId, Invalid, "missing base_version"); }
      var id := op.entityId.value;
      if !Live(items, ws, id) { return Failure(op.opId, NotFound, "watchlist item not found"); }
      if items[id].version != op.baseVersion.value { return Raised(Stale(op.opId, id, items[id].version).result); }
      var body := op.payload.GetOr(EditBody(ItemEdit(None, None, None, None)));
      if !body.EditBody? { return Failure(op.opId, Invalid, "invalid payload"); }
      var seqNo, version := LastSeq(log) + 1, items[id].version + 1;
      SetItem(user, id, body.edit, env);
      v := Returned(Success(op.opId, id, version, Some(seqNo)));
    }

    method ApplyWatchlistMove(user: Id, ws: Id, op: Operation, env: Env) returns (v: Verdict)
      modifies this
      ensures Meets(ItemMoveSpec(old(Contents()), user, ws, op, env), v, Contents())
    {
      hide PlanMove, Recorded, LastSeq, NewParent;
      if op.entityId.None? { return Failure(op.opId, Invalid, "missing entity_id"); }
      if op.baseVersion.None? { return Failure(op.opId, Invalid, "missing base_version"); }
      var id := op.entityId.value;
      if !Live(items, ws, id) { return Failure(op.opId, NotFound, "watchlist item not found"); }
      if items[id].version != op.baseVersion.value { return Raised(Stale(op.opId, id, items[id].version).result); }
      var body := op.payload.GetOr(MoveBody(Target(false, None, None, None)));
      if !body.MoveBody? { return Failure(op.opId, Invalid, "invalid payload"); }
      var parent := NewParent(items[id], body.target);
      var place := PlanMove(items, ws, id, parent, body.target.after, body.target.before, Some(id));
      if place.Refused? { return Raised(RefusalResult(op.opId, place.why).result); }
      var seqNo, version := LastSeq(log) + 1, items[id].version + 1;
      WriteItem(id, items[id].(parent := parent, position := place.position, version := version), Upsert, user);
      v := Returned(Success(op.opId, id, version, Some(seqNo)));
    }

    method ApplyWatchlistDelete(user: Id, ws: Id, op: Operation, env: Env) returns (v: Verdict)
      modifies this
      ensures Meets(ItemDeleteSpec(old(Contents()), user, ws, op, env), v, Contents())
    {
      if op.entityId.None? { return Failure(op.opId, Invalid, "missing entity_id"); }
      var id := op.entityId.value;
      if id !in items || items[id].ws != ws { return Failure(op.opId, NotFound, "watchlist item not found"); }
      if items[id].deletedAt.Some? { return Returned(Success(op.opId, id, items[id].version, None)); }
      BuryTree(ws, id, env.utc, user);
      v := Returned(Success(op.opId, id, items[id].version, Some(LastSeq(log))));
    }

    method Dispatch(user: Id, ws: Id, op: Operation, env: Env) returns (v: Verdict)
      modifies this
      ensures Meets(Attempted(old(Contents()), user, ws, op, env), v, Contents())
    {
      hide EventCreateSpec, EventUpdateSpec, EventDeleteSpec, NoteCreateSpec,
           ItemCreateSpec, ItemUpdateSpec, ItemMoveSpec, ItemDeleteSpec;
      match (op.entity, op.op) {
        case ("event", "create") => v := ApplyEventCreate(user, ws, op, env);
        case ("event", "update") => v := ApplyEventUpdate(user, ws, op, env);
        case ("event", "delete") => v := ApplyEventDelete(user, ws, op, env);
        case ("notification", "create") => v := ApplyNotificationCreate(user, ws, op, env);
        case ("watchlist_item", "create") => v := ApplyWatchlistCreate(user, ws, op, env);
        case ("watchlist_item", "update") => v := ApplyWatchlistUpdate(user, ws, op, env);
        case ("watchlist_item", "delete") => v := ApplyWatchlistDelete(user, ws, op, env);
        case ("watchlist_item", "move") => v := ApplyWatchlistMove(user, ws, op, env);
        case _ => v := Failure(op.opId, Invalid, "unsupported operation");
      }
    }

    /** `_apply_one`: whatever an applier wrote before it failed is rolled back to the
        savepoint; the answer is cached either way. */
    method ApplyOne(user: Id, ws: Id, op: Operation, env: Env) returns (result: OperationResult)
      modifies this
      ensures (Contents(), result) == ApplyOneSpec(old(Contents()), user, ws, op, env)
      ensures old(op.opId !in applied) ==> TellsAfter(old(Contents()), Contents(), ws, op, result)
      ensures old(op.opId in applied) ==> Contents() == old(Contents())
    {
      if op.opId !in applied { NewAnswerTells(Contents(), user, ws, op, env); }
      hide Attempted, TellsAfter;
      if op.opId in applied {
        var cached := applied[op.opId];
        if cached.ws != ws {
          return OperationResult(op.opId, Forbidden, None, None, None, None, Some("op_id belongs to another workspace"));
        }
        return cached.response;
      }
      var savepoint := Contents();
      var v := Dispatch(user, ws, op, env);
      if v.Raised? {
        events, items, notes := savepoint.events, savepoint.items, savepoint.notes;
        log, applied := savepoint.log, savepoint.applied;
      }
      result := v.result;
      applied := applied[op.opId := AppliedOp(user, ws, result)];
    }

    /** `apply_operations`: one batch, in order. */
    method ApplyOperations(user: Id, ws: Id, operations: seq<(Operation, Env)>) returns (results: seq<OperationResult>)
      modifies this
      ensures (Contents(), Outcomes(results)) == Run(old(Contents()), Batch(user, ws, operations))
    {
      hide ApplyOneSpec;
      results := [];
      var i := 0;
      while i < |operations|
        invariant 0 <= i <= |operations|
        invariant Run(Contents(), Batch(user, ws, operations[i..])).0 == Run(old(Contents()), Batch(user, ws, operations)).0
        invariant Outcomes(results) + Run(Contents(), Batch(user, ws, operations[i..])).1
               == Run(old(Contents()), Batch(user, ws, operations)).1
      {
        ghost var rest := Batch(user, ws, operations[i..]);
        assert operations[i..][1..] == operations[i + 1..];
        assert rest == [Apply(user, ws, operations[i].0, operations[i].1)] + Batch(user, ws, operations[i + 1..]);
        assert rest[1..] == Batch(user, ws, operations[i + 1..]);
        ghost var before := Contents();
        var result := ApplyOne(user, ws, operations[i].0, operations[i].1);
        assert Step(before, rest[0]) == (Contents(), Outcome(result));
        assert Outcomes(results + [result]) == Outcomes(results) + [Outcome(result)];
        ghost var later := Run(Contents(), Batch(user, ws, operations[i + 1..]));
        assert Outcomes(results) + ([Outcome(result)] + later.1) == Outcomes(results + [result]) + later.1;
        results := results + [result];
        i := i + 1;
      }
      assert operations[i..] == [];
      assert Run(Contents(), []) == (Contents(), []);
      assert Outcomes(results) + [] == Outcomes(results);
    }

    // --- The REST handlers -------------------------------------------------------------------

    method HandleEvent(r: Request) returns (reply: Reply)
      requires r.RestCreateEvent? || r.RestUpdateEvent? || r.RestDeleteEvent? || r.RestNotify?
      modifies this
      ensures (Contents(), reply) == RestEvent(old(Contents()), r)
    {
      match r {
        case RestCreateEvent(user, ws, sent, env) =>
          var id := NewId(events.Keys, env.hint);
          InsertEvent(ws, user, Columns(sent, ALL_FIELDS), id, env);
          reply := Reply.Ok(id);
        case RestUpdateEvent(user, ws, id, version, sent, env) =>
          if !LiveEvent(Contents(), ws, id) { return HttpError(404); }
          if events[id].version != version { return HttpError(409); }
          PatchEvent(user, id, sent, env);
          reply := Reply.Ok(id);
        case RestDeleteEvent(user, ws, id, env) =>
          if !LiveEvent(Contents(), ws, id) { return HttpError(404); }
          RetireEvent(user, id, env);
          reply := Reply.Ok(id);
        case RestNotify(user, ws, id, message, env) =>
          if !LiveEvent(Contents(), ws, id) { return HttpError(404); }
          var note := AnnounceEvent(id, user, Manual, {}, message, env.clock, env.hint);
          reply := Reply.Ok(note.value);
      }
    }

    method HandleItem(r: Request) returns (reply: Reply)
      requires r.RestCreateItem? || r.RestUpdateItem? || r.RestCheckItem? || r.RestMoveItem? || r.RestDeleteItem?
      modifies this
      ensures (Contents(), reply) == RestItem(old(Contents()), r)
    {
      hide PlanCreate, PlanMove, DeleteTree, EditItem, NewId, Recorded;
      match r {
        case RestCreateItem(user, ws, draft, env) =>
          var place := PlanCreate(items, ws, draft.parent, draft.after, draft.before);
          if place.Refused? { return HttpError(RefusalCode(place.why)); }
          var id := NewId(items.Keys, env.hint);
          WriteItem(id, DraftRow(ws, user, draft, place.position), Upsert, user);
          reply := Reply.Ok(id);
        case RestUpdateItem(user, ws, id, version, edit, env) =>
          if !Live(items, ws, id) { return HttpError(404); }
          if items[id].version != version { return HttpError(409); }
          SetItem(user, id, edit.(done := None), env);
          reply := Reply.Ok(id);
        case RestCheckItem(user, ws, id, version, done, env) =>
          if !Live(items, ws, id) { return HttpError(404); }
          if items[id].version != version { return HttpError(409); }
          if items[id].done != done { SetItem(user, id, ItemEdit(None, None, None, Some(done)), env); }
          reply := Reply.Ok(id);
        case RestMoveItem(user, ws, id, version, target, env) =>
          if !Live(items, ws, id) { return HttpError(404); }
          if items[id].version != version { return HttpError(409); }
          var parent := NewParent(items[id], target);
          var place := PlanMove(items, ws, id, parent, target.after, target.before, None);
          if place.Refused? { return HttpError(RefusalCode(place.why)); }
          WriteItem(id, items[id].(parent := parent, position := place.position, version := items[id].version + 1), Upsert, user);
          reply := Reply.Ok(id);
        case RestDeleteItem(user, ws, id, env) =>
          if !Live(items, ws, id) { return HttpError(404); }
          BuryTree(ws, id, env.utc, user);
          reply := Reply.Ok(id);
      }
    }

    /** Any request at all: specified by `Step`, and the shared tables stay sound. */
    method Handle(r: Request, ghost clock: Time) returns (reply: Reply)
      modifies this
      ensures (Contents(), reply) == Step(old(Contents()), r)
      ensures old(Sound(Contents(), clock)) && clock <= r.env.clock ==> Sound(Contents(), r.env.clock)
    {
      hide ApplyOneSpec, RestEvent, RestItem, Sound;
      ghost var before := Contents();
      if Sound(before, clock) && clock <= r.env.clock { StepKeepsSound(before, clock, r); }
      if r.Apply? {
        var result := ApplyOne(r.user, r.ws, r.op, r.env);
        reply := Outcome(result);
      } else if r.RestCreateEvent? || r.RestUpdateEvent? || r.RestDeleteEvent? || r.RestNotify? {
        reply := HandleEvent(r);
      } else {
        reply := HandleItem(r);
      }
    }
  }
}
