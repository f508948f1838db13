/** When a request is accepted, and what it is answered when it is not: read off the rows,
    for every operation of the outbox and every REST handler. */
module Acceptance {
  import opened Wrappers
  import opened ChangeLog
  import opened Notifications
  import opened Watchlist
  import opened Requests

  // --- Where an item may go ------------------------------------------------------------------

  predicate ItemStands(items: Items, ws: Id, id: Id) {
    id in items && items[id].ws == ws && items[id].deletedAt == None
  }

  predicate EventStands(db: Db, ws: Id, id: Id) {
    id in db.events && db.events[id].ws == ws && db.events[id].deletedAt == None
  }

  /** No parent, or a live root of the workspace. */
  predicate ParentIsRoot(items: Items, ws: Id, parent: Option<Id>) {
    parent.Some? ==> ItemStands(items, ws, parent.value) && items[parent.value].parent == None
  }

  predicate OneAnchor(after: Option<Id>, before: Option<Id>) {
    after == None || before == None
  }

  function Anchor(after: Option<Id>, before: Option<Id>): Option<Id> {
    if after.Some? then after else before
  }

  /** No anchor, or a live row of the workspace in the scope. */
  predicate AnchorIsThere(items: Items, ws: Id, parent: Option<Id>, anchor: Option<Id>) {
    anchor.Some? ==> ItemStands(items, ws, anchor.value) && items[anchor.value].parent == parent
  }

  predicate MayCreate(items: Items, ws: Id, parent: Option<Id>, after: Option<Id>, before: Option<Id>) {
    ParentIsRoot(items, ws, parent) && OneAnchor(after, before) && AnchorIsThere(items, ws, parent, Anchor(after, before))
  }

  predicate IsParent(items: Items, id: Id) {
    exists c :: c in items && items[c].parent == Some(id) && items[c].deletedAt == None
  }

  /** Under another item only without children of its own, and never under itself. */
  predicate MayGoUnder(items: Items, id: Id, parent: Option<Id>) {
    parent.Some? ==> parent.value != id && !IsParent(items, id)
  }

  predicate MayMove(items: Items, ws: Id, id: Id, parent: Option<Id>, after: Option<Id>, before: Option<Id>) {
    MayGoUnder(items, id, parent) && MayCreate(items, ws, parent, after, before)
  }

  /** What can be wrong with the anchors. */
  ghost predicate AnchorsRefuse(items: Items, ws: Id, parent: Option<Id>, after: Option<Id>, before: Option<Id>, why: Refusal) {
    var anchor := Anchor(after, before);
    match why
    case BothAnchors => after.Some? && before.Some?
    case AnchorNotFound => OneAnchor(after, before) && anchor.Some? && !ItemStands(items, ws, anchor.value)
    case AnchorElsewhere =>
      OneAnchor(after, before) && anchor.Some? && ItemStands(items, ws, anchor.value) && items[anchor.value].parent != parent
    case _ => false
  }

  /** Which refusal is answered, parent first, then anchors. */
  ghost predicate RefusedFor(items: Items, ws: Id, parent: Option<Id>, after: Option<Id>, before: Option<Id>, why: Refusal) {
    match why
    case ParentNotFound => parent.Some? && !ItemStands(items, ws, parent.value)
    case TooDeep => parent.Some? && ItemStands(items, ws, parent.value) && items[parent.value].parent.Some?
    case _ => ParentIsRoot(items, ws, parent) && AnchorsRefuse(items, ws, parent, after, before, why)
  }

  /** A move is refused for its parent, its own children, or its anchors, in this order. */
  ghost predicate MoveRefusedFor(items: Items, ws: Id, id: Id, parent: Option<Id>, after: Option<Id>, before: Option<Id>,
                                 why: Refusal)
  {
    match why
    case OwnParent => parent == Some(id)
    case ParentNotFound => parent != Some(id) && RefusedFor(items, ws, parent, after, before, why)
    case TooDeep => parent != Some(id) && RefusedFor(items, ws, parent, after, before, why)
    case HasChildren => parent != Some(id) && parent.Some? && ParentIsRoot(items, ws, parent) && IsParent(items, id)
    case _ => MayGoUnder(items, id, parent) && RefusedFor(items, ws, parent, after, before, why)
  }

  lemma PlacedExactly(items: Items, ws: Id, parent: Option<Id>, after: Option<Id>, before: Option<Id>, moving: Option<Id>,
                      tail: Option<Id>)
    ensures var p := Place(items, ws, parent, after, before, moving, tail);
            && (p.At? <==> OneAnchor(after, before) && AnchorIsThere(items, ws, parent, Anchor(after, before)))
            && forall why :: p == Refused(why) <==> AnchorsRefuse(items, ws, parent, after, before, why)
  {
    hide RankAbove, RankBelow, LastRank, Scope;
  }

  lemma CreateIsPlannedExactly(items: Items, ws: Id, parent: Option<Id>, after: Option<Id>, before: Option<Id>)
    ensures var p := PlanCreate(items, ws, parent, after, before);
            && (p.At? <==> MayCreate(items, ws, parent, after, before))
            && forall why :: p == Refused(why) <==> RefusedFor(items, ws, parent, after, before, why)
  {
    PlacedExactly(items, ws, parent, after, before, None, None);
    hide Place, AnchorIsThere;
  }

  lemma MoveIsAllowed(items: Items, ws: Id, id: Id, parent: Option<Id>, after: Option<Id>, before: Option<Id>, tail: Option<Id>)
    ensures PlanMove(items, ws, id, parent, after, before, tail).At? <==> MayMove(items, ws, id, parent, after, before)
  {
    assert HasLiveChildren(items, id) <==> IsParent(items, id);
    PlacedExactly(items, ws, parent, after, before, Some(id), tail);
    hide Place, AnchorIsThere, HasLiveChildren, IsParent, OneAnchor, AnchorsRefuse;
  }

  lemma ParentRefusedExactly(items: Items, ws: Id, parent: Id)
    ensures var why := ParentRefusal(items, ws, parent);
            && (why == None <==> ParentIsRoot(items, ws, Some(parent)))
            && (why == Some(ParentNotFound) <==> !ItemStands(items, ws, parent))
            && (why == Some(TooDeep) <==> ItemStands(items, ws, parent) && items[parent].parent.Some?)
            && (why == None || why == Some(ParentNotFound) || why == Some(TooDeep))
  {
  }

  // Which of the refusals it is, one by one.
  lemma MoveRefusals(items: Items, ws: Id, id: Id, parent: Option<Id>, after: Option<Id>, before: Option<Id>, why: Refusal)
    ensures parent == Some(id) ==> (MoveRefusedFor(items, ws, id, parent, after, before, why) <==> why == OwnParent)
    ensures parent != Some(id) && !ParentIsRoot(items, ws, parent) ==>
              (MoveRefusedFor(items, ws, id, parent, after, before, why)
               <==> why == if ItemStands(items, ws, parent.value) then TooDeep else ParentNotFound)
    ensures parent != Some(id) && parent.Some? && ParentIsRoot(items, ws, parent) && IsParent(items, id) ==>
              (MoveRefusedFor(items, ws, id, parent, after, before, why) <==> why == HasChildren)
    ensures MayGoUnder(items, id, parent) && ParentIsRoot(items, ws, parent) ==>
              (MoveRefusedFor(items, ws, id, parent, after, before, why)
               <==> AnchorsRefuse(items, ws, parent, after, before, why))
  {
    assert why == OwnParent || why == ParentNotFound || why == TooDeep || why == HasChildren ==>
             !AnchorsRefuse(items, ws, parent, after, before, why);
    hide IsParent, AnchorsRefuse, ItemStands;
  }

  lemma MoveIsRefused(items: Items, ws: Id, id: Id, parent: Option<Id>, after: Option<Id>, before: Option<Id>, tail: Option<Id>,
                      why: Refusal)
    ensures PlanMove(items, ws, id, parent, after, before, tail) == Refused(why)
            <==> MoveRefusedFor(items, ws, id, parent, after, before, why)
  {
    assert HasLiveChildren(items, id) <==> IsParent(items, id);
    hide IsParent, HasLiveChildren, Place, MoveRefusedFor, AnchorsRefuse, ParentRefusal, ItemStands, ParentIsRoot;
    PlacedExactly(items, ws, parent, after, before, Some(id), tail);
    MoveRefusals(items, ws, id, parent, after, before, why);
    if parent.Some? { ParentRefusedExactly(items, ws, parent.value); } else { NoParentIsRoot(items, ws); }
  }

  lemma NoParentIsRoot(items: Items, ws: Id)
    ensures ParentIsRoot(items, ws, None)
  {
  }

  lemma MoveIsPlannedExactly(items: Items, ws: Id, id: Id, parent: Option<Id>, after: Option<Id>, before: Option<Id>,
                             tail: Option<Id>)
    ensures var p := PlanMove(items, ws, id, parent, after, before, tail);
            && (p.At? <==> MayMove(items, ws, id, parent, after, before))
            && forall why :: p == Refused(why) <==> MoveRefusedFor(items, ws, id, parent, after, before, why)
  {
    MoveIsAllowed(items, ws, id, parent, after, before, tail);
    hide PlanMove, MayMove, MoveRefusedFor;
    forall why
      ensures PlanMove(items, ws, id, parent, after, before, tail) == Refused(why)
              <==> MoveRefusedFor(items, ws, id, parent, after, before, why)
    {
      MoveIsRefused(items, ws, id, parent, after, before, tail, why);
    }
  }

  // --- The outbox ------------------------------------------------------------------------------

  predicate Missing(why: Refusal) {
    why == ParentNotFound || why == AnchorNotFound
  }

  function Wording(why: Refusal): string {
    match why
    case BothAnchors => "specify only one of after_id / before_id"
    case AnchorNotFound => "anchor not found"
    case AnchorElsewhere => "anchor belongs to a different parent scope"
    case ParentNotFound => "parent not found"
    case TooDeep => "watchlist nests one level only"
    case OwnParent => "cannot make an item its own parent"
    case HasChildren => "cannot move a parent item under another parent"
  }

  lemma RefusalIsWorded(opId: Id, why: Refusal)
    ensures var a := RefusalResult(opId, why);
            a.Failed? && a.result.status == (if Missing(why) then NotFound else Invalid) && a.result.error == Some(Wording(why))
  {
  }

  /** What an operation is answered. */
  datatype Verdict = Accepted | Answered(status: Status)

  function VerdictOf(a: Attempt): Verdict {
    if a.Done? then Accepted else Answered(a.result.status)
  }

  function DraftOf(op: Operation): ItemDraft
    requires op.payload.Some? && op.payload.value.DraftBody?
  {
    op.payload.value.draft
  }

  /** Creating an item: a body the schema accepts, a place for it, and an unused identifier. */
  lemma ItemCreateIsAccepted(db: Db, user: Id, ws: Id, op: Operation, env: Env)
    requires (op.entity, op.op) == ("watchlist_item", "create")
    ensures VerdictOf(Attempted(db, user, ws, op, env))
            == if op.payload.None? || !op.payload.value.DraftBody? then Answered(Invalid)
               else
                 var d := DraftOf(op);
                 if exists why :: Missing(why) && RefusedFor(db.items, ws, d.parent, d.after, d.before, why) then Answered(NotFound)
                 else if !MayCreate(db.items, ws, d.parent, d.after, d.before) then Answered(Invalid)
                 else if op.entityId.Some? && op.entityId.value in db.items then Answered(Invalid)
                 else Accepted
    ensures op.payload.Some? && op.payload.value.DraftBody? ==>
              forall why :: RefusedFor(db.items, ws, DraftOf(op).parent, DraftOf(op).after, DraftOf(op).before, why) ==>
                Attempted(db, user, ws, op, env).result.error == Some(Wording(why))
  {
    forall why { RefusalIsWorded(op.opId, why); }
    hide RefusalResult, Wording;
    if op.payload.Some? && op.payload.value.DraftBody? {
      var d := DraftOf(op);
      CreateIsPlannedExactly(db.items, ws, d.parent, d.after, d.before);
    }
    hide PlanCreate, RefusedFor, MayCreate, SaveItem, NewId, DraftRow;
  }

  function TargetOf(op: Operation): Option<Target> {
    match op.payload.GetOr(MoveBody(Target(false, None, None, None))) case MoveBody(t) => Some(t) case _ => None
  }

  /** The scope a move aims at. */
  function AimedAt(items: Items, id: Id, t: Target): Option<Id>
    requires id in items
  {
    if t.setParent then t.parent else items[id].parent
  }

  predicate TargetMissing(items: Items, ws: Id, id: Id, t: Target)
    requires id in items
  {
    var parent, anchor := AimedAt(items, id, t), Anchor(t.after, t.before);
    || (parent.Some? && parent.value != id && !ItemStands(items, ws, parent.value))
    || (MayGoUnder(items, id, parent) && ParentIsRoot(items, ws, parent) && OneAnchor(t.after, t.before)
        && anchor.Some? && !ItemStands(items, ws, anchor.value))
  }

  predicate TargetFits(items: Items, ws: Id, id: Id, t: Target)
    requires id in items
  {
    MayMove(items, ws, id, AimedAt(items, id, t), t.after, t.before)
  }

  lemma PlannedTarget(items: Items, ws: Id, id: Id, t: Target, tail: Option<Id>)
    requires id in items
    ensures var p := PlanMove(items, ws, id, AimedAt(items, id, t), t.after, t.before, tail);
            && (p.At? <==> TargetFits(items, ws, id, t))
            && ((p.Refused? && Missing(p.why)) <==> TargetMissing(items, ws, id, t))
            && forall why :: p == Refused(why) <==> MoveRefusedFor(items, ws, id, AimedAt(items, id, t), t.after, t.before, why)
  {
    var parent := AimedAt(items, id, t);
    var p := PlanMove(items, ws, id, parent, t.after, t.before, tail);
    MoveIsPlannedExactly(items, ws, id, parent, t.after, t.before, tail);
    hide PlanMove, MayMove, IsParent, ItemStands;
    assert TargetMissing(items, ws, id, t) <==>
      || MoveRefusedFor(items, ws, id, parent, t.after, t.before, ParentNotFound)
      || MoveRefusedFor(items, ws, id, parent, t.after, t.before, AnchorNotFound);
  }

  /** Moving an item: it is live, in the version the client knew, and may go there. */
  lemma ItemMoveIsAccepted(db: Db, user: Id, ws: Id, op: Operation, env: Env)
    requires (op.entity, op.op) == ("watchlist_item", "move")
    ensures VerdictOf(Attempted(db, user, ws, op, env))
            == if op.entityId.None? || op.baseVersion.None? then Answered(Invalid)
               else
                 var id := op.entityId.value;
                 if !ItemStands(db.items, ws, id) then Answered(NotFound)
                 else if db.items[id].version != op.baseVersion.value then Answered(Conflict)
                 else if TargetOf(op).None? then Answered(Invalid)
                 else if TargetMissing(db.items, ws, id, TargetOf(op).value) then Answered(NotFound)
                 else if !TargetFits(db.items, ws, id, TargetOf(op).value) then Answered(Invalid)
                 else Accepted
    ensures op.entityId.Some? && op.baseVersion.Some? && TargetOf(op).Some? && ItemStands(db.items, ws, op.entityId.value)
            && db.items[op.entityId.value].version == op.baseVersion.value ==>
              var id, t := op.entityId.value, TargetOf(op).value;
              forall why :: MoveRefusedFor(db.items, ws, id, AimedAt(db.items, id, t), t.after, t.before, why) ==>
                Attempted(db, user, ws, op, env).result.error == Some(Wording(why))
  {
    forall why { RefusalIsWorded(op.opId, why); }
    hide RefusalResult, Wording;
    if op.entityId.Some? && op.entityId.value in db.items && TargetOf(op).Some? {
      PlannedTarget(db.items, ws, op.entityId.value, TargetOf(op).value, Some(op.entityId.value));
    }
    hide PlanMove, TargetMissing, TargetFits, MoveRefusedFor, SaveItem, Moved;
  }

  function EditOf(op: Operation): Option<ItemEdit> {
    match op.payload.GetOr(EditBody(ItemEdit(None, None, None, None))) case EditBody(e) => Some(e) case _ => None
  }

  lemma ItemEditIsAccepted(db: Db, user: Id, ws: Id, op: Operation, env: Env)
    requires (op.entity, op.op) == ("watchlist_item", "update")
    ensures VerdictOf(Attempted(db, user, ws, op, env))
            == if op.entityId.None? || op.baseVersion.None? then Answered(Invalid)
               else if !ItemStands(db.items, ws, op.entityId.value) then Answered(NotFound)
               else if db.items[op.entityId.value].version != op.baseVersion.value then Answered(Conflict)
               else if EditOf(op).None? then Answered(Invalid)
               else Accepted
  {
    hide SaveItem, Edited;
  }

  /** Deleting what is gone is accepted, and so is deleting it in any version. */
  lemma DeletionIsAccepted(db: Db, user: Id, ws: Id, op: Operation, env: Env)
    requires op.op == "delete" && (op.entity == "event" || op.entity == "watchlist_item")
    ensures VerdictOf(Attempted(db, user, ws, op, env))
            == if op.entityId.None? then Answered(Invalid)
               else
                 var id := op.entityId.value;
                 var known := if op.entity == "event" then id in db.events && db.events[id].ws == ws
                              else id in db.items && db.items[id].ws == ws;
                 if known then Accepted else Answered(NotFound)
  {
    hide DeleteEvent, DeleteTree;
  }

  function SentOf(op: Operation): Option<Sent> {
    match op.payload.GetOr(EventBody(map[])) case EventBody(sent) => Some(sent) case _ => None
  }

  /** An event's `source` is set when it is created, never changed. */
  lemma EventWriteIsAccepted(db: Db, user: Id, ws: Id, op: Operation, env: Env)
    requires op.entity == "event" && (op.op == "create" || op.op == "update")
    ensures VerdictOf(Attempted(db, user, ws, op, env))
            == if op.op == "create" then
                 if op.payload.None? || SentOf(op).None? || (op.entityId.Some? && op.entityId.value in db.events) then Answered(Invalid)
                 else Accepted
               else if op.entityId.None? || op.baseVersion.None? then Answered(Invalid)
               else if !EventStands(db, ws, op.entityId.value) then Answered(NotFound)
               else if db.events[op.entityId.value].version != op.baseVersion.value then Answered(Conflict)
               else if SentOf(op).None? || Source in SentOf(op).value then Answered(Invalid)
               else Accepted
  {
    hide CreateEvent, UpdateEvent, Columns, NewId;
  }

  lemma NotificationIsAccepted(db: Db, user: Id, ws: Id, op: Operation, env: Env)
    requires (op.entity, op.op) == ("notification", "create")
    ensures VerdictOf(Attempted(db, user, ws, op, env))
            == if op.entityId.None? || (op.payload.Some? && !op.payload.value.NoteBody?) then Answered(Invalid)
               else if EventStands(db, ws, op.entityId.value) then Accepted
               else Answered(NotFound)
  {
    hide Pending, Merged, NewNote, SaveNote;
  }

  /** What the server does not know it does not do. */
  lemma UnknownIsInvalid(db: Db, user: Id, ws: Id, op: Operation, env: Env)
    ensures (op.entity, op.op) !in {("event", "create"), ("event", "update"), ("event", "delete"), ("notification", "create"),
                                     ("watchlist_item", "create"), ("watchlist_item", "update"), ("watchlist_item", "move"),
                                     ("watchlist_item", "delete")}
            ==> VerdictOf(Attempted(db, user, ws, op, env)) == Answered(Invalid)
  {
  }

  // --- REST ------------------------------------------------------------------------------------

  /** Which code the item handlers answer. */
  function ItemCode(db: Db, r: Request): Option<nat>
    requires r.RestCreateItem? || r.RestUpdateItem? || r.RestCheckItem? || r.RestMoveItem? || r.RestDeleteItem?
  {
    if r.RestCreateItem? then
      var d := r.draft;
      if (d.parent.Some? && !ItemStands(db.items, r.ws, d.parent.value))
         || (ParentIsRoot(db.items, r.ws, d.parent) && OneAnchor(d.after, d.before) && Anchor(d.after, d.before).Some?
             && !ItemStands(db.items, r.ws, Anchor(d.after, d.before).value)) then Some(404)
      else if !MayCreate(db.items, r.ws, d.parent, d.after, d.before) then Some(400)
      else None
    else if !ItemStands(db.items, r.ws, r.id) then Some(404)
    else if !r.RestDeleteItem? && db.items[r.id].version != r.version then Some(409)
    else if r.RestMoveItem? && TargetMissing(db.items, r.ws, r.id, r.target) then Some(404)
    else if r.RestMoveItem? && !TargetFits(db.items, r.ws, r.id, r.target) then Some(400)
    else None
  }

  /** Which code the event handlers answer. */
  function EventCode(db: Db, r: Request): Option<nat>
    requires r.RestCreateEvent? || r.RestUpdateEvent? || r.RestDeleteEvent? || r.RestNotify?
  {
    if r.RestCreateEvent? then None
    else if !EventStands(db, r.ws, r.id) then Some(404)
    else if r.RestUpdateEvent? && db.events[r.id].version != r.version then Some(409)
    else None
  }

  /** A stale or misdirected request is answered 409, 404 or 400 and writes nothing; any
      other is done. */
  lemma RestEventIsAnswered(db: Db, r: Request)
    requires r.RestCreateEvent? || r.RestUpdateEvent? || r.RestDeleteEvent? || r.RestNotify?
    ensures var (db', reply) := Step(db, r);
            match EventCode(db, r)
            case Some(code) => reply == HttpError(code) && db' == db
            case None => reply.Ok? && (r.RestUpdateEvent? || r.RestDeleteEvent? ==> reply.id == r.id)
  {
    hide CreateEvent, UpdateEvent, DeleteEvent, AnnounceSpec, Columns, NewId;
  }

  lemma RestItemIsAnswered(db: Db, r: Request)
    requires r.RestCreateItem? || r.RestUpdateItem? || r.RestCheckItem? || r.RestMoveItem? || r.RestDeleteItem?
    ensures var (db', reply) := Step(db, r);
            match ItemCode(db, r)
            case Some(code) => reply == HttpError(code) && db' == db
            case None => reply.Ok? && (!r.RestCreateItem? ==> reply.id == r.id)
  {
    if r.RestCreateItem? {
      var d := r.draft;
      CreateIsPlannedExactly(db.items, r.ws, d.parent, d.after, d.before);
    } else if r.RestMoveItem? && r.id in db.items {
      PlannedTarget(db.items, r.ws, r.id, r.target, None);
    }
    hide PlanCreate, PlanMove, TargetMissing, TargetFits, SaveItem, DeleteTree, DraftRow, Edited, Moved, NewId, MayCreate;
  }
}
