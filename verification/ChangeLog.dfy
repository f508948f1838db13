/** The synchronised tables and the append-only change log every write goes
    through: `domain/models.py` and `sync/changelog.py`.

    A `serialize_*` mapper copies every column into the payload, so a payload is
    the row itself. Instants are microseconds of the server's clocks. */
module ChangeLog {
  import opened Wrappers

  type Id = nat
  type Time = int

  datatype EventField =
    | Title | Category | VenueId | StartsAt | EndsAt | VenueTimezone | Status | Source | Notes
    | CoverImageUrl | VenueImageUrl | VenueAddress | DepartureAt | SpotifyPlaylistUrl

  /** An absent field is a null column. */
  type EventFields = map<EventField, string>

  datatype EventRow = EventRow(ws: Id, fields: EventFields, createdBy: Id, version: nat, deletedAt: Option<Time>)

  datatype ItemRow = ItemRow(
    ws: Id, parent: Option<Id>, title: string, kind: string, note: Option<string>, position: real,
    done: bool, doneAt: Option<Time>, doneBy: Option<Id>, createdBy: Id, version: nat, deletedAt: Option<Time>)

  datatype NoteKind = EventChanged | Manual | EventCreated
  datatype Change = Venue | Program

  datatype NoteRow = NoteRow(
    ws: Id, event: Id, kind: NoteKind, changes: set<Change>, message: Option<string>, deliverAfter: Time,
    createdBy: Id, version: nat, deletedAt: Option<Time>)

  datatype Snapshot = EventSnap(event: EventRow) | ItemSnap(item: ItemRow) | NoteSnap(note: NoteRow) {
    function Ws(): Id {
      match this case EventSnap(r) => r.ws case ItemSnap(r) => r.ws case NoteSnap(r) => r.ws
    }
    function Version(): nat {
      match this case EventSnap(r) => r.version case ItemSnap(r) => r.version case NoteSnap(r) => r.version
    }
    predicate Deleted() {
      match this case EventSnap(r) => r.deletedAt.Some? case ItemSnap(r) => r.deletedAt.Some? case NoteSnap(r) => r.deletedAt.Some?
    }
  }

  datatype Key = EventKey(id: Id) | ItemKey(id: Id) | NoteKey(id: Id)

  datatype ChangeOp = Upsert | Delete

  datatype Entry = Entry(seqNo: nat, ws: Id, key: Key, op: ChangeOp, payload: Snapshot, actor: Id)

  datatype Status = Applied | Conflict | NotFound | Invalid | Forbidden

  datatype OperationResult = OperationResult(
    opId: Id, status: Status, entityId: Option<Id>, version: Option<nat>, seqNo: Option<nat>,
    currentVersion: Option<nat>, error: Option<string>)

  datatype AppliedOp = AppliedOp(actor: Id, ws: Id, response: OperationResult)

  datatype Db = Db(
    events: map<Id, EventRow>,
    items: map<Id, ItemRow>,
    notes: map<Id, NoteRow>,
    log: seq<Entry>,
    applied: map<Id, AppliedOp>)

  const EMPTY_DB := Db(map[], map[], map[], [], map[])

  function Lookup(db: Db, k: Key): Option<Snapshot> {
    match k
    case EventKey(id) => if id in db.events then Some(EventSnap(db.events[id])) else None
    case ItemKey(id) => if id in db.items then Some(ItemSnap(db.items[id])) else None
    case NoteKey(id) => if id in db.notes then Some(NoteSnap(db.notes[id])) else None
  }

  function LastSeq(log: seq<Entry>): nat {
    if log == [] then 0 else log[|log| - 1].seqNo
  }

  /** `record_*_change`: one more entry, under the next sequence number. */
  function Recorded(log: seq<Entry>, k: Key, s: Snapshot, op: ChangeOp, actor: Id): seq<Entry> {
    log + [Entry(LastSeq(log) + 1, s.Ws(), k, op, s, actor)]
  }

  function SaveEvent(db: Db, id: Id, row: EventRow, op: ChangeOp, actor: Id): Db {
    db.(events := db.events[id := row], log := Recorded(db.log, EventKey(id), EventSnap(row), op, actor))
  }

  function SaveItem(db: Db, id: Id, row: ItemRow, op: ChangeOp, actor: Id): Db {
    db.(items := db.items[id := row], log := Recorded(db.log, ItemKey(id), ItemSnap(row), op, actor))
  }

  function SaveNote(db: Db, id: Id, row: NoteRow, op: ChangeOp, actor: Id): Db {
    db.(notes := db.notes[id := row], log := Recorded(db.log, NoteKey(id), NoteSnap(row), op, actor))
  }

  /** The entries of one entity, oldest first. */
  function History(log: seq<Entry>, k: Key): seq<Entry> {
    if log == [] then []
    else
      var e := log[|log| - 1];
      History(log[..|log| - 1], k) + if e.key == k then [e] else []
  }

  ghost predicate SeqsIncrease(log: seq<Entry>) {
    && (forall i :: 0 <= i < |log| ==> 0 < log[i].seqNo)
    && (forall i, j :: 0 <= i < j < |log| ==> log[i].seqNo < log[j].seqNo)
  }

  /** What the log must say about an entity whose row is `s`: versions 1..n with
      no gap, the row as the last payload, and a DELETE entry exactly at the end
      of a soft-deleted row's history. */
  ghost predicate Chronicle(h: seq<Entry>, s: Option<Snapshot>) {
    match s
    case None => h == []
    case Some(row) =>
      && |h| == row.Version() > 0
      && h[|h| - 1].payload == row
      && forall i :: 0 <= i < |h| ==>
          && h[i].payload.Version() == i + 1
          && h[i].ws == h[i].payload.Ws() == row.Ws()
          && (h[i].op == Delete <==> i == |h| - 1 && row.Deleted())
          && (h[i].op == Delete <==> h[i].payload.Deleted())
  }

  ghost predicate LogTells(db: Db) {
    && SeqsIncrease(db.log)
    && forall k: Key :: Chronicle(History(db.log, k), Lookup(db, k))
  }

  /** A write may append to an entity's history: the first version of a row that
      does not exist, or the next version of a live one. */
  ghost predicate NextVersion(was: Option<Snapshot>, s: Snapshot, op: ChangeOp) {
    && (op == Delete <==> s.Deleted())
    && match was
       case None => s.Version() == 1
       case Some(row) => !row.Deleted() && s.Version() == row.Version() + 1 && s.Ws() == row.Ws()
  }

  lemma {:induction false} ChronicleGrows(h: seq<Entry>, was: Option<Snapshot>, e: Entry)
    requires Chronicle(h, was)
    requires e.ws == e.payload.Ws() && NextVersion(was, e.payload, e.op)
    ensures Chronicle(h + [e], Some(e.payload))
  {
  }

  /** The one way rows change keeps the log telling their story. */
  lemma WriteKeepsLog(db: Db, db': Db, k: Key, s: Snapshot, op: ChangeOp, actor: Id)
    requires LogTells(db)
    requires db'.log == Recorded(db.log, k, s, op, actor)
    requires NextVersion(Lookup(db, k), s, op)
    requires Lookup(db', k) == Some(s)
    requires forall q: Key :: q != k ==> Lookup(db', q) == Lookup(db, q)
    ensures LogTells(db')
  {
    forall q: Key ensures Chronicle(History(db'.log, q), Lookup(db', q)) {
      if q == k {
        ChronicleGrows(History(db.log, k), Lookup(db, k), db'.log[|db.log|]);
      } else {
        assert History(db'.log, q) == History(db.log, q);
      }
    }
  }

  lemma SaveEventKeepsLog(db: Db, id: Id, row: EventRow, op: ChangeOp, actor: Id)
    requires LogTells(db) && NextVersion(Lookup(db, EventKey(id)), EventSnap(row), op)
    ensures LogTells(SaveEvent(db, id, row, op, actor))
  {
    WriteKeepsLog(db, SaveEvent(db, id, row, op, actor), EventKey(id), EventSnap(row), op, actor);
  }

  lemma SaveItemKeepsLog(db: Db, id: Id, row: ItemRow, op: ChangeOp, actor: Id)
    requires LogTells(db) && NextVersion(Lookup(db, ItemKey(id)), ItemSnap(row), op)
    ensures LogTells(SaveItem(db, id, row, op, actor))
  {
    WriteKeepsLog(db, SaveItem(db, id, row, op, actor), ItemKey(id), ItemSnap(row), op, actor);
  }

  lemma SaveNoteKeepsLog(db: Db, id: Id, row: NoteRow, op: ChangeOp, actor: Id)
    requires LogTells(db) && NextVersion(Lookup(db, NoteKey(id)), NoteSnap(row), op)
    ensures LogTells(SaveNote(db, id, row, op, actor))
  {
    WriteKeepsLog(db, SaveNote(db, id, row, op, actor), NoteKey(id), NoteSnap(row), op, actor);
  }
}
