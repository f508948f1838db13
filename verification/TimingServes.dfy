/** The machine of the timing argument does what the server does: it announces as the server
    announces, and a drained page of the log is the page its phones read. */
module TimingServes {
  import opened Wrappers
  import opened ChangeLog
  import opened Notifications
  import NotificationTiming
  import Replica

  type Write = NotificationTiming.Write

  /** The notifications among the entries of a page. */
  function NotesIn(rows: seq<Entry>): seq<Write> {
    if rows == [] then []
    else
      var e := rows[|rows| - 1];
      NotesIn(rows[..|rows| - 1])
      + if e.key.NoteKey? && e.payload.NoteSnap? then [NotificationTiming.Write(e.key.id, e.payload.note)] else []
  }

  lemma {:induction false} NotesConcat(a: seq<Entry>, b: seq<Entry>)
    ensures NotesIn(a + b) == NotesIn(a) + NotesIn(b)
    decreases |b|
  {
    if b == [] {
      assert a + b == a;
    } else {
      assert (a + b)[..|a + b| - 1] == a + b[..|b| - 1];
      NotesConcat(a, b[..|b| - 1]);
    }
  }

  /** A page carries the clock that was read before its rows, and when it has no more it is
      what a phone of the machine reads: the rest of the log, drained as of that clock. */
  lemma {:induction false} DrainedPageIsRead(log: seq<Entry>, ws: Id, since: nat, limit: nat, clock: Time, k: nat,
                                             s: NotificationTiming.Sys, p: NotificationTiming.Phone, more: nat)
    requires SeqsIncrease(log) && k <= |Replica.ForWorkspace(log, ws)|
    requires forall i :: 0 <= i < k ==> Replica.ForWorkspace(log, ws)[i].seqNo <= since
    requires forall i :: k <= i < |Replica.ForWorkspace(log, ws)| ==> since < Replica.ForWorkspace(log, ws)[i].seqNo
    requires s.log == NotesIn(Replica.ForWorkspace(log, ws)) && p.cursor == |NotesIn(Replica.ForWorkspace(log, ws)[..k])|
    requires p.serverTime == Some(clock) && p.cursor + more >= |s.log|
    ensures Replica.FetchChanges(log, ws, since, limit, clock).serverTime == clock
    ensures p.cursor <= |s.log|
    ensures var page := Replica.FetchChanges(log, ws, since, limit, clock);
            !page.hasMore ==>
              NotificationTiming.PageRead(s, p, more)
              == p.(cursor := |s.log|, store := NotificationTiming.Applied(p.store, NotesIn(page.changes)),
                    serverTime := None, drained := Some(page.serverTime))
  {
    var all := Replica.ForWorkspace(log, ws);
    Replica.BeyondIsTail(log, ws, since, k);
    PageServes(log, ws, since, limit, clock);
    hide NotificationTiming.Applied, NotesIn, Replica.Beyond, Replica.FetchChanges, SeqsIncrease, NotificationTiming.PageRead;
    assert all == all[..k] + all[k..];
    NotesConcat(all[..k], all[k..]);
    RestIsRead(s, p, more, clock, NotesIn(all[..k]), NotesIn(all[k..]));
  }

  lemma {:induction false} PageServes(log: seq<Entry>, ws: Id, since: nat, limit: nat, clock: Time)
    ensures var page := Replica.FetchChanges(log, ws, since, limit, clock);
            page.serverTime == clock && (!page.hasMore ==> page.changes == Replica.Beyond(log, ws, since))
  {
    Replica.ProbeTells(log, ws, since, limit, clock);
    hide Replica.Beyond;
  }

  lemma {:induction false} RestIsRead(s: NotificationTiming.Sys, p: NotificationTiming.Phone, more: nat, clock: Time,
                                      read: seq<Write>, rest: seq<Write>)
    requires s.log == read + rest && p.cursor == |read| && p.serverTime == Some(clock) && p.cursor + more >= |s.log|
    ensures NotificationTiming.PageRead(s, p, more)
            == p.(cursor := |s.log|, store := NotificationTiming.Applied(p.store, rest), serverTime := None, drained := Some(clock))
  {
    hide NotificationTiming.Applied;
    assert s.log[p.cursor..|s.log|] == rest;
  }

  /** What is announced among these notifications, and under which identifier. */
  function Decided(notes: map<Id, NoteRow>, event: Id, ws: Id, actor: Id, kind: NoteKind, changes: set<Change>,
                   message: Option<string>, now: Time, hint: nat): Write
  {
    match Pending(notes, event, now)
    case Some(n) => NotificationTiming.Write(n, Merged(notes[n], kind, changes, message))
    case None => NotificationTiming.Write(NewId(notes.Keys, hint), NewNote(ws, event, actor, kind, changes, message, now))
  }

  lemma ServerDecides(db: Db, event: Id, actor: Id, kind: NoteKind, changes: set<Change>, message: Option<string>, now: Time,
                      hint: nat)
    requires event in db.events && db.events[event].deletedAt.None?
    ensures var a := AnnounceSpec(db, event, actor, kind, changes, message, now, hint);
            var w := Decided(db.notes, event, db.events[event].ws, actor, kind, changes, message, now, hint);
            a.Announced? && w.id == a.note && a.db.notes == db.notes[w.id := w.row]
  {
    hide Pending, Merged, NewNote, Recorded, NewId;
  }

  /** Under the lock, with nothing else in flight, the machine decides as the server: the same
      notification in the same words. */
  lemma MachineAnnouncesAlike(db: Db, s: NotificationTiming.Sys, event: Id, actor: Id, kind: NoteKind, changes: set<Change>,
                              message: Option<string>, hint: nat)
    requires event in db.events && db.events[event].deletedAt.None?
    requires s.notes == db.notes && s.open == map[event := NotificationTiming.Tx(None, [], false)]
    ensures var a := AnnounceSpec(db, event, actor, kind, changes, message, s.clock, hint);
            var w := NotificationTiming.Announced(s, event, db.events[event].ws, actor, kind, changes, message, hint);
            a.Announced? && w.id == a.note && a.db.notes == s.notes[w.id := w.row]
  {
    assert NotificationTiming.Applied(s.notes, s.open[event].writes) == s.notes;
    NothingInFlight(s, event);
    ServerDecides(db, event, actor, kind, changes, message, s.clock, hint);
    hide Pending, Merged, NewNote, NotificationTiming.Applied, NotificationTiming.UsedIds, NewId, AnnounceSpec;
  }

  lemma NothingInFlight(s: NotificationTiming.Sys, event: Id)
    requires s.open == map[event := NotificationTiming.Tx(None, [], false)]
    ensures NotificationTiming.UsedIds(s) == s.notes.Keys
  {
  }

  /** And it takes back what the server takes back. */
  lemma {:induction false} MachineWithdrawsAlike(db: Db, notes: map<Id, NoteRow>, ids: seq<Id>, now: Time, actor: Id)
    requires forall n :: n in ids ==> n in notes && n in db.notes && notes[n] == db.notes[n]
    requires forall i, j :: 0 <= i < j < |ids| ==> ids[i] != ids[j]
    ensures |NotificationTiming.Withdrawals(notes, ids, now)| == |ids|
    ensures forall i :: 0 <= i < |ids| ==>
              NotificationTiming.Withdrawals(notes, ids, now)[i]
              == NotificationTiming.Write(ids[i], WithdrawAll(db, ids, now, actor).notes[ids[i]])
  {
    WithdrawAllWithdraws(db, ids, now, actor);
    WithdrawalsAt(notes, ids, now);
    hide WithdrawAll;
    forall i | 0 <= i < |ids| ensures ids[i] in ids { }
  }

  lemma {:induction false} WithdrawalsAt(notes: map<Id, NoteRow>, ids: seq<Id>, now: Time)
    requires forall n :: n in ids ==> n in notes
    ensures |NotificationTiming.Withdrawals(notes, ids, now)| == |ids|
    ensures forall i :: 0 <= i < |ids| ==>
              NotificationTiming.Withdrawals(notes, ids, now)[i] == NotificationTiming.Write(ids[i], Withdrawn(notes[ids[i]], now))
    decreases |ids|
  {
    if ids != [] { WithdrawalsAt(notes, ids[1..], now); }
  }
}
