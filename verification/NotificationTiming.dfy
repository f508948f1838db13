/** The timing argument of `notifications.py` and `fetch_changes`: writers that hold an
    event's row lock from their clock reading to their commit, phones that read the
    server's clock before each page, in every interleaving.

    A writer is expected to commit within MERGE_MARGIN of the first clock it read under
    the lock. A phone decides what to show only after a page without `has_more`. */
module NotificationTiming {
  import opened Wrappers
  import opened ChangeLog
  import opened Notifications

  /** One version of a notification: a `change_log` row of type notification. */
  datatype Write = Write(id: Id, row: NoteRow)

  /** An open transaction holding one event's lock. */
  datatype Tx = Tx(firstRead: Option<Time>, writes: seq<Write>, deleting: bool)

  /** A phone: how much of the log it has read, its local store, the server time of the
      page being read, that of the last drained pull, and what it has shown. */
  datatype Phone = Phone(cursor: nat, store: NoteTable, serverTime: Option<Time>, drained: Option<Time>,
                         shown: map<Id, NoteRow>)

  const NEW_PHONE := Phone(0, map[], None, None, map[])

  datatype Sys = Sys(clock: Time, notes: NoteTable, gone: set<Id>, log: seq<Write>, open: map<Id, Tx>,
                     phones: map<Id, Phone>)

  function Start(clock: Time): Sys {
    Sys(clock, map[], {}, [], map[], map[])
  }

  function Applied(notes: NoteTable, writes: seq<Write>): NoteTable {
    if writes == [] then notes
    else
      var last := writes[|writes| - 1];
      Applied(notes, writes[..|writes| - 1])[last.id := last.row]
  }

  /** Identifiers in use, committed or not. */
  function UsedIds(s: Sys): set<Id> {
    s.notes.Keys + set e, i | e in s.open && 0 <= i < |s.open[e].writes| :: s.open[e].writes[i].id
  }

  // --- Steps ------------------------------------------------------------------------

  /** `announce`'s decision on what the transaction sees of the table. */
  function Announced(s: Sys, event: Id, ws: Id, actor: Id, kind: NoteKind, changes: set<Change>,
                     message: Option<string>, hint: nat): Write
    requires event in s.open
  {
    var seen := Applied(s.notes, s.open[event].writes);
    match Pending(seen, event, s.clock)
    case Some(n) => Write(n, Merged(seen[n], kind, changes, message))
    case None => Write(NewId(UsedIds(s), hint), NewNote(ws, event, actor, kind, changes, message, s.clock))
  }

  function Withdrawals(seen: NoteTable, ids: seq<Id>, now: Time): seq<Write>
    requires forall n :: n in ids ==> n in seen
  {
    if ids == [] then [] else [Write(ids[0], Withdrawn(seen[ids[0]], now))] + Withdrawals(seen, ids[1..], now)
  }

  datatype Move =
    | Tick(to: Time)
    | Lock(event: Id)
    | Announce(event: Id, ws: Id, actor: Id, kind: NoteKind, changes: set<Change>, message: Option<string>, hint: nat)
    | Withdraw(event: Id)
    | Commit(event: Id)
    | Abort(event: Id)
    | ReadClock(phone: Id)
    | ReadPage(phone: Id, limit: nat)
    | Show(phone: Id, note: Id)

  /** The transaction's effects become visible: rows, log, lock. */
  function Published(s: Sys, event: Id): Sys
    requires event in s.open
  {
    var tx := s.open[event];
    s.(notes := Applied(s.notes, tx.writes), log := s.log + tx.writes, open := s.open - {event},
       gone := if tx.deleting then s.gone + {event} else s.gone)
  }

  predicate InTime(s: Sys, tx: Tx) {
    tx.firstRead.None? || s.clock <= tx.firstRead.value + MERGE_MARGIN
  }

  function PageRead(s: Sys, p: Phone, limit: nat): Phone
    requires p.cursor <= |s.log| && p.serverTime.Some?
  {
    var next := if p.cursor + limit < |s.log| then p.cursor + limit else |s.log|;
    var store := Applied(p.store, s.log[p.cursor..next]);
    if next < |s.log| then p.(cursor := next, store := store, serverTime := None, drained := None)
    else p.(cursor := next, store := store, serverTime := None, drained := p.serverTime)
  }

  function PhoneOf(s: Sys, id: Id): Phone {
    if id in s.phones then s.phones[id] else NEW_PHONE
  }

  predicate Showable(p: Phone, n: Id) {
    p.drained.Some? && n in p.store && p.store[n].deletedAt.None? && p.store[n].deliverAfter <= p.drained.value
  }

  /** A move that is not possible now changes nothing. */
  function Step(s: Sys, m: Move): Sys {
    match m
    case Tick(to) => if s.clock <= to then s.(clock := to) else s
    case Lock(event) => if event in s.open then s else s.(open := s.open[event := Tx(None, [], false)])
    case Announce(event, ws, actor, kind, changes, message, hint) =>
      if event !in s.open || event in s.gone || s.open[event].deleting then s
      else
        var tx := s.open[event];
        var w := Announced(s, event, ws, actor, kind, changes, message, hint);
        s.(open := s.open[event := tx.(firstRead := Some(tx.firstRead.GetOr(s.clock)), writes := tx.writes + [w])])
    case Withdraw(event) =>
      if event !in s.open then s
      else
        var tx := s.open[event];
        var seen := Applied(s.notes, tx.writes);
        var ws := Withdrawals(seen, Ascending(DueAfter(seen, event, s.clock)), s.clock);
        s.(open := s.open[event := tx.(writes := tx.writes + ws, deleting := true)])
    case Commit(event) => if event in s.open && InTime(s, s.open[event]) then Published(s, event) else s
    case Abort(event) => s.(open := s.open - {event})
    case ReadClock(phone) => s.(phones := s.phones[phone := PhoneOf(s, phone).(serverTime := Some(s.clock))])
    case ReadPage(phone, limit) =>
      var p := PhoneOf(s, phone);
      if p.serverTime.None? || limit == 0 || p.cursor > |s.log| then s
      else s.(phones := s.phones[phone := PageRead(s, p, limit)])
    case Show(phone, note) =>
      var p := PhoneOf(s, phone);
      if Showable(p, note) && note !in p.shown then
        s.(phones := s.phones[phone := p.(shown := p.shown[note := p.store[note]])])
      else s
  }

  function Run(s: Sys, moves: seq<Move>): Sys
    decreases |moves|
  {
    if moves == [] then s else Run(Step(s, moves[0]), moves[1..])
  }

  // --- What holds throughout -----------------------------------------------------------

  /** The version is the newest, or the notification was withdrawn since. */
  predicate Final(notes: NoteTable, n: Id, row: NoteRow) {
    n in notes && (notes[n] == row || notes[n].deletedAt.Some?)
  }

  /** What an open transaction may do to a committed notification: write a newer version
      that withdraws it, or merges into it with the margin to spare. */
  ghost predicate Careful(notes: NoteTable, event: Id, tx: Tx, w: Write) {
    && w.row.event == event
    && (w.id in notes ==>
          && notes[w.id].event == event && notes[w.id].version < w.row.version
          && (w.row.deletedAt.Some?
              || (&& notes[w.id].deletedAt.None?
                  && tx.firstRead.Some? && tx.firstRead.value + MERGE_MARGIN < notes[w.id].deliverAfter
                  && w.row.deliverAfter == notes[w.id].deliverAfter)))
  }

  ghost predicate TxCareful(s: Sys, event: Id)
    requires event in s.open
  {
    var tx := s.open[event];
    && (forall i :: 0 <= i < |tx.writes| ==> Careful(s.notes, event, tx, tx.writes[i]))
    && (tx.firstRead.Some? ==> tx.firstRead.value <= s.clock)
  }

  /** New notifications of different open transactions have different identifiers. */
  ghost predicate Unshared(s: Sys, e: Id, f: Id)
    requires e in s.open && f in s.open
  {
    e != f ==> forall i, j :: 0 <= i < |s.open[e].writes| && 0 <= j < |s.open[f].writes| ==>
      s.open[e].writes[i].id != s.open[f].writes[j].id
  }

  ghost predicate PhoneSettled(s: Sys, p: Phone) {
    && p.cursor <= |s.log|
    && p.store == Applied(map[], s.log[..p.cursor])
    && (p.serverTime.Some? ==> p.serverTime.value <= s.clock)
    && (p.drained.Some? ==> p.drained.value <= s.clock)
    && (forall n :: n in p.store && Showable(p, n) ==> Final(s.notes, n, p.store[n]))
    && (forall n :: n in p.shown ==> p.shown[n].deliverAfter <= s.clock && Final(s.notes, n, p.shown[n]))
  }

  ghost predicate Sound(s: Sys) {
    && s.notes == Applied(map[], s.log)
    && (forall e :: e in s.open ==> TxCareful(s, e))
    && (forall e, f :: e in s.open && f in s.open ==> Unshared(s, e, f))
    && (forall p :: p in s.phones ==> PhoneSettled(s, s.phones[p]))
  }

  // --- Tables and writes ------------------------------------------------------------------

  lemma {:induction false} AppliedConcat(notes: NoteTable, a: seq<Write>, b: seq<Write>)
    ensures Applied(notes, a + b) == Applied(Applied(notes, a), b)
    decreases |b|
  {
    if b == [] {
      assert a + b == a;
    } else {
      assert (a + b)[..|a + b| - 1] == a + b[..|b| - 1];
      AppliedConcat(notes, a, b[..|b| - 1]);
    }
  }

  // A row is one of the writes' or an earlier one.
  lemma {:induction false} AppliedComesFrom(notes: NoteTable, writes: seq<Write>, n: Id)
    requires n in Applied(notes, writes)
    ensures || (n in notes && Applied(notes, writes)[n] == notes[n]
                && (forall i :: 0 <= i < |writes| ==> writes[i].id != n))
            || (exists i :: 0 <= i < |writes| && writes[i] == Write(n, Applied(notes, writes)[n]))
  {
    if writes != [] {
      var shorter := writes[..|writes| - 1];
      var last := writes[|writes| - 1];
      if last.id != n {
        AppliedComesFrom(notes, shorter, n);
        if exists i :: 0 <= i < |shorter| && shorter[i] == Write(n, Applied(notes, shorter)[n]) {
          var i :| 0 <= i < |shorter| && shorter[i] == Write(n, Applied(notes, shorter)[n]);
          assert writes[i] == Write(n, Applied(notes, writes)[n]);
        }
      }
    }
  }

  lemma {:induction false} AppliedKeeps(notes: NoteTable, writes: seq<Write>, n: Id)
    requires n in notes
    ensures n in Applied(notes, writes)
  {
    if writes != [] { AppliedKeeps(notes, writes[..|writes| - 1], n); }
  }

  // --- Writers ----------------------------------------------------------------------------

  // What the transaction sees of a note of its own event that is still live.
  lemma SeenLive(s: Sys, event: Id, n: Id)
    requires event in s.open && TxCareful(s, event)
    requires var seen := Applied(s.notes, s.open[event].writes);
             n in seen && seen[n].event == event && seen[n].deletedAt.None?
    ensures var seen := Applied(s.notes, s.open[event].writes);
            n in s.notes ==>
              && s.notes[n].event == event && s.notes[n].deletedAt.None?
              && s.notes[n].deliverAfter == seen[n].deliverAfter && s.notes[n].version <= seen[n].version
    ensures n !in s.notes ==> exists i :: 0 <= i < |s.open[event].writes| && s.open[event].writes[i].id == n
  {
    var tx := s.open[event];
    var seen := Applied(s.notes, tx.writes);
    AppliedComesFrom(s.notes, tx.writes, n);
    if exists i :: 0 <= i < |tx.writes| && tx.writes[i] == Write(n, seen[n]) {
      var i :| 0 <= i < |tx.writes| && tx.writes[i] == Write(n, seen[n]);
      assert Careful(s.notes, event, tx, tx.writes[i]);
    }
  }

  lemma AnnouncedIsCareful(s: Sys, event: Id, ws: Id, actor: Id, kind: NoteKind, changes: set<Change>,
                           message: Option<string>, hint: nat)
    requires event in s.open && TxCareful(s, event)
    ensures var tx := s.open[event];
            var w := Announced(s, event, ws, actor, kind, changes, message, hint);
            && Careful(s.notes, event, tx.(firstRead := Some(tx.firstRead.GetOr(s.clock))), w)
            && (w.id in UsedIds(s) ==>
                 || (w.id in s.notes && s.notes[w.id].event == event)
                 || exists i :: 0 <= i < |tx.writes| && tx.writes[i].id == w.id)
  {
    var seen := Applied(s.notes, s.open[event].writes);
    match Pending(seen, event, s.clock)
    case Some(n) => SeenLive(s, event, n);
    case None =>
  }

  // A careful write more, under an identifier no other transaction uses.
  lemma WriteKeepsSound(s: Sys, event: Id, tx': Tx, w: Write)
    requires Sound(s) && event in s.open
    requires var tx := s.open[event];
             && tx'.writes == tx.writes + [w]
             && (tx'.firstRead == tx.firstRead || (tx.firstRead.None? && tx'.firstRead == Some(s.clock)))
    requires Careful(s.notes, event, tx', w)
    requires w.id in UsedIds(s) ==>
               || (w.id in s.notes && s.notes[w.id].event == event)
               || exists i :: 0 <= i < |s.open[event].writes| && s.open[event].writes[i].id == w.id
    ensures Sound(s.(open := s.open[event := tx']))
  {
    var s' := s.(open := s.open[event := tx']);
    var tx := s.open[event];
    forall e | e in s'.open ensures TxCareful(s', e) {
      assert TxCareful(s, e);
      if e == event {
        forall i | 0 <= i < |tx'.writes| ensures Careful(s'.notes, e, tx', tx'.writes[i]) {
          if i < |tx.writes| { assert Careful(s.notes, e, tx, tx.writes[i]); }
        }
      }
    }
    forall e, f | e in s'.open && f in s'.open ensures Unshared(s', e, f) {
      assert Unshared(s, e, f);
    }
    forall p | p in s'.phones ensures PhoneSettled(s', s'.phones[p]) {
      assert PhoneSettled(s, s.phones[p]);
    }
  }

  lemma {:induction false} WithdrawingKeepsSound(s: Sys, event: Id, seen: NoteTable, ids: seq<Id>, now: Time)
    requires Sound(s) && event in s.open
    requires forall n :: n in ids ==>
               n in seen && seen[n].event == event && (n in s.notes ==> s.notes[n].version <= seen[n].version)
    requires forall n :: n in ids ==>
               || (n in s.notes && s.notes[n].event == event)
               || exists i :: 0 <= i < |s.open[event].writes| && s.open[event].writes[i].id == n
    ensures var tx := s.open[event];
            Sound(s.(open := s.open[event := tx.(writes := tx.writes + Withdrawals(seen, ids, now))]))
    decreases |ids|
  {
    var tx := s.open[event];
    if ids == [] {
      assert tx.writes + [] == tx.writes;
      assert s.open[event := tx] == s.open;
    } else {
      assert ids[0] in ids;
      var w := Write(ids[0], Withdrawn(seen[ids[0]], now));
      var tx' := tx.(writes := tx.writes + [w]);
      WriteKeepsSound(s, event, tx', w);
      var s' := s.(open := s.open[event := tx']);
      forall n | n in ids[1..]
        ensures (n in s.notes && s.notes[n].event == event)
                || exists i :: 0 <= i < |tx'.writes| && tx'.writes[i].id == n
      {
        assert n in ids;
        if exists i :: 0 <= i < |tx.writes| && tx.writes[i].id == n {
          var i :| 0 <= i < |tx.writes| && tx.writes[i].id == n;
          assert tx'.writes[i].id == n;
        }
      }
      WithdrawingKeepsSound(s', event, seen, ids[1..], now);
      assert tx'.writes + Withdrawals(seen, ids[1..], now) == tx.writes + Withdrawals(seen, ids, now);
      assert s'.open[event := tx'.(writes := tx'.writes + Withdrawals(seen, ids[1..], now))]
          == s.open[event := tx.(writes := tx.writes + Withdrawals(seen, ids, now))];
    }
  }

  lemma PendingIsOwn(s: Sys, event: Id)
    requires event in s.open && TxCareful(s, event)
    ensures var tx := s.open[event];
            var seen := Applied(s.notes, tx.writes);
            forall n :: n in DueAfter(seen, event, s.clock) ==>
              && n in seen && seen[n].event == event && (n in s.notes ==> s.notes[n].version <= seen[n].version)
              && ((n in s.notes && s.notes[n].event == event) || exists i :: 0 <= i < |tx.writes| && tx.writes[i].id == n)
  {
    var seen := Applied(s.notes, s.open[event].writes);
    forall n | n in DueAfter(seen, event, s.clock)
      ensures n in s.notes ==> s.notes[n].version <= seen[n].version
      ensures (n in s.notes && s.notes[n].event == event)
              || exists i :: 0 <= i < |s.open[event].writes| && s.open[event].writes[i].id == n
    {
      SeenLive(s, event, n);
    }
  }

  lemma WithdrawKeepsSound(s: Sys, event: Id)
    requires Sound(s) && event in s.open
    ensures Sound(Step(s, Move.Withdraw(event)))
  {
    SoundWriter(s, event);
    PendingIsOwn(s, event);
    hide Sound, TxCareful, Applied, DueAfter, Withdrawals;
    var tx := s.open[event];
    var seen := Applied(s.notes, tx.writes);
    var ids := Ascending(DueAfter(seen, event, s.clock));
    WithdrawingKeepsSound(s, event, seen, ids, s.clock);
    var s1 := s.(open := s.open[event := tx.(writes := tx.writes + Withdrawals(seen, ids, s.clock))]);
    DeletingKeepsSound(s1, event);
    assert s1.open[event := s1.open[event].(deleting := true)] == Step(s, Move.Withdraw(event)).open;
  }

  lemma DeletingKeepsSound(s: Sys, event: Id)
    requires Sound(s) && event in s.open
    ensures Sound(s.(open := s.open[event := s.open[event].(deleting := true)]))
  {
    var s' := s.(open := s.open[event := s.open[event].(deleting := true)]);
    forall e | e in s'.open ensures TxCareful(s', e) {
      assert TxCareful(s, e);
      forall i | 0 <= i < |s'.open[e].writes| ensures Careful(s'.notes, e, s'.open[e], s'.open[e].writes[i]) {
        assert Careful(s.notes, e, s.open[e], s.open[e].writes[i]);
      }
    }
    forall e, f | e in s'.open && f in s'.open ensures Unshared(s', e, f) {
      assert Unshared(s, e, f);
    }
    forall p | p in s'.phones ensures PhoneSettled(s', s'.phones[p]) {
      assert PhoneSettled(s, s.phones[p]);
    }
  }

  // --- Commits --------------------------------------------------------------------------

  /** A commit in time supersedes nothing that is already due. */
  lemma CommitSparesDue(s: Sys, event: Id, n: Id, row: NoteRow)
    requires event in s.open && TxCareful(s, event) && InTime(s, s.open[event])
    requires Final(s.notes, n, row) && row.deliverAfter <= s.clock
    ensures Final(Published(s, event).notes, n, row)
  {
    var tx := s.open[event];
    AppliedKeeps(s.notes, tx.writes, n);
    AppliedComesFrom(s.notes, tx.writes, n);
    if exists i :: 0 <= i < |tx.writes| && tx.writes[i] == Write(n, Applied(s.notes, tx.writes)[n]) {
      var i :| 0 <= i < |tx.writes| && tx.writes[i] == Write(n, Applied(s.notes, tx.writes)[n]);
      assert Careful(s.notes, event, tx, tx.writes[i]);
    }
  }

  // What a commit does to another writer's view of the table.
  lemma CommitSparesWriters(s: Sys, event: Id, f: Id)
    requires Sound(s) && event in s.open && f in s.open && f != event
    ensures TxCareful(Published(s, event), f)
  {
    var s' := Published(s, event);
    var tx, writes := s.open[f], s.open[event].writes;
    assert TxCareful(s, f) && Unshared(s, event, f);
    forall j | 0 <= j < |tx.writes| ensures Careful(s'.notes, f, tx, tx.writes[j]) {
      assert Careful(s.notes, f, tx, tx.writes[j]);
      var n := tx.writes[j].id;
      if n in s'.notes { AppliedComesFrom(s.notes, writes, n); }
    }
  }

  lemma CommitSparesPhone(s: Sys, event: Id, p: Phone)
    requires Sound(s) && event in s.open && InTime(s, s.open[event]) && PhoneSettled(s, p)
    ensures PhoneSettled(Published(s, event), p)
  {
    var s' := Published(s, event);
    assert TxCareful(s, event);
    assert s'.log[..p.cursor] == s.log[..p.cursor];
    forall n | n in p.store && Showable(p, n) ensures Final(s'.notes, n, p.store[n]) {
      CommitSparesDue(s, event, n, p.store[n]);
    }
    forall n | n in p.shown ensures p.shown[n].deliverAfter <= s'.clock && Final(s'.notes, n, p.shown[n]) {
      CommitSparesDue(s, event, n, p.shown[n]);
    }
  }

  lemma CommitKeepsSound(s: Sys, event: Id)
    requires Sound(s) && event in s.open && InTime(s, s.open[event])
    ensures Sound(Published(s, event))
  {
    var s' := Published(s, event);
    AppliedConcat(map[], s.log, s.open[event].writes);
    forall f | f in s'.open ensures TxCareful(s', f) {
      CommitSparesWriters(s, event, f);
    }
    forall e, f | e in s'.open && f in s'.open ensures Unshared(s', e, f) {
      assert Unshared(s, e, f);
    }
    forall p | p in s'.phones ensures PhoneSettled(s', s'.phones[p]) {
      CommitSparesPhone(s, event, s.phones[p]);
    }
  }

  // --- Phones -----------------------------------------------------------------------------

  lemma PhoneKeepsSound(s: Sys, id: Id, p: Phone)
    requires Sound(s) && PhoneSettled(s, p)
    ensures Sound(s.(phones := s.phones[id := p]))
  {
    var s' := s.(phones := s.phones[id := p]);
    forall e | e in s'.open ensures TxCareful(s', e) { assert TxCareful(s, e); }
    forall e, f | e in s'.open && f in s'.open ensures Unshared(s', e, f) { assert Unshared(s, e, f); }
    forall q | q in s'.phones ensures PhoneSettled(s', s'.phones[q]) {
      assert PhoneSettled(s, s'.phones[q]);
    }
  }

  lemma PhoneOfIsSettled(s: Sys, id: Id)
    requires Sound(s)
    ensures PhoneSettled(s, PhoneOf(s, id))
  {
  }

  /** A drained page holds the newest version of everything, and its server time was read
      before it: what it makes due is final. */
  lemma PageSettles(s: Sys, p: Phone, limit: nat)
    requires Sound(s) && PhoneSettled(s, p) && p.serverTime.Some?
    ensures PhoneSettled(s, PageRead(s, p, limit))
  {
    var p' := PageRead(s, p, limit);
    assert s.log[..p.cursor] + s.log[p.cursor..p'.cursor] == s.log[..p'.cursor];
    AppliedConcat(map[], s.log[..p.cursor], s.log[p.cursor..p'.cursor]);
    if p'.cursor == |s.log| { assert s.log[..p'.cursor] == s.log; }
  }

  lemma TickKeepsSound(s: Sys, to: Time)
    requires Sound(s) && s.clock <= to
    ensures Sound(s.(clock := to))
  {
    var s' := s.(clock := to);
    forall e | e in s'.open ensures TxCareful(s', e) { assert TxCareful(s, e); }
    forall e, f | e in s'.open && f in s'.open ensures Unshared(s', e, f) { assert Unshared(s, e, f); }
    forall p | p in s'.phones ensures PhoneSettled(s', s'.phones[p]) { assert PhoneSettled(s, s.phones[p]); }
  }

  lemma OpeningKeepsSound(s: Sys, open: map<Id, Tx>)
    requires Sound(s)
    requires forall e :: e in open ==> (e in s.open && open[e] == s.open[e]) || open[e] == Tx(None, [], false)
    ensures Sound(s.(open := open))
  {
    var s' := s.(open := open);
    forall e | e in s'.open ensures TxCareful(s', e) {
      if e in s.open { assert TxCareful(s, e); }
    }
    forall e, f | e in s'.open && f in s'.open ensures Unshared(s', e, f) {
      if e in s.open && f in s.open { assert Unshared(s, e, f); }
    }
    forall p | p in s'.phones ensures PhoneSettled(s', s'.phones[p]) { assert PhoneSettled(s, s.phones[p]); }
  }

  lemma StepKeepsSound(s: Sys, m: Move)
    requires Sound(s)
    ensures Sound(Step(s, m))
  {
    hide Sound, Published, PageRead, Announced, PhoneSettled, TxCareful, Careful;
    match m
    case Tick(to) => if s.clock <= to { TickKeepsSound(s, to); }
    case Lock(event) => if event !in s.open { OpeningKeepsSound(s, s.open[event := Tx(None, [], false)]); }
    case Announce(event, ws, actor, kind, changes, message, hint) =>
      if event in s.open && event !in s.gone && !s.open[event].deleting {
        var tx := s.open[event];
        SoundWriter(s, event);
        AnnouncedIsCareful(s, event, ws, actor, kind, changes, message, hint);
        var w := Announced(s, event, ws, actor, kind, changes, message, hint);
        WriteKeepsSound(s, event, tx.(firstRead := Some(tx.firstRead.GetOr(s.clock)), writes := tx.writes + [w]), w);
      }
    case Withdraw(event) => if event in s.open { WithdrawKeepsSound(s, event); }
    case Commit(event) => if event in s.open && InTime(s, s.open[event]) { CommitKeepsSound(s, event); }
    case Abort(event) => OpeningKeepsSound(s, s.open - {event});
    case ReadClock(phone) => ClockReadKeepsSound(s, phone);
    case ReadPage(phone, limit) =>
      var p := PhoneOf(s, phone);
      PhoneOfIsSettled(s, phone);
      if p.serverTime.Some? && limit != 0 && p.cursor <= |s.log| {
        PageSettles(s, p, limit);
        PhoneKeepsSound(s, phone, PageRead(s, p, limit));
      }
    case Show(phone, note) => ShowKeepsSound(s, phone, note);
  }

  lemma SoundWriter(s: Sys, event: Id)
    requires Sound(s) && event in s.open
    ensures TxCareful(s, event)
  {
  }

  lemma ClockReadKeepsSound(s: Sys, phone: Id)
    requires Sound(s)
    ensures Sound(Step(s, ReadClock(phone)))
  {
    PhoneOfIsSettled(s, phone);
    var p := PhoneOf(s, phone);
    assert forall n :: Showable(p.(serverTime := Some(s.clock)), n) <==> Showable(p, n);
    PhoneKeepsSound(s, phone, p.(serverTime := Some(s.clock)));
  }

  lemma ShowKeepsSound(s: Sys, phone: Id, note: Id)
    requires Sound(s)
    ensures Sound(Step(s, Show(phone, note)))
  {
    PhoneOfIsSettled(s, phone);
    var p := PhoneOf(s, phone);
    if Showable(p, note) && note !in p.shown {
      var p' := p.(shown := p.shown[note := p.store[note]]);
      assert forall n :: Showable(p', n) <==> Showable(p, n);
      PhoneKeepsSound(s, phone, p');
    }
  }

  lemma {:induction false} ReachableIsSound(s: Sys, moves: seq<Move>)
    requires Sound(s)
    ensures Sound(Run(s, moves))
    decreases |moves|
  {
    hide Step, Sound;
    if moves != [] {
      StepKeepsSound(s, moves[0]);
      ReachableIsSound(Step(s, moves[0]), moves[1..]);
    }
  }

  /** In every interleaving of writers and phones: whatever version of a notification any
      phone has shown is, at every later moment, still the newest version or has been
      withdrawn; no merge ever supersedes it. */
  lemma {:induction false} ShownVersionsAreFinal(clock: Time, moves: seq<Move>, phone: Id, n: Id)
    requires phone in Run(Start(clock), moves).phones && n in Run(Start(clock), moves).phones[phone].shown
    ensures var s := Run(Start(clock), moves);
            Final(s.notes, n, s.phones[phone].shown[n])
  {
    hide Run;
    ReachableIsSound(Start(clock), moves);
    var s := Run(Start(clock), moves);
    assert PhoneSettled(s, s.phones[phone]);
  }

  // --- Without the fifteen seconds -----------------------------------------------------------

  /** Every version already due stays the newest, or is withdrawn, when the event's
      transaction commits. */
  ghost predicate SparesDue(s: Sys, event: Id)
    requires event in s.open
  {
    forall n :: n in s.notes && s.notes[n].deliverAfter <= s.clock ==> Final(Published(s, event).notes, n, s.notes[n])
  }

  /** The transaction merges into the committed, live notification and leaves it live. */
  ghost predicate MergesInto(s: Sys, event: Id, n: Id)
    requires event in s.open
  {
    && n in s.notes && s.notes[n].deletedAt.None?
    && exists i :: LastWrite(s.open[event].writes, i, n) && s.open[event].writes[i].row.deletedAt.None?
  }

  ghost predicate LastWrite(writes: seq<Write>, i: int, n: Id) {
    0 <= i < |writes| && writes[i].id == n && forall j :: i < j < |writes| ==> writes[j].id != n
  }

  lemma {:induction false} AppliedIsLast(notes: NoteTable, writes: seq<Write>, i: int, n: Id)
    requires LastWrite(writes, i, n)
    ensures n in Applied(notes, writes) && Applied(notes, writes)[n] == writes[i].row
  {
    var last := writes[|writes| - 1];
    if i < |writes| - 1 {
      assert last.id != n;
      AppliedIsLast(notes, writes[..|writes| - 1], i, n);
    }
  }

  lemma {:induction false} WrittenOrKept(notes: NoteTable, writes: seq<Write>, n: Id) returns (i: int)
    requires n in notes
    ensures LastWrite(writes, i, n) || (n in Applied(notes, writes) && Applied(notes, writes)[n] == notes[n])
  {
    i := |writes| - 1;
    if writes != [] && writes[i].id != n { i := WrittenOrKept(notes, writes[..i], n); }
  }

  /** A commit spares what is due exactly when nothing it merges into is due: the margin is
      there to make sure of that. */
  lemma CommitSparesDueExactly(s: Sys, event: Id)
    requires Sound(s) && event in s.open
    ensures SparesDue(s, event) <==> forall n :: MergesInto(s, event, n) ==> s.clock < s.notes[n].deliverAfter
  {
    SoundWriter(s, event);
    hide Sound;
    var tx := s.open[event];
    if SparesDue(s, event) {
      forall n | MergesInto(s, event, n) ensures s.clock < s.notes[n].deliverAfter {
        var i :| LastWrite(tx.writes, i, n) && tx.writes[i].row.deletedAt.None?;
        AppliedIsLast(s.notes, tx.writes, i, n);
        assert Careful(s.notes, event, tx, tx.writes[i]);
      }
    }
    if forall n :: MergesInto(s, event, n) ==> s.clock < s.notes[n].deliverAfter {
      forall n | n in s.notes && s.notes[n].deliverAfter <= s.clock ensures Final(Published(s, event).notes, n, s.notes[n]) {
        var i := WrittenOrKept(s.notes, tx.writes, n);
        if LastWrite(tx.writes, i, n) {
          AppliedIsLast(s.notes, tx.writes, i, n);
          assert Careful(s.notes, event, tx, tx.writes[i]);
        }
      }
    }
  }

  /** And a commit in time is one of those. */
  lemma InTimeMergesBeforeDue(s: Sys, event: Id, n: Id)
    requires Sound(s) && event in s.open && InTime(s, s.open[event]) && MergesInto(s, event, n)
    ensures s.clock < s.notes[n].deliverAfter
  {
    SoundWriter(s, event);
    var tx := s.open[event];
    var i :| LastWrite(tx.writes, i, n) && tx.writes[i].row.deletedAt.None?;
    assert Careful(s.notes, event, tx, tx.writes[i]);
  }

  lemma {:induction false} RunAppend(s: Sys, moves: seq<Move>, m: Move)
    ensures Run(s, moves + [m]) == Step(Run(s, moves), m)
    decreases |moves|
  {
    hide Step;
    if moves == [] {
      assert moves + [m] == [m] && [m][1..] == [];
    } else {
      assert (moves + [m])[1..] == moves[1..] + [m];
      RunAppend(Step(s, moves[0]), moves[1..], m);
    }
  }

  // A notification due at 120 s is merged into at 100 s; at 120 s a phone shows it.
  const LATE_DUE := 120 * SECOND
  const LATE_NEWS := NoteRow(0, 7, EventCreated, {}, None, LATE_DUE, 0, 1, None)
  const LATE_MERGE := Tx(Some(100 * SECOND), [Write(3, LATE_NEWS.(version := 2))], false)
  const LATE_RUN: seq<Move> :=
    [Lock(7), Announce(7, 0, 0, EventCreated, {}, None, 3), Move.Commit(7),
     Lock(7), Tick(100 * SECOND), Announce(7, 0, 0, EventChanged, {}, None, 0), Tick(LATE_DUE),
     ReadClock(0), ReadPage(0, 10), Show(0, 3)]

  function LateSys(clock: Time, open: map<Id, Tx>, phones: map<Id, Phone>): Sys {
    Sys(clock, map[3 := LATE_NEWS], {}, [Write(3, LATE_NEWS)], open, phones)
  }

  lemma LateNewsAnnounced()
    ensures var s := Sys(0, map[], {}, [], map[7 := Tx(None, [], false)], map[]);
            Step(s, LATE_RUN[1]) == s.(open := map[7 := Tx(Some(0), [Write(3, LATE_NEWS)], false)])
  {
    var s := Sys(0, map[], {}, [], map[7 := Tx(None, [], false)], map[]);
    assert Mergeable(map[], 7, 0) == {};
    assert UsedIds(s) == {};
    assert Announced(s, 7, 0, 0, EventCreated, {}, None, 3) == Write(3, LATE_NEWS);
    var tx := Tx(Some(0), [Write(3, LATE_NEWS)], false);
    assert s.open[7].writes + [Write(3, LATE_NEWS)] == tx.writes && s.open[7 := tx] == map[7 := tx];
  }

  lemma LateNewsCommitted()
    ensures var s := Sys(0, map[], {}, [], map[7 := Tx(Some(0), [Write(3, LATE_NEWS)], false)], map[]);
            Step(s, LATE_RUN[2]) == LateSys(0, map[], map[])
  {
    var w := Write(3, LATE_NEWS);
    assert [w][..0] == [] && Applied(map[], [w]) == map[3 := LATE_NEWS];
  }

  lemma LateMergeAnnounced()
    ensures Step(LateSys(100 * SECOND, map[7 := Tx(None, [], false)], map[]), LATE_RUN[5])
         == LateSys(100 * SECOND, map[7 := LATE_MERGE], map[])
  {
    var s := LateSys(100 * SECOND, map[7 := Tx(None, [], false)], map[]);
    assert Mergeable(s.notes, 7, s.clock) == {3};
    assert Merged(LATE_NEWS, EventChanged, {}, None) == LATE_NEWS.(version := 2);
    assert Announced(s, 7, 0, 0, EventChanged, {}, None, 0) == Write(3, LATE_NEWS.(version := 2));
    assert s.open[7].writes + LATE_MERGE.writes == LATE_MERGE.writes && s.open[7 := LATE_MERGE] == map[7 := LATE_MERGE];
  }

  lemma LateShown()
    ensures var s := LateSys(LATE_DUE, map[7 := LATE_MERGE], map[]);
            Step(Step(Step(s, LATE_RUN[7]), LATE_RUN[8]), LATE_RUN[9])
            == s.(phones := map[0 := Phone(1, s.notes, None, Some(LATE_DUE), s.notes)])
  {
    var s := LateSys(LATE_DUE, map[7 := LATE_MERGE], map[]);
    var s1 := Step(s, LATE_RUN[7]);
    assert s1 == s.(phones := map[0 := Phone(0, map[], Some(LATE_DUE), None, map[])]);
    assert s.log[0..1] == s.log && s.log[..0] == [] && Applied(map[], s.log) == s.notes;
    var s2 := Step(s1, LATE_RUN[8]);
    assert s2 == s.(phones := map[0 := Phone(1, s.notes, None, Some(LATE_DUE), map[])]);
  }

  lemma LateRun()
    ensures Run(Start(0), LATE_RUN)
         == LateSys(LATE_DUE, map[7 := LATE_MERGE], map[0 := Phone(1, map[3 := LATE_NEWS], None, Some(LATE_DUE), map[3 := LATE_NEWS])])
  {
    LateNewsAnnounced();
    LateNewsCommitted();
    LateMergeAnnounced();
    LateShown();
    var s0 := Start(0);
    var s1 := Step(s0, LATE_RUN[0]);
    assert s1 == s0.(open := map[7 := Tx(None, [], false)]);
    var s4 := Step(LateSys(0, map[], map[]), LATE_RUN[3]);
    assert s4 == LateSys(0, map[7 := Tx(None, [], false)], map[]);
    assert Step(s4, LATE_RUN[4]) == LateSys(100 * SECOND, map[7 := Tx(None, [], false)], map[]);
    var s6 := LateSys(100 * SECOND, map[7 := LATE_MERGE], map[]);
    assert Step(s6, LATE_RUN[6]) == LateSys(LATE_DUE, map[7 := LATE_MERGE], map[]);
    hide Step;
    LateUpTo(s0);
  }

  lemma LateUpTo(s: Sys)
    ensures Run(s, LATE_RUN)
         == Step(Step(Step(Step(Step(Step(Step(Step(Step(Step(s, LATE_RUN[0]), LATE_RUN[1]), LATE_RUN[2]), LATE_RUN[3]),
                 LATE_RUN[4]), LATE_RUN[5]), LATE_RUN[6]), LATE_RUN[7]), LATE_RUN[8]), LATE_RUN[9])
  {
    hide Step;
    RunUpTo(s, LATE_RUN, 0); RunUpTo(s, LATE_RUN, 1); RunUpTo(s, LATE_RUN, 2); RunUpTo(s, LATE_RUN, 3);
    RunUpTo(s, LATE_RUN, 4); RunUpTo(s, LATE_RUN, 5); RunUpTo(s, LATE_RUN, 6); RunUpTo(s, LATE_RUN, 7);
    RunUpTo(s, LATE_RUN, 8); RunUpTo(s, LATE_RUN, 9);
    assert LATE_RUN[..0] == [] && LATE_RUN[..10] == LATE_RUN;
  }

  lemma {:induction false} RunUpTo(s: Sys, moves: seq<Move>, i: nat)
    requires i < |moves|
    ensures Run(s, moves[..i + 1]) == Step(Run(s, moves[..i]), moves[i])
  {
    assert moves[..i + 1] == moves[..i] + [moves[i]];
    RunAppend(s, moves[..i], moves[i]);
  }

  /** The fifteen seconds are needed: a run reaches a state where a phone has shown a version
      on time, and a merge decided before the deadline is still to be committed; committed
      now, it supersedes what was shown. */
  lemma LateCommitSupersedes()
    ensures var s := Run(Start(0), LATE_RUN);
            && 7 in s.open && !InTime(s, s.open[7]) && !SparesDue(s, 7)
            && 0 in s.phones && 3 in s.phones[0].shown && !Final(Published(s, 7).notes, 3, s.phones[0].shown[3])
  {
    LateRun();
    var s := Run(Start(0), LATE_RUN);
    assert LATE_MERGE.writes[..0] == [];
    assert Applied(s.notes, LATE_MERGE.writes) == map[3 := LATE_NEWS.(version := 2)];
    assert s.notes[3].deliverAfter <= s.clock;
  }
}
