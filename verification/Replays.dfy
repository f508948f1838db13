/** What a known operation id is answered: to its own workspace what it was answered first,
    to any other that it is forbidden, and nothing else. */
module Replays {
  import opened Wrappers
  import opened ChangeLog
  import opened Notifications
  import opened Watchlist
  import opened Requests
  import opened Server

  predicate Sends(rs: seq<Request>, i: nat, o: Id) {
    i < |rs| && rs[i].Apply? && rs[i].op.opId == o
  }

  /** The request that applied the operation id. */
  predicate SendsFirst(rs: seq<Request>, i: nat, o: Id) {
    Sends(rs, i, o) && forall k: nat :: k < i ==> !Sends(rs, k, o)
  }

  /** An answer that tells nothing but that it is refused. */
  predicate TellsNothing(reply: Reply, o: Id) {
    && reply.Outcome? && reply.result.opId == o && reply.result.status == Forbidden
    && reply.result.entityId.None? && reply.result.version.None? && reply.result.seqNo.None?
    && reply.result.currentVersion.None?
  }

  predicate Honest(a: Attempt, opId: Id) {
    a.result.opId == opId && a.result.status != Forbidden
  }

  lemma NoEventApplierForbids(db: Db, user: Id, ws: Id, op: Operation, env: Env)
    ensures Honest(EventCreateSpec(db, user, ws, op, env), op.opId) && Honest(EventUpdateSpec(db, user, ws, op, env), op.opId)
    ensures Honest(EventDeleteSpec(db, user, ws, op, env), op.opId) && Honest(NoteCreateSpec(db, user, ws, op, env), op.opId)
  {
    hide CreateEvent, UpdateEvent, DeleteEvent, AnnounceSpec, NewId, Columns;
  }

  lemma NoPlacingApplierForbids(db: Db, user: Id, ws: Id, op: Operation, env: Env)
    ensures Honest(ItemCreateSpec(db, user, ws, op, env), op.opId) && Honest(ItemMoveSpec(db, user, ws, op, env), op.opId)
  {
    hide PlanCreate, PlanMove, DeleteTree, SaveItem, EditItem, NewId, Live, DraftRow, Moved, NewParent;
    forall why ensures Honest(RefusalResult(op.opId, why), op.opId) { }
    hide RefusalResult;
  }

  lemma NoItemApplierForbids(db: Db, user: Id, ws: Id, op: Operation, env: Env)
    ensures Honest(ItemUpdateSpec(db, user, ws, op, env), op.opId) && Honest(ItemDeleteSpec(db, user, ws, op, env), op.opId)
  {
    hide DeleteTree, EditItem, Live;
  }

  // No applier forbids, and every answer carries its operation's id.
  lemma NoApplierForbids(db: Db, user: Id, ws: Id, op: Operation, env: Env)
    ensures Honest(Attempted(db, user, ws, op, env), op.opId)
  {
    NoEventApplierForbids(db, user, ws, op, env);
    NoPlacingApplierForbids(db, user, ws, op, env);
    NoItemApplierForbids(db, user, ws, op, env);
    hide EventCreateSpec, EventUpdateSpec, EventDeleteSpec, NoteCreateSpec, ItemCreateSpec, ItemUpdateSpec, ItemMoveSpec, ItemDeleteSpec;
  }

  lemma {:induction false} RunSplits(db: Db, rs: seq<Request>, j: nat)
    requires j < |rs|
    ensures |Run(db, rs).1| == |rs|
    ensures var before := Run(db, rs[..j]).0;
            Run(db, rs).1[j] == Step(before, rs[j]).1 && Run(db, rs[..j + 1]).0 == Step(before, rs[j]).0
    decreases j
  {
    hide Step;
    RunReplies(db, rs);
    if j == 0 {
      assert rs[..1][1..] == [];
    } else {
      var db1 := Step(db, rs[0]).0;
      RunSplits(db1, rs[1..], j - 1);
      assert rs[..j][1..] == rs[1..][..j - 1] && rs[..j + 1][1..] == rs[1..][..j];
    }
  }

  /** What the cache holds of an operation id it did not know: who sent it first, from
      which workspace, and what that request was answered. */
  ghost predicate CachedFrom(db: Db, rs: seq<Request>, now: Db, i: nat, o: Id)
    requires i < |rs| && |Run(db, rs).1| == |rs|
  {
    && o in now.applied && now.applied[o].ws == rs[i].ws && now.applied[o].actor == rs[i].user
    && Run(db, rs).1[i] == Outcome(now.applied[o].response)
    && now.applied[o].response.opId == o && now.applied[o].response.status != Forbidden
  }

  ghost predicate KnownSince(rs: seq<Request>, j: nat, o: Id) {
    exists i: nat :: i < j && SendsFirst(rs, i, o)
  }

  ghost predicate AllCached(db: Db, rs: seq<Request>, now: Db, j: nat, o: Id)
    requires j <= |rs| && |Run(db, rs).1| == |rs|
  {
    && (o in now.applied <==> KnownSince(rs, j, o))
    && forall i: nat :: i < j && SendsFirst(rs, i, o) ==> CachedFrom(db, rs, now, i, o)
  }

  lemma {:induction false} SomeoneIsFirst(rs: seq<Request>, k: nat, o: Id)
    ensures KnownSince(rs, k, o) <==> exists i: nat :: i < k && Sends(rs, i, o)
  {
    if i: nat :| i < k && Sends(rs, i, o) && forall m: nat :: m < i ==> !Sends(rs, m, o) {
      assert SendsFirst(rs, i, o);
    } else {
      forall i: nat | i < k ensures !Sends(rs, i, o) { NoneSends(rs, k, o, i); }
    }
  }

  lemma {:induction false} NoneSends(rs: seq<Request>, k: nat, o: Id, i: nat)
    requires i < k
    requires forall m: nat :: m < k && Sends(rs, m, o) ==> exists l: nat :: l < m && Sends(rs, l, o)
    ensures !Sends(rs, i, o)
    decreases i
  {
    if Sends(rs, i, o) {
      var l: nat :| l < i && Sends(rs, l, o);
      NoneSends(rs, k, o, l);
    }
  }

  // The request that sends it first.
  lemma {:induction false} NewlyCached(db: Db, rs: seq<Request>, before: Db, k: nat, j: nat, o: Id)
    requires k < |rs| && j == k + 1 && |Run(db, rs).1| == |rs| && Run(db, rs).1[k] == Step(before, rs[k]).1
    requires AllCached(db, rs, before, k, o) && o !in before.applied && Sends(rs, k, o)
    ensures AllCached(db, rs, Step(before, rs[k]).0, j, o)
  {
    hide Step, Run, Attempted;
    NoApplierForbids(before, rs[k].user, rs[k].ws, rs[k].op, rs[k].env);
    FirstIsCached(before, rs[k]);
    SomeoneIsFirst(rs, k, o);
    assert SendsFirst(rs, k, o);
    assert CachedFrom(db, rs, Step(before, rs[k]).0, k, o);
    hide CachedFrom;
    forall i: nat | i < j && SendsFirst(rs, i, o) ensures i == k { }
  }

  lemma {:induction false} StillCached(db: Db, rs: seq<Request>, before: Db, k: nat, j: nat, o: Id)
    requires k < |rs| && j == k + 1 && |Run(db, rs).1| == |rs|
    requires AllCached(db, rs, before, k, o) && (o in before.applied || !Sends(rs, k, o))
    ensures AllCached(db, rs, Step(before, rs[k]).0, j, o)
  {
    hide Step, Run;
    StepCaches(before, rs[k]);
    forall i: nat | i < j && SendsFirst(rs, i, o) ensures i < k { }
  }

  lemma {:induction false} CacheTells(db: Db, rs: seq<Request>, j: nat, o: Id)
    requires o !in db.applied && j <= |rs|
    ensures |Run(db, rs).1| == |rs|
    ensures AllCached(db, rs, Run(db, rs[..j]).0, j, o)
    decreases j
  {
    RunReplies(db, rs);
    hide Run, Step;
    if j == 0 {
      NoRun(db, rs[..0]);
    } else {
      var k := j - 1;
      CacheTells(db, rs, k, o);
      RunSplits(db, rs, k);
      var before := Run(db, rs[..k]).0;
      assert rs[..k + 1] == rs[..j];
      hide AllCached;
      if Sends(rs, k, o) && o !in before.applied {
        NewlyCached(db, rs, before, k, j, o);
      } else {
        StillCached(db, rs, before, k, j, o);
      }
    }
  }

  lemma NoRun(db: Db, rs: seq<Request>)
    requires rs == []
    ensures Run(db, rs) == (db, [])
  {
  }

  lemma FirstIsCached(db: Db, r: Request)
    requires r.Apply? && r.op.opId !in db.applied
    ensures var (db', reply) := Step(db, r);
            && r.op.opId in db'.applied && reply.Outcome? && db'.applied[r.op.opId] == AppliedOp(r.user, r.ws, reply.result)
            && reply.result == Attempted(db, r.user, r.ws, r.op, r.env).result
  {
    hide Attempted;
  }

  /** Another workspace learns nothing from an operation id that was applied in the first,
      and does nothing with it. */
  lemma {:induction false} ForeignRepeatIsForbidden(db: Db, rs: seq<Request>, i: nat, j: nat, o: Id)
    requires o !in db.applied && SendsFirst(rs, i, o) && i < j && Sends(rs, j, o) && rs[i].ws != rs[j].ws
    ensures |Run(db, rs).1| == |rs| && TellsNothing(Run(db, rs).1[j], o)
    ensures Run(db, rs[..j + 1]).0 == Run(db, rs[..j]).0
  {
    CacheTells(db, rs, j, o);
    RunSplits(db, rs, j);
    hide Run;
    assert CachedFrom(db, rs, Run(db, rs[..j]).0, i, o);
  }

  /** Nothing else is ever forbidden: over a run from an empty server a request is answered
      "forbidden" exactly when another workspace applied its operation id before. */
  lemma {:induction false} ForbiddenExactly(db: Db, rs: seq<Request>, j: nat)
    requires db.applied == map[] && j < |rs|
    ensures |Run(db, rs).1| == |rs|
    ensures var reply := Run(db, rs).1[j];
            (reply.Outcome? && reply.result.status == Forbidden)
            <==> rs[j].Apply? && exists i: nat :: i < j && SendsFirst(rs, i, rs[j].op.opId) && rs[i].ws != rs[j].ws
  {
    RunSplits(db, rs, j);
    hide Run;
    var before := Run(db, rs[..j]).0;
    if rs[j].Apply? {
      var o := rs[j].op.opId;
      CacheTells(db, rs, j, o);
      if o in before.applied {
        var i: nat :| i < j && SendsFirst(rs, i, o);
        assert CachedFrom(db, rs, before, i, o);
        forall k: nat | k < j && SendsFirst(rs, k, o) ensures k == i { }
      } else {
        NoApplierForbids(before, rs[j].user, rs[j].ws, rs[j].op, rs[j].env);
        FirstIsCached(before, rs[j]);
      }
    } else {
      RestIsNoOutcome(before, rs[j]);
    }
  }

  lemma RestIsNoOutcome(db: Db, r: Request)
    requires !r.Apply?
    ensures !Step(db, r).1.Outcome?
  {
    hide CreateEvent, UpdateEvent, DeleteEvent, AnnounceSpec, PlanCreate, PlanMove, DeleteTree, SaveItem, EditItem,
         NewId, Columns, Live, DraftRow, Moved, NewParent;
  }
}
