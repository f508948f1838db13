/** The server and one phone together: requests and page pulls in any interleaving. */
module Convergence {
  import opened Wrappers
  import opened ChangeLog
  import opened Requests
  import opened Replica
  import opened Server

  datatype Move = Write(request: Request) | PullPage(limit: nat)

  function RunBoth(db: Db, ws: Id, p: Phone, moves: seq<Move>): (Db, Phone)
    decreases |moves|
  {
    if moves == [] then (db, p)
    else
      match moves[0]
      case Write(r) => RunBoth(Step(db, r).0, ws, p, moves[1..])
      case PullPage(limit) => RunBoth(db, ws, Pull(db.log, ws, p, limit), moves[1..])
  }

  /** Writers read a clock that does not run backwards, and pages have a limit. */
  ghost predicate Proper(clock: Time, moves: seq<Move>)
    decreases |moves|
  {
    moves == []
    || match moves[0]
       case Write(r) => clock <= r.env.clock && Proper(r.env.clock, moves[1..])
       case PullPage(limit) => limit >= 1 && Proper(clock, moves[1..])
  }

  lemma WriteKeepsInStep(db: Db, clock: Time, ws: Id, p: Phone, r: Request)
    requires Sound(db, clock) && clock <= r.env.clock && InStep(db.log, ws, p)
    ensures Sound(Step(db, r).0, r.env.clock) && InStep(Step(db, r).0.log, ws, p)
  {
    StepKeepsSound(db, clock, r);
    StepCaches(db, r);
    var db' := Step(db, r).0;
    assert Grows(db.log, db'.log);
    GrowthKeepsInStep(db.log, db'.log, ws, p);
  }

  lemma {:induction false} RunStaysInStep(db: Db, clock: Time, ws: Id, p: Phone, moves: seq<Move>)
    requires Sound(db, clock) && InStep(db.log, ws, p) && Proper(clock, moves)
    ensures var (db', p') := RunBoth(db, ws, p, moves);
            LogTells(db') && InStep(db'.log, ws, p')
    decreases |moves|
  {
    if moves == [] {
    } else {
      match moves[0]
      case Write(r) =>
        WriteKeepsInStep(db, clock, ws, p, r);
        RunStaysInStep(Step(db, r).0, r.env.clock, ws, p, moves[1..]);
      case PullPage(limit) =>
        var k: nat :| InStepAt(db.log, ws, p, k);
        var k' := PullAdvances(db.log, ws, p, limit, k);
        RunStaysInStep(db, clock, ws, Pull(db.log, ws, p, limit), moves[1..]);
    }
  }

  /** End to end: whatever members wrote and however the pulls fell between the writes,
      the first page without `has_more` leaves the phone with exactly the server's rows
      of its workspace, every change received once and in order. */
  lemma {:induction false} PhoneConverges(clock: Time, ws: Id, moves: seq<Move>, limit: nat)
    requires Proper(clock, moves) && limit >= 1
    ensures var (db, p) := RunBoth(EMPTY_DB, ws, NEW_PHONE, moves);
            var p' := Pull(db.log, ws, p, limit);
            !FetchChanges(db.log, ws, p.cursor, limit, 0).hasMore ==>
              p'.received == ForWorkspace(db.log, ws) && Mirrors(Fold(p'.received), db, ws)
  {
    NewPhoneInStep([], ws);
    RunStaysInStep(EMPTY_DB, clock, ws, NEW_PHONE, moves);
    var (db, p) := RunBoth(EMPTY_DB, ws, NEW_PHONE, moves);
    PullTerminates(db.log, ws, p, limit);
    DrainedFoldMirrors(db, ws);
  }
}
