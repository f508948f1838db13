/** The polite page cache, class `Fetcher` of `skills/lib/kp_fetch.py`: a store that must
    agree with the last definitive answer of every page, whoever asks and however the
    answer came about.

    The network is whatever response a turn brings. A URL is its host and the rest, and
    its own cache key. */
module Fetcher {
  import opened Wrappers
  import opened HostLimits

  datatype Url = Url(host: Option<string>, rest: string)

  const MAX_AGE: map<string, Time> := map["listing" := 28.0 * DAY, "detail" := 28.0 * DAY, "feed" := 6.0 * DAY]
  const WATCH_MAX_AGE: Time := 3.0 * DAY
  const JITTER := 0.25
  const PRUNE_AFTER: Time := 365.0 * DAY

  datatype Meta = Meta(kind: string, status: nat, fetchedAt: Time, checkedAt: Time,
                       etag: Option<string>, lastModified: Option<string>)

  datatype Page = Page(meta: Meta, body: Bytes)

  /** `pages/<key>.json` and `pages/<key>.body`. */
  datatype Store = Store(metas: map<Url, Meta>, bodies: map<Url, Bytes>)

  /** What is stale by decree, and each URL's stable share of the jitter. */
  datatype Config = Config(refresh: set<string>, freshUrls: set<Url>, jitter: Url -> real)

  function Load(s: Store, url: Url): Option<Page> {
    if url in s.metas && url in s.bodies then Some(Page(s.metas[url], s.bodies[url])) else None
  }

  function Header(headers: map<string, string>, name: string): Option<string> {
    if name in headers then Some(headers[name]) else None
  }

  function Stored(s: Store, url: Url, kind: string, resp: Response, now: Time): Store {
    Store(s.metas[url := Meta(kind, resp.status, now, now, Header(resp.headers, "etag"), Header(resp.headers, "last-modified"))],
          s.bodies[url := resp.body])
  }

  function Newer(headers: map<string, string>, name: string, known: Option<string>): Option<string> {
    if Header(headers, name).GetOr("") != "" then Header(headers, name) else known
  }

  function Confirmed(meta: Meta, resp: Response, now: Time): Meta {
    meta.(checkedAt := now, etag := Newer(resp.headers, "etag", meta.etag),
          lastModified := Newer(resp.headers, "last-modified", meta.lastModified))
  }

  /** `_touch`: only the metadata is rewritten. */
  function Touched(s: Store, url: Url, meta: Meta, resp: Response, now: Time): Store {
    s.(metas := s.metas[url := Confirmed(meta, resp, now)])
  }

  function Pruned(s: Store, now: Time): Store {
    var expired := set url | url in s.metas && now - s.metas[url].checkedAt > PRUNE_AFTER;
    Store(s.metas - expired, s.bodies - expired)
  }

  function MaxAge(cfg: Config, url: Url, kind: string): Time
    requires kind in MAX_AGE
  {
    if "all" in cfg.refresh || kind in cfg.refresh then 0.0
    else (if url in cfg.freshUrls then WATCH_MAX_AGE else MAX_AGE[kind]) * (1.0 - JITTER * cfg.jitter(url))
  }

  predicate Fresh(cfg: Config, page: Option<Page>, url: Url, kind: string, now: Time)
    requires kind in MAX_AGE
  {
    page.Some? && now - page.value.meta.checkedAt < MaxAge(cfg, url, kind)
  }

  /** `_served` and `_stale`: a cached 404 is an answer too, without a body. */
  function Served(page: Option<Page>): Option<Bytes> {
    if page.Some? && page.value.meta.status == 200 then Some(page.value.body) else None
  }

  /** The validators a conditional request carries. */
  function Conditions(page: Option<Page>): map<string, string> {
    if page.Some? && page.value.meta.status == 200 then
      (if page.value.meta.etag.GetOr("") != "" then map["If-None-Match" := page.value.meta.etag.value] else map[])
      + (if page.value.meta.lastModified.GetOr("") != "" then map["If-Modified-Since" := page.value.meta.lastModified.value] else map[])
    else map[]
  }

  /** An answer about the page itself, as opposed to no answer or a refusal. */
  predicate Definitive(resp: Response) {
    !Local(resp) && !Refusal(resp)
  }

  /** What came of one turn: the store, the body handed out, the headers sent if the
      network was asked. */
  datatype Exchange = Exchange(store: Store, body: Option<Bytes>, sent: Option<map<string, string>>)

  /** `get` under the host's lock, for a page loaded before it was taken. */
  function UnderLock(s: Store, url: Url, kind: string, page: Option<Page>, p: Policy, st: HostState, turn: Turn): Exchange {
    match Admit(p, st, turn)
    case Cooling => Exchange(s, Served(page), None)
    case Spent => Exchange(s, Served(page), None)
    case Asked(at) =>
      var sent := Some(Conditions(page));
      if !Definitive(turn.resp) then Exchange(s, Served(page), sent)
      else if turn.resp.status == 304 && page.Some? then
        Exchange(Touched(s, url, page.value.meta, turn.resp, at), Served(page), sent)
      else
        Exchange(Stored(s, url, kind, turn.resp, at),
                 if turn.resp.status == 200 then Some(turn.resp.body) else None, sent)
  }

  /** Everything under the cache directory. */
  datatype Disk = Disk(store: Store, hosts: map<string, HostState>, prunedAt: Time)

  function HostOf(hosts: map<string, HostState>, host: string): HostState {
    if host in hosts then hosts[host] else NEW_HOST
  }

  /** The clock readings of one call: the prune check, the prune, the freshness test,
      and the turn under the lock. */
  datatype Readings = Readings(check: Time, prune: Time, now: Time, turn: Turn)

  datatype Outcome = UnknownKind | NotAUrl | Got(body: Option<Bytes>, sent: Option<map<string, string>>)

  function MaybePruned(d: Disk, pruned: bool, r: Readings): Disk {
    if !pruned && r.check - d.prunedAt >= DAY then d.(store := Pruned(d.store, r.prune), prunedAt := r.check) else d
  }

  /** `get`. */
  function GetSpec(cfg: Config, d: Disk, pruned: bool, url: Url, kind: string, r: Readings): (Disk, Outcome) {
    if kind !in MAX_AGE then (d, UnknownKind)
    else if url.host.GetOr("") == "" then (d, NotAUrl)
    else
      var d1 := MaybePruned(d, pruned, r);
      var page := Load(d1.store, url);
      if Fresh(cfg, page, url, kind, r.now) then (d1, Got(Served(page), None))
      else
        var host := url.host.value;
        var st := HostOf(d1.hosts, host);
        var x := UnderLock(d1.store, url, kind, page, PolicyOf(host), st, r.turn);
        (d1.(store := x.store, hosts := d1.hosts[host := AfterTurn(PolicyOf(host), st, r.turn)]), Got(x.body, x.sent))
  }

  // --- The reference: remember the last definitive answer ------------------------------

  datatype Known = Known(status: nat, body: Bytes, at: Time, etag: Option<string>, modified: Option<string>)

  type Memory = map<Url, Known>

  function Forget(m: Memory, now: Time): Memory {
    m - set url | url in m && now - m[url].at > PRUNE_AFTER
  }

  /** The page as the answer shows it, with whatever validators came along. */
  function Shown(resp: Response, at: Time): Known {
    Known(resp.status, resp.body, at,
          if "etag" in resp.headers then Some(resp.headers["etag"]) else None,
          if "last-modified" in resp.headers then Some(resp.headers["last-modified"]) else None)
  }

  /** "Not modified" about a page one knows changes nothing but its date, and a validator
      where it names a newer one. */
  function Kept(k: Known, resp: Response, at: Time): Known {
    k.(at := at,
       etag := if "etag" in resp.headers && resp.headers["etag"] != "" then Some(resp.headers["etag"]) else k.etag,
       modified := if "last-modified" in resp.headers && resp.headers["last-modified"] != "" then Some(resp.headers["last-modified"])
                   else k.modified)
  }

  /** Any other definitive answer is the new page. */
  function Learn(m: Memory, url: Url, resp: Response, at: Time): Memory {
    if resp.status == 304 && url in m then m[url := Kept(m[url], resp, at)] else m[url := Shown(resp, at)]
  }

  function Recall(m: Memory, url: Url): Option<Bytes> {
    if url in m && m[url].status == 200 then Some(m[url].body) else None
  }

  /** The definitive answer this call got from the network, if it asked and got one. */
  function Heard(cfg: Config, d: Disk, pruned: bool, url: Url, kind: string, r: Readings): Option<Time> {
    if kind !in MAX_AGE || url.host.GetOr("") == "" then None
    else
      var d1 := MaybePruned(d, pruned, r);
      if Fresh(cfg, Load(d1.store, url), url, kind, r.now) then None
      else
        var host := url.host.value;
        match Admit(PolicyOf(host), HostOf(d1.hosts, host), r.turn)
        case Asked(at) => if Definitive(r.turn.resp) then Some(at) else None
        case _ => None
  }

  /** What the reference knows when the page is loaded: at most once a day and once in a
      process the old is forgotten first. */
  function Remembered(d: Disk, m: Memory, pruned: bool, r: Readings): Memory {
    if !pruned && r.check - d.prunedAt >= DAY then Forget(m, r.prune) else m
  }

  /** The validators that may go out for a page: those of the last 200, if it had any. */
  ghost predicate Validates(sent: map<string, string>, m: Memory, url: Url) {
    && (forall h :: h in sent ==> h == "If-None-Match" || h == "If-Modified-Since")
    && (if url in m && m[url].status == 200 && m[url].etag.Some? && m[url].etag.value != ""
        then "If-None-Match" in sent && sent["If-None-Match"] == m[url].etag.value else "If-None-Match" !in sent)
    && (if url in m && m[url].status == 200 && m[url].modified.Some? && m[url].modified.value != ""
        then "If-Modified-Since" in sent && sent["If-Modified-Since"] == m[url].modified.value else "If-Modified-Since" !in sent)
  }

  /** The reference's side of a call. */
  function Reminded(cfg: Config, d: Disk, m: Memory, pruned: bool, url: Url, kind: string, r: Readings): Memory {
    if kind !in MAX_AGE || url.host.GetOr("") == "" then m
    else
      var m1 := Remembered(d, m, pruned, r);
      match Heard(cfg, d, pruned, url, kind, r)
      case Some(at) => Learn(m1, url, r.turn.resp, at)
      case None => m1
  }

  ghost predicate AgreesOn(s: Store, m: Memory, url: Url) {
    match Load(s, url)
    case None => url !in m
    case Some(page) =>
      && url in m
      && m[url] == Known(page.meta.status, page.body, page.meta.checkedAt, page.meta.etag, page.meta.lastModified)
  }

  ghost predicate Agrees(s: Store, m: Memory) {
    forall url: Url :: AgreesOn(s, m, url)
  }

  /** What was confirmed more than 365 days ago is gone, page and body; the rest stays. */
  lemma PruneForgets(s: Store, m: Memory, now: Time)
    requires Agrees(s, m)
    ensures Agrees(Pruned(s, now), Forget(m, now))
    ensures forall url :: url in s.metas && now - s.metas[url].checkedAt > 31_536_000.0 ==>
              url !in Pruned(s, now).metas && url !in Pruned(s, now).bodies
    ensures forall url :: url in m ==>
              if now - m[url].at > 31_536_000.0 then url !in Forget(m, now)
              else url in Forget(m, now) && Forget(m, now)[url] == m[url]
  {
    forall url: Url ensures AgreesOn(Pruned(s, now), Forget(m, now), url) {
      assert AgreesOn(s, m, url);
    }
  }

  lemma OthersAgree(s: Store, m: Memory, s': Store, m': Memory, url: Url)
    requires Agrees(s, m) && AgreesOn(s', m', url)
    requires forall u: Url :: u != url ==> Load(s', u) == Load(s, u) && (u in m' <==> u in m) && (u in m ==> m'[u] == m[u])
    ensures Agrees(s', m')
  {
    forall u: Url ensures AgreesOn(s', m', u) {
      assert AgreesOn(s, m, u);
    }
  }

  lemma TouchLearns(s: Store, m: Memory, url: Url, resp: Response, at: Time)
    requires Agrees(s, m) && Load(s, url).Some? && resp.status == 304
    ensures Agrees(Touched(s, url, Load(s, url).value.meta, resp, at), Learn(m, url, resp, at))
  {
    assert AgreesOn(s, m, url);
    OthersAgree(s, m, Touched(s, url, Load(s, url).value.meta, resp, at), Learn(m, url, resp, at), url);
  }

  lemma StoreLearns(s: Store, m: Memory, url: Url, kind: string, resp: Response, at: Time)
    requires Agrees(s, m) && !(resp.status == 304 && Load(s, url).Some?)
    ensures Agrees(Stored(s, url, kind, resp, at), Learn(m, url, resp, at))
  {
    assert AgreesOn(s, m, url);
    OthersAgree(s, m, Stored(s, url, kind, resp, at), Learn(m, url, resp, at), url);
  }

  lemma RecallIsServed(s: Store, m: Memory, url: Url)
    requires Agrees(s, m)
    ensures Recall(m, url) == Served(Load(s, url))
  {
    assert AgreesOn(s, m, url);
  }

  lemma ConditionsValidate(s: Store, m: Memory, url: Url)
    requires Agrees(s, m)
    ensures Validates(Conditions(Load(s, url)), m, url)
  {
    assert AgreesOn(s, m, url);
  }

  lemma UnderLockLearns(s: Store, m: Memory, url: Url, kind: string, p: Policy, st: HostState, turn: Turn)
    requires Agrees(s, m)
    ensures var x := UnderLock(s, url, kind, Load(s, url), p, st, turn);
            var m' := match Admit(p, st, turn)
                      case Asked(at) => if Definitive(turn.resp) then Learn(m, url, turn.resp, at) else m
                      case _ => m;
            && Agrees(x.store, m')
            && x.body == Recall(m', url)
            && (x.sent.Some? ==> Validates(x.sent.value, m, url))
  {
    ConditionsValidate(s, m, url);
    hide Admit, Refusal, Local, Agrees, Validates, Conditions;
    RecallIsServed(s, m, url);
    if Admit(p, st, turn).Asked? && Definitive(turn.resp) {
      var at := Admit(p, st, turn).at;
      if turn.resp.status == 304 && Load(s, url).Some? {
        TouchLearns(s, m, url, turn.resp, at);
      } else {
        StoreLearns(s, m, url, kind, turn.resp, at);
      }
    }
  }

  /** One call refines the reference: fresh hit, 304, new page, budget, cooldown or
      failure, what it returns is the last definitive answer's body when that answer was
      a 200 and nothing otherwise; what goes out with a request are the validators of the
      page as last confirmed, if it was a 200. */
  lemma GetRefines(cfg: Config, d: Disk, m: Memory, pruned: bool, url: Url, kind: string, r: Readings)
    requires Agrees(d.store, m)
    ensures var (d', o) := GetSpec(cfg, d, pruned, url, kind, r);
            var m' := Reminded(cfg, d, m, pruned, url, kind, r);
            && Agrees(d'.store, m')
            && (o.Got? ==> o.body == Recall(m', url))
            && (o.Got? && o.sent.Some? ==> Validates(o.sent.value, Remembered(d, m, pruned, r), url))
  {
    hide Admit, Refusal, Local, Agrees, UnderLock, AfterTurn, Learn, Pruned, MaxAge, Validates;
    if kind in MAX_AGE && url.host.GetOr("") != "" {
      var d1 := MaybePruned(d, pruned, r);
      var m1 := Remembered(d, m, pruned, r);
      PruneForgets(d.store, m, r.prune);
      RecallIsServed(d1.store, m1, url);
      var host := url.host.value;
      UnderLockLearns(d1.store, m1, url, kind, PolicyOf(host), HostOf(d1.hosts, host), r.turn);
    }
  }

  /** One call of some process: whether it has pruned yet, what it asks, what it reads. */
  datatype Call = Call(cfg: Config, pruned: bool, url: Url, kind: string, r: Readings)

  function Run(d: Disk, calls: seq<Call>): (Disk, seq<Outcome>)
    decreases |calls|
  {
    if calls == [] then (d, [])
    else
      var c := calls[0];
      var (d1, o) := GetSpec(c.cfg, d, c.pruned, c.url, c.kind, c.r);
      var (d2, os) := Run(d1, calls[1..]);
      (d2, [o] + os)
  }

  function Recollections(d: Disk, m: Memory, calls: seq<Call>): seq<Memory>
    decreases |calls|
  {
    if calls == [] then []
    else
      var c := calls[0];
      var m1 := Reminded(c.cfg, d, m, c.pruned, c.url, c.kind, c.r);
      [m1] + Recollections(GetSpec(c.cfg, d, c.pruned, c.url, c.kind, c.r).0, m1, calls[1..])
  }

  /** Over every run of calls, one after another, every answer is the reference's. */
  lemma {:induction false} EveryAnswerIsTheLastOne(d: Disk, m: Memory, calls: seq<Call>, i: nat)
    requires Agrees(d.store, m) && i < |calls|
    ensures |Run(d, calls).1| == |calls| == |Recollections(d, m, calls)|
    ensures var o := Run(d, calls).1[i];
            o.Got? ==> o.body == Recall(Recollections(d, m, calls)[i], calls[i].url)
    decreases |calls|
  {
    hide GetSpec, Reminded, Agrees, Recall;
    var c := calls[0];
    GetRefines(c.cfg, d, m, c.pruned, c.url, c.kind, c.r);
    var d1 := GetSpec(c.cfg, d, c.pruned, c.url, c.kind, c.r).0;
    var m1 := Reminded(c.cfg, d, m, c.pruned, c.url, c.kind, c.r);
    RunLengths(d1, m1, calls[1..]);
    if i > 0 {
      EveryAnswerIsTheLastOne(d1, m1, calls[1..], i - 1);
    }
  }

  lemma {:induction false} RunLengths(d: Disk, m: Memory, calls: seq<Call>)
    ensures |Run(d, calls).1| == |calls| == |Recollections(d, m, calls)|
    decreases |calls|
  {
    hide GetSpec, Reminded;
    if calls != [] {
      var c := calls[0];
      RunLengths(GetSpec(c.cfg, d, c.pruned, c.url, c.kind, c.r).0,
                 Reminded(c.cfg, d, m, c.pruned, c.url, c.kind, c.r), calls[1..]);
    }
  }

  // --- Processes that overlap ------------------------------------------------------------

  /** A page loaded by a process that now waits for its host's lock. */
  datatype Flight = Flight(url: Url, kind: string, page: Option<Page>)

  datatype World = World(store: Store, hosts: map<string, HostState>, flights: map<nat, Flight>)

  datatype Move = Begin(pid: nat, url: Url, kind: string) | Finish(pid: nat, turn: Turn) | Sweep(now: Time)

  /** `_load` is outside the lock: a process looks, waits, and acts on what it saw. */
  function Moved(w: World, move: Move): World {
    match move
    case Begin(pid, url, kind) => w.(flights := w.flights[pid := Flight(url, kind, Load(w.store, url))])
    case Finish(pid, turn) =>
      if pid !in w.flights || w.flights[pid].url.host.None? then w
      else
        var f := w.flights[pid];
        var host := f.url.host.value;
        var st := HostOf(w.hosts, host);
        World(UnderLock(w.store, f.url, f.kind, f.page, PolicyOf(host), st, turn).store,
              w.hosts[host := AfterTurn(PolicyOf(host), st, turn)], w.flights - {pid})
    case Sweep(now) => w.(store := Pruned(w.store, now))
  }

  function KnownAs(page: Page): Known {
    Known(page.meta.status, page.body, page.meta.checkedAt, page.meta.etag, page.meta.lastModified)
  }

  /** What the reference learns: "not modified" confirms the copy the process holds. */
  function Taught(w: World, m: Memory, move: Move): Memory {
    match move
    case Begin(_, _, _) => m
    case Sweep(now) => Forget(m, now)
    case Finish(pid, turn) =>
      if pid !in w.flights || w.flights[pid].url.host.None? then m
      else
        var f := w.flights[pid];
        match Admit(PolicyOf(f.url.host.value), HostOf(w.hosts, f.url.host.value), turn)
        case Asked(at) =>
          if !Definitive(turn.resp) then m
          else if turn.resp.status == 304 && f.page.Some? then
            m[f.url := Kept(KnownAs(f.page.value), turn.resp, at)]
          else m[f.url := Shown(turn.resp, at)]
        case _ => m
  }

  /** The process was told its copy is current, but the stored body is no longer that
      copy: another process replaced or pruned it in between. */
  predicate Clobbers(w: World, move: Move) {
    && move.Finish? && move.pid in w.flights && w.flights[move.pid].url.host.Some?
    && var f := w.flights[move.pid];
       && f.page.Some?
       && Admit(PolicyOf(f.url.host.value), HostOf(w.hosts, f.url.host.value), move.turn).Asked?
       && Definitive(move.turn.resp) && move.turn.resp.status == 304
       && !(f.url in w.store.bodies && w.store.bodies[f.url] == f.page.value.body)
  }

  lemma FinishAgreesElsewhere(w: World, m: Memory, pid: nat, turn: Turn)
    requires Agrees(w.store, m) && pid in w.flights && w.flights[pid].url.host.Some?
    ensures var move := Finish(pid, turn);
            AgreesOn(Moved(w, move).store, Taught(w, m, move), w.flights[pid].url) ==>
              Agrees(Moved(w, move).store, Taught(w, m, move))
  {
    hide Admit, Refusal, Local, Agrees, AfterTurn;
    var move := Finish(pid, turn);
    var url := w.flights[pid].url;
    if AgreesOn(Moved(w, move).store, Taught(w, m, move), url) {
      OthersAgree(w.store, m, Moved(w, move).store, Taught(w, m, move), url);
    }
  }

  lemma FinishAgreesThere(w: World, m: Memory, pid: nat, turn: Turn)
    requires Agrees(w.store, m) && pid in w.flights && w.flights[pid].url.host.Some?
    ensures var move := Finish(pid, turn);
            AgreesOn(Moved(w, move).store, Taught(w, m, move), w.flights[pid].url) <==> !Clobbers(w, move)
  {
    hide Admit, Refusal, Local, AfterTurn;
    assert AgreesOn(w.store, m, w.flights[pid].url);
  }

  /** Processes may overlap: a move keeps store and reference in agreement exactly when
      it does not confirm a copy that has left the store meanwhile. */
  lemma MoveAgreesExactly(w: World, m: Memory, move: Move)
    requires Agrees(w.store, m)
    ensures Agrees(Moved(w, move).store, Taught(w, m, move)) <==> !Clobbers(w, move)
  {
    hide UnderLock, Pruned, Forget, AfterTurn, Admit;
    match move
    case Begin(_, _, _) =>
    case Sweep(now) => PruneForgets(w.store, m, now);
    case Finish(pid, turn) =>
      if pid in w.flights && w.flights[pid].url.host.Some? {
        FinishAgreesThere(w, m, pid, turn);
        FinishAgreesElsewhere(w, m, pid, turn);
        if Agrees(Moved(w, move).store, Taught(w, m, move)) {
        }
      }
  }

  function AllMoved(w: World, moves: seq<Move>): World
    decreases |moves|
  {
    if moves == [] then w else AllMoved(Moved(w, moves[0]), moves[1..])
  }

  function AllTaught(w: World, m: Memory, moves: seq<Move>): Memory
    decreases |moves|
  {
    if moves == [] then m else AllTaught(Moved(w, moves[0]), Taught(w, m, moves[0]), moves[1..])
  }

  ghost predicate NoneClobbers(w: World, moves: seq<Move>)
    decreases |moves|
  {
    moves == [] || (!Clobbers(w, moves[0]) && NoneClobbers(Moved(w, moves[0]), moves[1..]))
  }

  lemma {:induction false} OverlappingRunsAgree(w: World, m: Memory, moves: seq<Move>)
    requires Agrees(w.store, m) && NoneClobbers(w, moves)
    ensures Agrees(AllMoved(w, moves).store, AllTaught(w, m, moves))
    decreases |moves|
  {
    hide Moved, Taught, Clobbers, Agrees;
    if moves != [] {
      MoveAgreesExactly(w, m, moves[0]);
      OverlappingRunsAgree(Moved(w, moves[0]), Taught(w, m, moves[0]), moves[1..]);
    }
  }

  // --- What overlapping processes hand out --------------------------------------------------

  /** The move ends a call of the process, under its host's lock. */
  predicate Ends(w: World, move: Move) {
    move.Finish? && move.pid in w.flights && w.flights[move.pid].url.host.Some?
  }

  /** The body `get` returns at the end of the call. */
  function Answer(w: World, move: Move): Option<Bytes>
    requires Ends(w, move)
  {
    var f := w.flights[move.pid];
    var host := f.url.host.value;
    UnderLock(w.store, f.url, f.kind, f.page, PolicyOf(host), HostOf(w.hosts, host), move.turn).body
  }

  /** The host was asked and answered about the page. */
  predicate HeardNow(w: World, move: Move)
    requires Ends(w, move)
  {
    var host := w.flights[move.pid].url.host.value;
    Admit(PolicyOf(host), HostOf(w.hosts, host), move.turn).Asked? && Definitive(move.turn.resp)
  }

  // Without an answer the copy loaded earlier is handed out, and nothing is learnt.
  lemma AnswerCases(w: World, m: Memory, move: Move)
    requires Ends(w, move)
    ensures var f := w.flights[move.pid];
            if HeardNow(w, move) then Answer(w, move) == Recall(Taught(w, m, move), f.url)
            else Answer(w, move) == Served(f.page) && Taught(w, m, move) == m
  {
    hide Admit, Refusal, Local, AfterTurn;
  }

  /** What a call hands out at its end is the last definitive answer by then exactly when it
      heard one itself or the copy it loaded is still the one the store would serve. */
  lemma AnswerIsTheLastExactly(w: World, m: Memory, move: Move)
    requires Agrees(w.store, m) && Ends(w, move)
    ensures var f := w.flights[move.pid];
            Answer(w, move) == Recall(Taught(w, m, move), f.url)
            <==> HeardNow(w, move) || Served(f.page) == Served(Load(w.store, f.url))
  {
    AnswerCases(w, m, move);
    RecallIsServed(w.store, m, w.flights[move.pid].url);
  }

  /** The same in the middle of any run in which no copy was clobbered. */
  lemma {:induction false} OverlappingAnswersExactly(w: World, m: Memory, moves: seq<Move>, move: Move)
    requires Agrees(w.store, m) && NoneClobbers(w, moves) && Ends(AllMoved(w, moves), move)
    ensures var now, known := AllMoved(w, moves), AllTaught(w, m, moves);
            var f := now.flights[move.pid];
            Answer(now, move) == Recall(Taught(now, known, move), f.url)
            <==> HeardNow(now, move) || Served(f.page) == Served(Load(now.store, f.url))
  {
    OverlappingRunsAgree(w, m, moves);
    AnswerIsTheLastExactly(AllMoved(w, moves), AllTaught(w, m, moves), move);
  }

  predicate LeavesAlone(move: Move, pid: nat) {
    move.Sweep? || move.pid != pid
  }

  lemma {:induction false} FlightWaits(w: World, moves: seq<Move>, pid: nat)
    requires pid in w.flights && forall i :: 0 <= i < |moves| ==> LeavesAlone(moves[i], pid)
    ensures pid in AllMoved(w, moves).flights && AllMoved(w, moves).flights[pid] == w.flights[pid]
    decreases |moves|
  {
    if moves != [] {
      var w1 := Moved(w, moves[0]);
      assert LeavesAlone(moves[0], pid);
      assert pid in w1.flights && w1.flights[pid] == w.flights[pid];
      forall i | 0 <= i < |moves[1..]| ensures LeavesAlone(moves[1..][i], pid) { assert LeavesAlone(moves[i + 1], pid); }
      hide Moved;
      FlightWaits(w1, moves[1..], pid);
    }
  }

  /** Whatever the other processes do meanwhile, a call hands out what the reference said at
      its beginning or says at its end: never anything older. */
  lemma {:induction false} AnswerIsOfTheCall(w: World, m: Memory, pid: nat, url: Url, kind: string, between: seq<Move>,
                                             turn: Turn)
    requires Agrees(w.store, m) && url.host.Some?
    requires forall i :: 0 <= i < |between| ==> LeavesAlone(between[i], pid)
    ensures var begun := Moved(w, Begin(pid, url, kind));
            var now, known := AllMoved(begun, between), AllTaught(begun, m, between);
            var finish := Finish(pid, turn);
            && Ends(now, finish)
            && Answer(now, finish) in {Recall(m, url), Recall(Taught(now, known, finish), url)}
            && (HeardNow(now, finish) ==> Answer(now, finish) == Recall(Taught(now, known, finish), url))
  {
    var begun := Moved(w, Begin(pid, url, kind));
    assert begun.flights[pid] == Flight(url, kind, Load(w.store, url));
    FlightWaits(begun, between, pid);
    var now, known := AllMoved(begun, between), AllTaught(begun, m, between);
    hide Moved, Taught, Agrees, Answer, HeardNow;
    AnswerCases(now, known, Finish(pid, turn));
    RecallIsServed(w.store, m, url);
  }

  // --- One budget for all processes -------------------------------------------------------

  /** The turns under `host`'s lock, whichever process took them. */
  function HostTurns(w: World, moves: seq<Move>, host: string): seq<Turn>
    decreases |moves|
  {
    if moves == [] then []
    else
      var rest := HostTurns(Moved(w, moves[0]), moves[1..], host);
      if moves[0].Finish? && moves[0].pid in w.flights && w.flights[moves[0].pid].url.host == Some(host) then
        [moves[0].turn] + rest
      else rest
  }

  lemma {:induction false} HostSeesItsTurns(w: World, moves: seq<Move>, host: string)
    ensures HostOf(AllMoved(w, moves).hosts, host)
         == StateAfter(PolicyOf(host), HostOf(w.hosts, host), HostTurns(w, moves, host))
    decreases |moves|
  {
    hide AfterTurn, PolicyOf, UnderLock, Pruned;
    if moves != [] {
      var w1 := Moved(w, moves[0]);
      HostSeesItsTurns(w1, moves[1..], host);
      var rest := HostTurns(w1, moves[1..], host);
      if moves[0].Finish? {
        assert ([moves[0].turn] + rest)[1..] == rest;
      }
    }
  }

  /** However many processes share the directory, what a host is charged for keeps its
      budget, gap and cooldowns. */
  lemma {:induction false} ProcessesShareOneBudget(w: World, moves: seq<Move>, host: string, now: Time)
    requires host !in w.hosts && 0.0 <= now
    requires AllTimely(PolicyOf(host), NEW_HOST, now, HostTurns(w, moves, host))
    ensures var turns := HostTurns(w, moves, host);
            && HostOf(AllMoved(w, moves).hosts, host) == StateAfter(PolicyOf(host), NEW_HOST, turns)
            && Polite(PolicyOf(host), Contacts(PolicyOf(host), NEW_HOST, turns))
  {
    hide Polite, AllTimely, PolicyOf, Contacts, StateAfter;
    EveryPolicyIsSane(host);
    HostSeesItsTurns(w, moves, host);
    EveryRunIsPolite(PolicyOf(host), now, HostTurns(w, moves, host));
  }

  // A run in which it happens.

  const PAGE_URL := Url(Some("h"), "")
  const OLD_PAGE := Page(Meta("feed", 200, 0.0, 0.0, None, None), [0])
  const BOTH_LOADED := World(Store(map[PAGE_URL := OLD_PAGE.meta], map[PAGE_URL := OLD_PAGE.body]), map[],
                             map[1 := Flight(PAGE_URL, "feed", Some(OLD_PAGE)), 2 := Flight(PAGE_URL, "feed", Some(OLD_PAGE))])
  const ONE_PAGE: Memory := map[PAGE_URL := Known(200, [0], 0.0, None, None)]
  const CHANGED := Finish(2, Turn(1.0, 1.0, Response(200, [1], map[], 0, false)))
  const CONFIRMED := Finish(1, Turn(3.0, 3.0, Response(304, [], map[], 0, false)))

  lemma BothLoad()
    ensures var w := BOTH_LOADED.(flights := map[]);
            && Agrees(w.store, ONE_PAGE)
            && AllMoved(w, [Begin(1, PAGE_URL, "feed"), Begin(2, PAGE_URL, "feed")]) == BOTH_LOADED
            && AllTaught(w, ONE_PAGE, [Begin(1, PAGE_URL, "feed"), Begin(2, PAGE_URL, "feed")]) == ONE_PAGE
  {
    var w := BOTH_LOADED.(flights := map[]);
    forall u: Url ensures AgreesOn(w.store, ONE_PAGE, u) {}
    var one, two := Begin(1, PAGE_URL, "feed"), Begin(2, PAGE_URL, "feed");
    var w1 := Moved(w, one);
    assert Moved(w1, two) == BOTH_LOADED;
    assert [one, two][1..] == [two] && [two][1..] == [];
    assert AllMoved(w1, [two]) == AllMoved(BOTH_LOADED, []) == BOTH_LOADED;
    assert AllTaught(w1, ONE_PAGE, [two]) == AllTaught(BOTH_LOADED, ONE_PAGE, []) == ONE_PAGE;
  }

  lemma OneStoresNewVersion()
    ensures !Clobbers(BOTH_LOADED, CHANGED)
    ensures var w := Moved(BOTH_LOADED, CHANGED);
            && PAGE_URL in w.store.bodies && w.store.bodies[PAGE_URL] == [1]
            && w.hosts == map["h" := HostState([1.0], 0, 0.0)]
            && w.flights == map[1 := Flight(PAGE_URL, "feed", Some(OLD_PAGE))]
  {
    assert PolicyOf("h") == DEFAULT_POLICY;
    assert Admit(DEFAULT_POLICY, NEW_HOST, CHANGED.turn) == Asked(1.0);
    assert AfterTurn(DEFAULT_POLICY, NEW_HOST, CHANGED.turn) == HostState([1.0], 0, 0.0);
    assert BOTH_LOADED.flights - {2} == map[1 := Flight(PAGE_URL, "feed", Some(OLD_PAGE))];
  }

  lemma OtherConfirmsOldOne(w: World)
    requires PAGE_URL in w.store.bodies && w.store.bodies[PAGE_URL] == [1]
    requires w.hosts == map["h" := HostState([1.0], 0, 0.0)]
    requires w.flights == map[1 := Flight(PAGE_URL, "feed", Some(OLD_PAGE))]
    ensures Clobbers(w, CONFIRMED)
  {
  }

  /** It does happen, to two processes that overlap for two seconds: both load the page,
      one stores a new version, the server then confirms the old one to the other; the
      store keeps the new body under the old page's validators. */
  lemma ConfirmedCopyCanBeLost()
    ensures exists w: World, m: Memory, before: seq<Move> ::
      && Agrees(w.store, m) && w.flights == map[] && w.hosts == map[]
      && (var w1, m1 := AllMoved(w, before), AllTaught(w, m, before);
          var w2, m2 := Moved(w1, CHANGED), Taught(w1, m1, CHANGED);
          Agrees(w2.store, m2) && !Agrees(Moved(w2, CONFIRMED).store, Taught(w2, m2, CONFIRMED)))
  {
    hide Moved, Taught, Agrees, Clobbers;
    BothLoad();
    OneStoresNewVersion();
    MoveAgreesExactly(BOTH_LOADED, ONE_PAGE, CHANGED);
    var w2, m2 := Moved(BOTH_LOADED, CHANGED), Taught(BOTH_LOADED, ONE_PAGE, CHANGED);
    OtherConfirmsOldOne(w2);
    MoveAgreesExactly(w2, m2, CONFIRMED);
    var before := [Begin(1, PAGE_URL, "feed"), Begin(2, PAGE_URL, "feed")];
    var w := BOTH_LOADED.(flights := map[]);
    assert AllMoved(w, before) == BOTH_LOADED && AllTaught(w, ONE_PAGE, before) == ONE_PAGE;
  }

  const REFUSED := Finish(1, Turn(3.0, 3.0, Response(503, [], map[], 0, false)))

  /** The end of a call can be too late for what it loaded at its beginning: another process
      stored a new page, the host then refuses, and the old page is handed out. */
  lemma StaleCopyIsHandedOut()
    ensures var w, m := Moved(BOTH_LOADED, CHANGED), Taught(BOTH_LOADED, ONE_PAGE, CHANGED);
            && Agrees(w.store, m) && Ends(w, REFUSED)
            && Answer(w, REFUSED) == Some([0]) && Recall(Taught(w, m, REFUSED), PAGE_URL) == Some([1])
  {
    OneStoresNewVersion();
    BothLoad();
    MoveAgreesExactly(BOTH_LOADED, ONE_PAGE, CHANGED);
    assert PolicyOf("h") == DEFAULT_POLICY;
    assert Admit(DEFAULT_POLICY, NEW_HOST, CHANGED.turn) == Asked(1.0);
    var w, m := Moved(BOTH_LOADED, CHANGED), Taught(BOTH_LOADED, ONE_PAGE, CHANGED);
    assert m[PAGE_URL] == Known(200, [1], 1.0, None, None);
    assert Refusal(REFUSED.turn.resp);
    assert !HeardNow(w, REFUSED);
    hide Moved, Agrees, Admit, Taught;
    AnswerCases(w, m, REFUSED);
  }

  // --- The program's own form --------------------------------------------------------------

  /** The cache directory every process shares. */
  class CacheRoot {
    var metas: map<Url, Meta>
    var bodies: map<Url, Bytes>
    var hosts: map<string, HostState>
    var prunedAt: Time

    constructor ()
      ensures Contents() == Disk(Store(map[], map[]), map[], 0.0)
      ensures Agrees(Contents().store, map[])
    {
      metas, bodies, hosts, prunedAt := map[], map[], map[], 0.0;
    }

    function Contents(): Disk
      reads this
    {
      Disk(Store(metas, bodies), hosts, prunedAt)
    }
  }

  class PoliteFetcher {
    const root: CacheRoot
    const cfg: Config
    var pruned: bool

    constructor (root: CacheRoot, cfg: Config)
      ensures this.root == root && this.cfg == cfg && !pruned
    {
      this.root := root;
      this.cfg := cfg;
      pruned := false;
    }

    method Prune(now: Time)
      modifies root
      ensures root.Contents() == old(root.Contents()).(store := Pruned(old(root.Contents().store), now))
    {
      var expired := set url | url in root.metas && now - root.metas[url].checkedAt > PRUNE_AFTER;
      root.metas := root.metas - expired;
      root.bodies := root.bodies - expired;
    }

    /** At most once a day, on the first request of a process. */
    method MaybePrune(r: Readings)
      modifies this`pruned, root
      ensures pruned && root.Contents() == MaybePruned(old(root.Contents()), old(pruned), r)
    {
      if pruned { return; }
      pruned := true;
      var last := root.prunedAt;
      if r.check - last >= DAY {
        Prune(r.prune);
        root.prunedAt := r.check;
      }
    }

    method StorePage(url: Url, kind: string, resp: Response, now: Time)
      modifies root
      ensures root.Contents() == old(root.Contents()).(store := Stored(old(root.Contents().store), url, kind, resp, now))
    {
      root.bodies := root.bodies[url := resp.body];
      root.metas := root.metas[url := Meta(kind, resp.status, now, now, Header(resp.headers, "etag"),
                                           Header(resp.headers, "last-modified"))];
    }

    method Touch(url: Url, meta: Meta, resp: Response, now: Time)
      modifies root
      ensures root.Contents() == old(root.Contents()).(store := Touched(old(root.Contents().store), url, meta, resp, now))
    {
      var touched := meta.(checkedAt := now);
      if Header(resp.headers, "etag").GetOr("") != "" {
        touched := touched.(etag := Header(resp.headers, "etag"));
      }
      if Header(resp.headers, "last-modified").GetOr("") != "" {
        touched := touched.(lastModified := Header(resp.headers, "last-modified"));
      }
      root.metas := root.metas[url := touched];
    }

    /** `get`, calls not overlapping. */
    method Get(url: Url, kind: string, r: Readings, ghost m: Memory) returns (o: Outcome)
      modifies this`pruned, root
      ensures (root.Contents(), o) == GetSpec(cfg, old(root.Contents()), old(pruned), url, kind, r)
      ensures old(Agrees(root.Contents().store, m)) ==>
                var m' := Reminded(cfg, old(root.Contents()), m, old(pruned), url, kind, r);
                Agrees(root.Contents().store, m') && (o.Got? ==> o.body == Recall(m', url))
    {
      ghost var before := root.Contents();
      if Agrees(before.store, m) { GetRefines(cfg, before, m, pruned, url, kind, r); }
      hide Agrees, Reminded, Pruned, Recall;
      if kind !in MAX_AGE { return UnknownKind; }
      if url.host.GetOr("") == "" { return NotAUrl; }
      var host := url.host.value;
      MaybePrune(r);
      var page := Load(root.Contents().store, url);
      if Fresh(cfg, page, url, kind, r.now) { return Got(Served(page), None); }
      o := AskHost(host, url, kind, page, r.turn);
    }

    /** The part of `get` under the host's lock; the state is written back on every way out. */
    method AskHost(host: string, url: Url, kind: string, page: Option<Page>, turn: Turn) returns (o: Outcome)
      modifies root
      ensures var d := old(root.Contents());
              var st := HostOf(d.hosts, host);
              var x := UnderLock(d.store, url, kind, page, PolicyOf(host), st, turn);
              && root.Contents() == d.(store := x.store, hosts := d.hosts[host := AfterTurn(PolicyOf(host), st, turn)])
              && o == Got(x.body, x.sent)
    {
      hide Recent, Latest, CooledDown, RetryAfter, Conditions, Served, PolicyOf;
      var policy := PolicyOf(host);
      var state := HostOf(root.hosts, host);
      var now := turn.entered;
      if now < state.cooldownUntil {
        root.hosts := root.hosts[host := state];
        return Got(Served(page), None);
      }
      state := state.(requests := Recent(state.requests, now));
      if |state.requests| >= policy.dailyBudget {
        root.hosts := root.hosts[host := state];
        return Got(Served(page), None);
      }
      if state.requests != [] {
        var wait := policy.minInterval - (now - Latest(state.requests));
        if wait > 0.0 { now := turn.resumed; }
      }
      var sent := Conditions(page);
      var resp := turn.resp;
      if resp.proxyRefused || (resp.status == 0 && resp.curlExit !in HOST_FAILURES) {
        root.hosts := root.hosts[host := state];
        return Got(Served(page), Some(sent));
      }
      state := state.(requests := state.requests + [now]);
      if resp.status == 0 || resp.status == 403 || resp.status == 429 || resp.status >= 500 {
        state := CooledDown(state, now, RetryAfter(resp.headers));
        root.hosts := root.hosts[host := state];
        return Got(Served(page), Some(sent));
      }
      state := state.(strikes := 0);
      root.hosts := root.hosts[host := state];
      if resp.status == 304 && page.Some? {
        Touch(url, page.value.meta, resp, now);
        return Got(Served(page), Some(sent));
      }
      StorePage(url, kind, resp, now);
      o := Got(if resp.status == 200 then Some(resp.body) else None, Some(sent));
    }
  }
}
