/** The season pool's ingest, `put_pool` of `api/v1/season.py`: a scraped payload is
    reconciled with the stored candidates under two identities, the `dedup_key` and the
    slug-proof `candidate_identity`. */
module Pool {
  import opened Wrappers

  type Id = nat
  type Time = int

  // --- Data -----------------------------------------------------------------------

  /** The scraped columns besides `starts_at`. */
  datatype Field =
    | Lane | Title | EndsAt | Venue | Url | PriceCzk | Program | Detail | EnrichedAt | Score | WhyCs
    | SourceType | SourceName | SeasonEvent | TicketsAvailable

  datatype Value = Text(text: string) | At(time: Time) | Num(number: real) | Flag(flag: bool) | Json(json: string)

  /** An absent field is null; instants are instants, whatever zone they were sent in. So
      two contents are equal exactly when their canonical JSON is, and the content hash
      (taken as injective) is the content itself. */
  datatype Content = Content(startsAt: Time, fields: map<Field, Value>)

  /** An incoming item: the fields it sent, None for an explicit null. */
  datatype Item = Item(key: string, startsAt: Time, sent: map<Field, Option<Value>>)

  datatype PlanStatus = Undecided | Selected | Rejected

  datatype Row = Row(
    key: string, content: Content, hashed: Content, status: PlanStatus, statusAt: Option<Time>, note: Option<string>,
    firstSeen: Time, lastSeen: Time, version: nat, deletedAt: Option<Time>)

  datatype Scenario = Scenario(members: seq<Id>, version: nat)

  /** One season: its candidate rows and its live scenarios. */
  datatype Season = Season(rows: map<Id, Row>, scenarios: map<Id, Scenario>)

  // --- Identity ---------------------------------------------------------------------

  /** `url_identity` and the Prague date of an instant. */
  datatype Naming = Naming(urlIdentity: string -> Option<string>, day: Time -> int)

  datatype Identity = Identity(page: string, day: int)

  function TextOf(c: Content, f: Field): Option<string> {
    if f in c.fields && c.fields[f].Text? then Some(c.fields[f].text) else None
  }

  /** `candidate_identity`. */
  function IdentityOf(n: Naming, c: Content): Option<Identity> {
    match TextOf(c, Url)
    case None => None
    case Some(url) =>
      match n.urlIdentity(url)
      case None => None
      case Some(page) => Some(Identity(page, n.day(c.startsAt)))
  }

  // --- Content -------------------------------------------------------------------------

  /** What an enrichment pass adds: ingest may set these but never clear them. */
  const ENRICHMENT: set<Field> := {Program, Detail, EnrichedAt, Score, WhyCs, SourceType, SourceName}

  /** `item.model_dump()`: what was sent over the schema's defaults. */
  function Dumped(item: Item): Content {
    Content(item.startsAt, map[SeasonEvent := Flag(false)] + map f | f in item.sent && item.sent[f].Some? :: item.sent[f].value)
  }

  /** `_merged_content`. */
  function Merged(c: Content, item: Item): Content {
    var cleared := set f | f in item.sent && item.sent[f].None? && f !in ENRICHMENT;
    Content(item.startsAt, c.fields - cleared + map f | f in item.sent && item.sent[f].Some? :: item.sent[f].value)
  }

  // --- The veto -------------------------------------------------------------------------

  predicate StartsWith(s: string, prefix: string) {
    |prefix| <= |s| && s[..|prefix|] == prefix
  }

  /** `term in haystack`. */
  predicate Contains(haystack: string, term: string) {
    exists i :: 0 <= i <= |haystack| && StartsWith(haystack[i..], term)
  }

  /** `casefold`, of the letters a venue's name is written in without accents. */
  function Folded(s: string): string {
    seq(|s|, i requires 0 <= i < |s| => if 'A' <= s[i] <= 'Z' then (s[i] as int + 32) as char else s[i])
  }

  /** `any(term in haystack for term in veto)`. */
  predicate Caught(haystack: string, veto: seq<string>) {
    exists t :: t in veto && Contains(haystack, t)
  }

  function NameOf(c: Content, f: Field): string {
    Folded(TextOf(c, f).GetOr(""))
  }

  /** `_matches_veto`; folding letter by letter, the space between the names stays. */
  predicate Vetoed(c: Content, veto: seq<string>) {
    Caught(NameOf(c, Venue) + " " + NameOf(c, SourceName), veto)
  }

  // --- The payload ------------------------------------------------------------------------

  function Allowed(items: seq<Item>, veto: seq<string>): seq<Item> {
    if items == [] then []
    else (if Vetoed(Dumped(items[0]), veto) then [] else [items[0]]) + Allowed(items[1..], veto)
  }

  /** `by_key[item.dedup_key] = item`: a known key keeps its place, the item is replaced. */
  function Put(table: seq<Item>, item: Item): seq<Item> {
    if table == [] then [item]
    else if table[0].key == item.key then [item] + table[1..]
    else [table[0]] + Put(table[1..], item)
  }

  function ByKey(items: seq<Item>): seq<Item> {
    if items == [] then [] else Put(ByKey(items[..|items| - 1]), items[|items| - 1])
  }

  function Winners(n: Naming, table: seq<Item>): map<Identity, string> {
    if table == [] then map[]
    else
      var last := table[|table| - 1];
      var earlier := Winners(n, table[..|table| - 1]);
      match IdentityOf(n, Dumped(last))
      case None => earlier
      case Some(i) => earlier[i := last.key]
  }

  function KeptOnly(n: Naming, table: seq<Item>, kept: set<string>): seq<Item> {
    if table == [] then []
    else (if IdentityOf(n, Dumped(table[0])).None? || table[0].key in kept then [table[0]] else [])
         + KeptOnly(n, table[1..], kept)
  }

  /** `_collapse_by_identity`. */
  function Collapsed(n: Naming, table: seq<Item>): seq<Item> {
    KeptOnly(n, table, Winners(n, table).Values)
  }

  function Payload(n: Naming, items: seq<Item>, veto: seq<string>): seq<Item> {
    Collapsed(n, ByKey(Allowed(items, veto)))
  }

  // --- Rows ---------------------------------------------------------------------------------

  predicate Live(rows: map<Id, Row>, id: Id) {
    id in rows && rows[id].deletedAt.None?
  }

  function PurgedRow(row: Row, veto: seq<string>, now: Time): Row {
    if row.deletedAt.None? && Vetoed(row.content, veto) then row.(deletedAt := Some(now), version := row.version + 1) else row
  }

  /** `_purge_vetoed`. */
  function Purged(rows: map<Id, Row>, veto: seq<string>, now: Time): map<Id, Row> {
    map id | id in rows :: PurgedRow(rows[id], veto, now)
  }

  function LiveIds(rows: map<Id, Row>): set<Id> {
    set id | id in rows && Live(rows, id)
  }

  function LiveOnly(rows: map<Id, Row>, ids: seq<Id>): (r: seq<Id>)
    ensures forall id :: id in r <==> id in ids && Live(rows, id)
    ensures forall i :: 0 <= i < |r| ==> r[i] in rows
  {
    if ids == [] then []
    else
      var rest := LiveOnly(rows, ids[1..]);
      assert forall id :: id in ids <==> id == ids[0] || id in ids[1..];
      if Live(rows, ids[0]) then [ids[0]] + rest else rest
  }

  ghost predicate Distinct(ids: seq<Id>) {
    forall i, j :: 0 <= i < j < |ids| ==> ids[i] != ids[j]
  }

  function KeyIndex(rows: map<Id, Row>, ids: seq<Id>): map<string, Id>
    requires forall i :: 0 <= i < |ids| ==> ids[i] in rows
  {
    if ids == [] then map[]
    else KeyIndex(rows, ids[..|ids| - 1])[rows[ids[|ids| - 1]].key := ids[|ids| - 1]]
  }

  function Grouped(groups: map<Identity, seq<Id>>, identity: Option<Identity>, id: Id): map<Identity, seq<Id>> {
    match identity
    case None => groups
    case Some(i) => groups[i := (if i in groups then groups[i] else []) + [id]]
  }

  function IdentityIndex(n: Naming, rows: map<Id, Row>, ids: seq<Id>): map<Identity, seq<Id>>
    requires forall i :: 0 <= i < |ids| ==> ids[i] in rows
  {
    if ids == [] then map[]
    else
      var last := ids[|ids| - 1];
      Grouped(IdentityIndex(n, rows, ids[..|ids| - 1]), IdentityOf(n, rows[last].content), last)
  }

  // --- Merging ---------------------------------------------------------------------------------

  /** The user's marks on the winner once the loser is folded into it. */
  function Absorbed(winner: Row, loser: Row): Row {
    var decided := if winner.status == Undecided && loser.status != Undecided
                   then winner.(status := loser.status, statusAt := loser.statusAt) else winner;
    decided.(note := if winner.note.None? then loser.note else winner.note,
             firstSeen := if loser.firstSeen < winner.firstSeen then loser.firstSeen else winner.firstSeen,
             version := winner.version + 1)
  }

  function Replaced(member: Id, loser: Id, winner: Id): Id {
    if member == loser then winner else member
  }

  /** The member list with the loser's place taken by the winner, first occurrences only. */
  function Rewritten(members: seq<Id>, loser: Id, winner: Id): seq<Id> {
    if members == [] then []
    else
      var earlier := Rewritten(members[..|members| - 1], loser, winner);
      var member := Replaced(members[|members| - 1], loser, winner);
      if member in earlier then earlier else earlier + [member]
  }

  function RewrittenScenario(s: Scenario, loser: Id, winner: Id): Scenario {
    if loser in s.members then Scenario(Rewritten(s.members, loser, winner), s.version + 1) else s
  }

  /** `_merge_candidate`. */
  function MergedInto(s: Season, loser: Id, winner: Id, now: Time): Season
    requires loser in s.rows && winner in s.rows
  {
    var absorbed := s.rows[winner := Absorbed(s.rows[winner], s.rows[loser])];
    Season(absorbed[loser := absorbed[loser].(deletedAt := Some(now), version := absorbed[loser].version + 1)],
           map k | k in s.scenarios :: RewrittenScenario(s.scenarios[k], loser, winner))
  }

  // --- The loop -----------------------------------------------------------------------------------

  datatype Counts = Counts(created: nat, updated: nat, kept: nat, rekeyed: nat, merged: nat)

  /** The loop's variables; `home` traces where each row that was live at the start ended up. */
  datatype Work = Work(season: Season, byKey: map<string, Id>, byIdentity: map<Identity, seq<Id>>, counts: Counts,
                       home: map<Id, Id>)

  function TwinsOf(w: Work, identity: Option<Identity>): (r: seq<Id>)
    ensures forall i :: 0 <= i < |r| ==> r[i] in w.season.rows
  {
    if identity.Some? && identity.value in w.byIdentity then LiveOnly(w.season.rows, w.byIdentity[identity.value]) else []
  }

  /** `max(twins, key=last_seen_at)`: the first of the latest. */
  function LatestSeen(rows: map<Id, Row>, ids: seq<Id>): (r: Id)
    requires ids != [] && forall i :: 0 <= i < |ids| ==> ids[i] in rows
    ensures r in ids
    ensures forall i :: 0 <= i < |ids| ==> rows[ids[i]].lastSeen <= rows[r].lastSeen
    ensures exists k :: 0 <= k < |ids| && ids[k] == r && forall i :: 0 <= i < k ==> rows[ids[i]].lastSeen < rows[r].lastSeen
  {
    if |ids| == 1 then ids[0]
    else
      var best := LatestSeen(rows, ids[..|ids| - 1]);
      if rows[best].lastSeen < rows[ids[|ids| - 1]].lastSeen then ids[|ids| - 1] else best
  }

  function Except(ids: seq<Id>, id: Id): (r: seq<Id>)
    ensures forall x :: x in r <==> x in ids && x != id
    ensures forall i :: 0 <= i < |r| ==> r[i] in ids
  {
    if ids == [] then []
    else
      assert forall x :: x in ids <==> x == ids[0] || x in ids[1..];
      (if ids[0] == id then [] else [ids[0]]) + Except(ids[1..], id)
  }

  /** One turn of the inner loop. */
  function MergeOne(w: Work, loser: Id, winner: Id, now: Time): Work
    requires loser in w.season.rows && winner in w.season.rows
  {
    w.(season := MergedInto(w.season, loser, winner, now),
       byKey := w.byKey - {w.season.rows[loser].key},
       counts := w.counts.(merged := w.counts.merged + 1),
       home := map x | x in w.home :: if w.home[x] == loser then winner else w.home[x])
  }

  function MergeAll(w: Work, losers: seq<Id>, winner: Id, now: Time): (w': Work)
    requires winner in w.season.rows && forall i :: 0 <= i < |losers| ==> losers[i] in w.season.rows
    ensures w'.season.rows.Keys == w.season.rows.Keys
    decreases |losers|
  {
    if losers == [] then w else MergeAll(MergeOne(w, losers[0], winner, now), losers[1..], winner, now)
  }

  function Rekeyed(w: Work, id: Id, key: string): Work
    requires id in w.season.rows
  {
    w.(season := w.season.(rows := w.season.rows[id := w.season.rows[id].(key := key)]),
       byKey := w.byKey[key := id],
       counts := w.counts.(rekeyed := w.counts.rekeyed + 1))
  }

  function Created(w: Work, n: Naming, item: Item, now: Time, hint: nat): Work {
    var id := NewId(w.season.rows.Keys, hint);
    var row := Row(item.key, Dumped(item), Dumped(item), Undecided, None, None, now, now, 1, None);
    w.(season := w.season.(rows := w.season.rows[id := row]),
       byIdentity := Grouped(w.byIdentity, IdentityOf(n, Dumped(item)), id),
       byKey := w.byKey[item.key := id],
       counts := w.counts.(created := w.counts.created + 1))
  }

  /** A row an item is applied to: unchanged but for `last_seen_at` when the hash says so. */
  function Updated(row: Row, item: Item, now: Time): Row {
    var content := Merged(row.content, item);
    if row.hashed == content then row.(lastSeen := now)
    else row.(content := content, hashed := content, lastSeen := now, version := row.version + 1)
  }

  function Refreshed(w: Work, id: Id, item: Item, now: Time): Work
    requires id in w.season.rows
  {
    var row := w.season.rows[id];
    w.(season := w.season.(rows := w.season.rows[id := Updated(row, item, now)]),
       counts := if row.hashed == Merged(row.content, item) then w.counts.(kept := w.counts.kept + 1)
                 else w.counts.(updated := w.counts.updated + 1))
  }

  /** `by_dedup_key.get(key)`; rows never leave the table. */
  function Found(w: Work, key: string): Option<Id> {
    if key in w.byKey && w.byKey[key] in w.season.rows then Some(w.byKey[key]) else None
  }

  /** The row an item finds by its key, or adopts among its twins. */
  function Adopted(w: Work, twins: seq<Id>, key: string): (r: (Work, Option<Id>))
    requires forall i :: 0 <= i < |twins| ==> twins[i] in w.season.rows
    ensures r.0.season.rows.Keys == w.season.rows.Keys
    ensures r.1.Some? ==> r.1.value in w.season.rows
  {
    if Found(w, key).Some? then (w, Found(w, key))
    else if twins != [] then
      var id := LatestSeen(w.season.rows, twins);
      (Rekeyed(w, id, key), Some(id))
    else (w, None)
  }

  /** One turn of the outer loop. */
  function Ingested(w: Work, n: Naming, item: Item, now: Time, hint: nat): Work {
    var twins := TwinsOf(w, IdentityOf(n, Dumped(item)));
    var (w1, found) := Adopted(w, twins, item.key);
    match found
    case None => Created(w1, n, item, now, hint)
    case Some(id) =>
      var losers := Except(twins, id);
      Refreshed(MergeAll(w1, losers, id, now), id, item, now)
  }

  function IngestAll(w: Work, n: Naming, items: seq<Item>, now: Time, hint: nat): Work
    decreases |items|
  {
    if items == [] then w
    else IngestAll(Ingested(w, n, items[0], now, hint), n, items[1..], now, hint)
  }

  // --- The whole request ---------------------------------------------------------------------------

  datatype PutResult = PutResult(counts: Counts, total: int, vetoed: int, purged: int, collapsed: int)

  /** `order` is the order in which the database returned the season's live rows. */
  ghost predicate ScanOrder(rows: map<Id, Row>, order: seq<Id>) {
    Distinct(order) && forall id :: id in order <==> Live(rows, id)
  }

  /** The loop's variables before its first turn. */
  function Prepared(n: Naming, s: Season, live: seq<Id>): Work
    requires forall i :: 0 <= i < |live| ==> live[i] in s.rows
  {
    Work(s, KeyIndex(s.rows, live), IdentityIndex(n, s.rows, live), Counts(0, 0, 0, 0, 0), map id | id in live :: id)
  }

  function PurgedWork(n: Naming, s: Season, order: seq<Id>, veto: seq<string>, now: Time): Work {
    var rows := Purged(s.rows, veto, now);
    Prepared(n, s.(rows := rows), LiveOnly(rows, order))
  }

  /** `put_pool`. */
  function PutPool(n: Naming, s: Season, order: seq<Id>, items: seq<Item>, veto: seq<string>, now: Time,
                   hint: nat): (Work, PutResult) {
    var payload := Payload(n, items, veto);
    var w := IngestAll(PurgedWork(n, s, order, veto, now), n, payload, now, hint);
    (w, PutResult(w.counts, |payload|, |items| - |Allowed(items, veto)|,
                  |LiveIds(s.rows)| - |LiveIds(Purged(s.rows, veto, now))|, |Allowed(items, veto)| - |payload|))
  }
}
