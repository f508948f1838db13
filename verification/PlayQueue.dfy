/** Cutting a running order into loads the player accepts: `buildSegments` of
    `apps/api/web/src/domain/playQueue.ts`. */
module PlayQueue {
  import opened Wrappers

  /** Spotify's cap on the uris of one load. */
  const MAX_URIS := 100

  datatype Kind = Tracks | Album

  datatype Item = Item(key: string, uris: seq<string>, kind: Kind)

  /** One load: an album to play as a context, or a run of track uris. */
  datatype Cut = Cut(contextUri: Option<string>, items: seq<nat>, uris: seq<string>)

  datatype Where = Where(segment: nat, offset: nat)

  datatype Place = Place(item: nat, movement: nat, segment: nat, offset: nat)

  datatype Occurrence = Occurrence(uri: string, place: Place)

  // --- Specification --------------------------------------------------------------------

  /** The cut of a queue's beginning; `open` when the last segment is a run that may grow. */
  datatype Cutting = Cutting(segments: seq<Cut>, open: bool, whereIs: seq<Where>, found: seq<Occurrence>)

  function OccurrencesOf(uris: seq<string>, item: nat, segment: nat, offset: nat): (r: seq<Occurrence>)
    ensures |r| == |uris|
    ensures forall m :: 0 <= m < |uris| ==> r[m] == Occurrence(uris[m], Place(item, m, segment, offset + m))
  {
    if uris == [] then []
    else
      var last := |uris| - 1;
      OccurrencesOf(uris[..last], item, segment, offset) + [Occurrence(uris[last], Place(item, last, segment, offset + last))]
  }

  function Extended(c: Cutting, item: Item): Cutting
    requires c.open ==> c.segments != []
  {
    var n, last := |c.whereIs|, |c.segments| - 1;
    if item.kind == Album then
      Cutting(c.segments + [Cut(if item.uris == [] then None else Some(item.uris[0]), [n], [])], false,
              c.whereIs + [Where(|c.segments|, 0)], c.found)
    else if !c.open || |c.segments[last].uris| + |item.uris| > MAX_URIS then
      Cutting(c.segments + [Cut(None, [n], item.uris)], true,
              c.whereIs + [Where(|c.segments|, 0)], c.found + OccurrencesOf(item.uris, n, |c.segments|, 0))
    else
      var run := c.segments[last];
      Cutting(c.segments[last := Cut(run.contextUri, run.items + [n], run.uris + item.uris)], true,
              c.whereIs + [Where(last, |run.uris|)], c.found + OccurrencesOf(item.uris, n, last, |run.uris|))
  }

  function CutAll(queue: seq<Item>): (c: Cutting)
    ensures c.open ==> c.segments != []
    ensures |c.whereIs| == |queue|
  {
    if queue == [] then Cutting([], false, [], []) else Extended(CutAll(queue[..|queue| - 1]), queue[|queue| - 1])
  }

  // --- What a cut must be -----------------------------------------------------------------

  function AllItems(segments: seq<Cut>): seq<nat> {
    if segments == [] then [] else AllItems(segments[..|segments| - 1]) + segments[|segments| - 1].items
  }

  function UrisOf(queue: seq<Item>, items: seq<nat>): seq<string>
    requires forall k :: 0 <= k < |items| ==> items[k] < |queue|
  {
    if items == [] then []
    else
      UrisOf(queue, items[..|items| - 1]) + queue[items[|items| - 1]].uris
  }

  ghost predicate IsAlbum(queue: seq<Item>, s: Cut) {
    && |s.items| == 1 && s.items[0] < |queue| && s.uris == []
    && var item := queue[s.items[0]];
       item.kind == Album && s.contextUri == if item.uris == [] then None else Some(item.uris[0])
  }

  ghost predicate IsRun(queue: seq<Item>, s: Cut) {
    && s.contextUri == None && s.items != []
    && (forall k :: 0 <= k < |s.items| ==> s.items[k] < |queue| && queue[s.items[k]].kind == Tracks)
    && s.uris == UrisOf(queue, s.items)
    && (|s.uris| > 100 ==> |s.items| == 1)
  }

  /** Neighbouring runs that could not have shared the piece at their boundary. */
  ghost predicate CannotJoin(queue: seq<Item>, a: Cut, b: Cut) {
    IsRun(queue, a) && IsRun(queue, b) ==> |a.uris| + |queue[b.items[0]].uris| > 100
  }

  /** The item is in the segment, and its uris start at the offset. */
  ghost predicate Located(queue: seq<Item>, segments: seq<Cut>, i: nat, w: Where)
    requires i < |queue|
  {
    && w.segment < |segments| && i in segments[w.segment].items
    && (queue[i].kind == Album ==> w.offset == 0)
    && (queue[i].kind == Tracks ==>
          && w.offset + |queue[i].uris| <= |segments[w.segment].uris|
          && segments[w.segment].uris[w.offset..w.offset + |queue[i].uris|] == queue[i].uris)
  }

  /** Every occurrence of a track, in playing order. */
  function AllOccurrences(queue: seq<Item>, whereIs: seq<Where>): seq<Occurrence>
    requires |whereIs| == |queue|
  {
    if queue == [] then []
    else
      var n := |queue| - 1;
      AllOccurrences(queue[..n], whereIs[..n])
      + if queue[n].kind == Tracks then OccurrencesOf(queue[n].uris, n, whereIs[n].segment, whereIs[n].offset) else []
  }

  ghost predicate SegmentsOk(queue: seq<Item>, segments: seq<Cut>) {
    && AllItems(segments) == seq(|queue|, i => i)
    && (forall s :: 0 <= s < |segments| ==> IsAlbum(queue, segments[s]) || IsRun(queue, segments[s]))
    && (forall s :: 0 < s < |segments| ==> CannotJoin(queue, segments[s - 1], segments[s]))
  }

  /** The last segment is open exactly when it is a run. */
  ghost predicate EndsOk(queue: seq<Item>, segments: seq<Cut>, open: bool) {
    if open then segments != [] && IsRun(queue, segments[|segments| - 1])
    else segments != [] ==> IsAlbum(queue, segments[|segments| - 1])
  }

  ghost predicate CutOk(queue: seq<Item>, c: Cutting) {
    && SegmentsOk(queue, c.segments)
    && AllLocated(queue, c.segments, c.whereIs)
    && EndsOk(queue, c.segments, c.open)
    && c.found == AllOccurrences(queue, c.whereIs)
  }

  // --- One more item ------------------------------------------------------------------------

  lemma {:induction false} UrisOfGrown(queue: seq<Item>, item: Item, items: seq<nat>)
    requires forall k :: 0 <= k < |items| ==> items[k] < |queue|
    ensures UrisOf(queue + [item], items) == UrisOf(queue, items)
  {
    if items != [] { UrisOfGrown(queue, item, items[..|items| - 1]); }
  }

  lemma {:induction false} SegmentGrown(queue: seq<Item>, item: Item, s: Cut)
    ensures IsAlbum(queue, s) ==> IsAlbum(queue + [item], s)
    ensures IsRun(queue, s) ==> IsRun(queue + [item], s)
    ensures IsAlbum(queue, s) ==> !IsRun(queue + [item], s)
  {
    if IsRun(queue, s) { UrisOfGrown(queue, item, s.items); }
  }

  /** The segment kept what it held. */
  ghost predicate Keeps(s: Cut, s': Cut) {
    (forall x :: x in s.items ==> x in s'.items) && s.uris <= s'.uris
  }

  ghost predicate GrowInto(segments: seq<Cut>, segments': seq<Cut>) {
    |segments| <= |segments'| && forall s :: 0 <= s < |segments| ==> Keeps(segments[s], segments'[s])
  }

  lemma {:induction false} ExtendingGrows(segments: seq<Cut>, cut: Cut, n: nat, uris: seq<string>)
    requires segments != []
    requires var run := segments[|segments| - 1]; cut == Cut(run.contextUri, run.items + [n], run.uris + uris)
    ensures GrowInto(segments, segments[|segments| - 1 := cut])
  {
  }

  lemma {:induction false} OccurrencesGrown(queue: seq<Item>, whereIs: seq<Where>, item: Item, w: Where)
    requires |whereIs| == |queue|
    ensures AllOccurrences(queue + [item], whereIs + [w])
         == AllOccurrences(queue, whereIs)
            + if item.kind == Tracks then OccurrencesOf(item.uris, |queue|, w.segment, w.offset) else []
  {
  }

  lemma {:induction false} LastItemsGrown(segments: seq<Cut>, n: nat, cut: Cut)
    requires AllItems(segments) == seq(n, i => i) && segments != []
    requires cut.items == segments[|segments| - 1].items + [n]
    ensures AllItems(segments[|segments| - 1 := cut]) == seq(n + 1, i => i)
  {
    var longer := segments[|segments| - 1 := cut];
    assert longer[..|longer| - 1] == segments[..|segments| - 1];
    assert AllItems(longer) == AllItems(segments) + [n];
  }

  // A new segment behind the others.
  lemma {:induction false} AppendedOk(queue: seq<Item>, segments: seq<Cut>, item: Item, cut: Cut)
    requires SegmentsOk(queue, segments) && cut.items == [|queue|]
    requires IsAlbum(queue + [item], cut) || IsRun(queue + [item], cut)
    requires segments != [] ==> CannotJoin(queue + [item], segments[|segments| - 1], cut)
    ensures SegmentsOk(queue + [item], segments + [cut])
  {
    var queue', longer := queue + [item], segments + [cut];
    forall s | 0 <= s < |longer| ensures IsAlbum(queue', longer[s]) || IsRun(queue', longer[s]) {
      if s < |segments| { SegmentGrown(queue, item, segments[s]); }
    }
    forall s | 0 < s < |longer| ensures CannotJoin(queue', longer[s - 1], longer[s]) {
    }
  }

  lemma {:induction false} RunGrown(queue: seq<Item>, item: Item, run: Cut)
    requires IsRun(queue, run) && item.kind == Tracks && |run.uris| + |item.uris| <= MAX_URIS
    ensures IsRun(queue + [item], Cut(run.contextUri, run.items + [|queue|], run.uris + item.uris))
  {
    UrisOfGrown(queue, item, run.items);
    var items := run.items + [|queue|];
    assert items[..|run.items|] == run.items;
  }

  lemma {:induction false} CannotJoinGrown(queue: seq<Item>, item: Item, a: Cut, b: Cut, b': Cut)
    requires CannotJoin(queue, a, b) && IsRun(queue, b) && b.items <= b'.items && (IsAlbum(queue, a) || IsRun(queue, a))
    ensures CannotJoin(queue + [item], a, b')
  {
    hide UrisOf;
    SegmentGrown(queue, item, a);
    assert b'.items[0] == b.items[0];
  }

  // The last run takes one more piece.
  lemma {:induction false} ExtendedRunOk(queue: seq<Item>, segments: seq<Cut>, item: Item)
    requires SegmentsOk(queue, segments) && segments != [] && item.kind == Tracks
    requires IsRun(queue, segments[|segments| - 1]) && |segments[|segments| - 1].uris| + |item.uris| <= MAX_URIS
    ensures var run := segments[|segments| - 1];
            var cut := Cut(run.contextUri, run.items + [|queue|], run.uris + item.uris);
            IsRun(queue + [item], cut) && SegmentsOk(queue + [item], segments[|segments| - 1 := cut])
  {
    var queue', run := queue + [item], segments[|segments| - 1];
    var cut := Cut(run.contextUri, run.items + [|queue|], run.uris + item.uris);
    RunGrown(queue, item, run);
    var longer := segments[|segments| - 1 := cut];
    LastItemsGrown(segments, |queue|, cut);
    forall s | 0 <= s < |longer| ensures IsAlbum(queue', longer[s]) || IsRun(queue', longer[s]) {
      SegmentGrown(queue, item, segments[s]);
    }
    forall s | 0 < s < |longer| ensures CannotJoin(queue', longer[s - 1], longer[s]) {
      if s == |longer| - 1 { CannotJoinGrown(queue, item, segments[s - 1], run, cut); }
    }
  }

  ghost predicate AllLocated(queue: seq<Item>, segments: seq<Cut>, whereIs: seq<Where>) {
    |whereIs| == |queue| && forall i :: 0 <= i < |queue| ==> Located(queue, segments, i, whereIs[i])
  }

  lemma {:induction false} AllLocatedGrown(queue: seq<Item>, segments: seq<Cut>, whereIs: seq<Where>, item: Item,
                                           segments': seq<Cut>, w: Where)
    requires AllLocated(queue, segments, whereIs) && Located(queue + [item], segments', |queue|, w)
    requires GrowInto(segments, segments')
    ensures AllLocated(queue + [item], segments', whereIs + [w])
  {
  }

  lemma {:induction false} NewSegmentFits(queue: seq<Item>, c: Cutting, item: Item, cut: Cut)
    requires CutOk(queue, c) && cut.items == [|queue|]
    requires if item.kind == Album then cut.uris == [] && cut.contextUri == (if item.uris == [] then None else Some(item.uris[0]))
             else cut.uris == item.uris && cut.contextUri == None
    requires item.kind == Album || !c.open || |c.segments[|c.segments| - 1].uris| + |item.uris| > MAX_URIS
    ensures SegmentsOk(queue + [item], c.segments + [cut])
    ensures if item.kind == Album then IsAlbum(queue + [item], cut) else IsRun(queue + [item], cut)
  {
    var queue', n := queue + [item], |queue|;
    assert UrisOf(queue', [n]) == item.uris by { assert [n][..0] == []; }
    if c.segments != [] {
      var last := c.segments[|c.segments| - 1];
      SegmentGrown(queue, item, last);
      assert CannotJoin(queue', last, cut);
    }
    AppendedOk(queue, c.segments, item, cut);
  }

  lemma {:induction false} NewSegmentPlaces(queue: seq<Item>, segments: seq<Cut>, item: Item, cut: Cut)
    requires cut.items == [|queue|] && (item.kind == Tracks ==> cut.uris == item.uris)
    ensures Located(queue + [item], segments + [cut], |queue|, Where(|segments|, 0)) && GrowInto(segments, segments + [cut])
  {
  }

  lemma {:induction false} NewSegmentIs(queue: seq<Item>, c: Cutting, item: Item) returns (cut: Cut)
    requires |c.whereIs| == |queue| && (c.open ==> c.segments != [])
    requires item.kind == Album || !c.open || |c.segments[|c.segments| - 1].uris| + |item.uris| > MAX_URIS
    ensures cut.items == [|queue|]
    ensures if item.kind == Album then cut.uris == [] && cut.contextUri == (if item.uris == [] then None else Some(item.uris[0]))
            else cut.uris == item.uris && cut.contextUri == None
    ensures Extended(c, item)
            == Cutting(c.segments + [cut], item.kind != Album, c.whereIs + [Where(|c.segments|, 0)],
                       c.found + if item.kind == Tracks then OccurrencesOf(item.uris, |queue|, |c.segments|, 0) else [])
  {
    hide OccurrencesOf;
    assert c.found + [] == c.found;
    cut := Extended(c, item).segments[|c.segments|];
  }

  lemma {:induction false} NewSegmentOk(queue: seq<Item>, c: Cutting, item: Item)
    requires CutOk(queue, c)
    requires item.kind == Album || !c.open || |c.segments[|c.segments| - 1].uris| + |item.uris| > MAX_URIS
    ensures CutOk(queue + [item], Extended(c, item))
  {
    hide Extended, IsRun, IsAlbum, SegmentsOk, UrisOf, AllOccurrences, OccurrencesOf, Located, GrowInto;
    var cut := NewSegmentIs(queue, c, item);
    var w := Where(|c.segments|, 0);
    NewSegmentFits(queue, c, item, cut);
    NewSegmentPlaces(queue, c.segments, item, cut);
    OccurrencesGrown(queue, c.whereIs, item, w);
    AllLocatedGrown(queue, c.segments, c.whereIs, item, c.segments + [cut], w);
  }

  lemma {:induction false} SharedIsLocated(queue: seq<Item>, segments: seq<Cut>, item: Item, cut: Cut, run: Cut)
    requires item.kind == Tracks && segments != [] && segments[|segments| - 1] == cut
    requires cut.items == run.items + [|queue|] && cut.uris == run.uris + item.uris
    ensures Located(queue + [item], segments, |queue|, Where(|segments| - 1, |run.uris|))
  {
  }

  lemma {:induction false} SharedSegmentOk(queue: seq<Item>, c: Cutting, item: Item)
    requires CutOk(queue, c)
    requires item.kind == Tracks && c.open && |c.segments[|c.segments| - 1].uris| + |item.uris| <= MAX_URIS
    ensures CutOk(queue + [item], Extended(c, item))
  {
    var queue', c', last := queue + [item], Extended(c, item), |c.segments| - 1;
    var run := c.segments[last];
    var cut, w := Cut(run.contextUri, run.items + [|queue|], run.uris + item.uris), Where(last, |run.uris|);
    assert c'.segments == c.segments[last := cut] && c'.whereIs == c.whereIs + [w];
    ExtendedRunOk(queue, c.segments, item);
    OccurrencesGrown(queue, c.whereIs, item, w);
    assert EndsOk(queue', c'.segments, c'.open);
    ExtendingGrows(c.segments, cut, |queue|, item.uris);
    hide IsRun, IsAlbum, SegmentsOk, UrisOf, AllOccurrences, OccurrencesOf, Located, AllLocated, EndsOk, GrowInto;
    SharedIsLocated(queue, c'.segments, item, cut, run);
    AllLocatedGrown(queue, c.segments, c.whereIs, item, c'.segments, w);
    assert c'.found == AllOccurrences(queue', c'.whereIs);
    hide Extended;
  }

  lemma NothingIsOk()
    ensures CutOk([], CutAll([]))
  {
  }

  /** Every cut of every queue: all items once and in order, each segment one album or one
      run with its items' uris in order, an over-long run only for a single piece, no two
      neighbouring runs that could have shared a piece, and every item and every track
      occurrence indexed where it is. */
  lemma {:induction false} CutIsOk(queue: seq<Item>)
    ensures CutOk(queue, CutAll(queue))
  {
    hide CutOk;
    if queue == [] {
      NothingIsOk();
    } else {
      var shorter, item := queue[..|queue| - 1], queue[|queue| - 1];
      CutIsOk(shorter);
      assert queue == shorter + [item];
      var c := CutAll(shorter);
      if item.kind == Album || !c.open || |c.segments[|c.segments| - 1].uris| + |item.uris| > MAX_URIS {
        NewSegmentOk(shorter, c, item);
      } else {
        SharedSegmentOk(shorter, c, item);
      }
    }
  }

  ghost predicate Occurs(queue: seq<Item>, i: nat, m: nat) {
    i < |queue| && queue[i].kind == Tracks && m < |queue[i].uris|
  }

  ghost predicate OccurrenceOk(queue: seq<Item>, whereIs: seq<Where>, o: Occurrence)
    requires |whereIs| == |queue|
  {
    && Occurs(queue, o.place.item, o.place.movement) && o.uri == queue[o.place.item].uris[o.place.movement]
    && o.place.segment == whereIs[o.place.item].segment
    && o.place.offset == whereIs[o.place.item].offset + o.place.movement
  }

  lemma {:induction false} OccurrencesAreOk(queue: seq<Item>, whereIs: seq<Where>, o: Occurrence)
    requires |whereIs| == |queue| && o in AllOccurrences(queue, whereIs)
    ensures OccurrenceOk(queue, whereIs, o)
  {
    var n := |queue| - 1;
    if o in AllOccurrences(queue[..n], whereIs[..n]) {
      OccurrencesAreOk(queue[..n], whereIs[..n], o);
    }
  }

  lemma {:induction false} EveryMovementOccurs(queue: seq<Item>, whereIs: seq<Where>, i: nat, m: nat)
    requires |whereIs| == |queue| && Occurs(queue, i, m)
    ensures Occurrence(queue[i].uris[m], Place(i, m, whereIs[i].segment, whereIs[i].offset + m)) in AllOccurrences(queue, whereIs)
  {
    var n := |queue| - 1;
    if i < n {
      EveryMovementOccurs(queue[..n], whereIs[..n], i, m);
    } else {
      var last := OccurrencesOf(queue[n].uris, n, whereIs[n].segment, whereIs[n].offset);
      assert last[m] in last;
    }
  }

  /** What is listed is there. */
  lemma {:induction false} ListedIsThere(queue: seq<Item>, o: Occurrence)
    requires o in CutAll(queue).found
    ensures var c := CutAll(queue);
            && Occurs(queue, o.place.item, o.place.movement) && o.uri == queue[o.place.item].uris[o.place.movement]
            && o.place.segment < |c.segments| && o.place.item in c.segments[o.place.segment].items
            && o.place.offset < |c.segments[o.place.segment].uris|
            && c.segments[o.place.segment].uris[o.place.offset] == o.uri
  {
    var c := CutAll(queue);
    CutIsOk(queue);
    OccurrencesAreOk(queue, c.whereIs, o);
    var i, m := o.place.item, o.place.movement;
    var w := c.whereIs[i];
    assert Located(queue, c.segments, i, w);
    hide CutOk, AllOccurrences, CutAll, AllLocated;
    assert c.segments[w.segment].uris[w.offset..w.offset + |queue[i].uris|][m] == queue[i].uris[m];
  }

  /** The index of occurrences is exact: what it lists is at that place of its segment, and
      it lists every movement of every track-resolved piece. */
  lemma {:induction false} PlacesAreExact(queue: seq<Item>)
    ensures var c := CutAll(queue);
            && (forall o :: o in c.found ==>
                  && Occurs(queue, o.place.item, o.place.movement) && o.uri == queue[o.place.item].uris[o.place.movement]
                  && o.place.segment < |c.segments| && o.place.offset < |c.segments[o.place.segment].uris|
                  && c.segments[o.place.segment].uris[o.place.offset] == o.uri)
            && (forall i: nat, m: nat :: Occurs(queue, i, m) ==>
                  exists o :: o in c.found && o.place.item == i && o.place.movement == m)
  {
    var c := CutAll(queue);
    CutIsOk(queue);
    hide SegmentsOk, AllOccurrences;
    forall o | o in c.found
      ensures Occurs(queue, o.place.item, o.place.movement) && o.uri == queue[o.place.item].uris[o.place.movement]
      ensures o.place.segment < |c.segments| && o.place.offset < |c.segments[o.place.segment].uris|
              && c.segments[o.place.segment].uris[o.place.offset] == o.uri
    {
      ListedIsThere(queue, o);
    }
    forall i: nat, m: nat | Occurs(queue, i, m) ensures exists o :: o in c.found && o.place.item == i && o.place.movement == m {
      EveryMovementOccurs(queue, c.whereIs, i, m);
    }
  }

  // --- The program's own form -----------------------------------------------------------------

  /** `placeOf`, as the program fills it. */
  function PlacesOf(found: seq<Occurrence>, uri: string): seq<Place> {
    if found == [] then []
    else
      PlacesOf(found[..|found| - 1], uri)
      + if found[|found| - 1].uri == uri then [found[|found| - 1].place] else []
  }

  ghost predicate Indexes(placeOf: map<string, seq<Place>>, found: seq<Occurrence>) {
    forall uri :: (if uri in placeOf then placeOf[uri] else []) == PlacesOf(found, uri)
  }

  class Segment {
    var contextUri: Option<string>
    var items: seq<nat>
    var uris: seq<string>

    constructor (contextUri: Option<string>, items: seq<nat>)
      ensures this.contextUri == contextUri && this.items == items && uris == []
    {
      this.contextUri, this.items, uris := contextUri, items, [];
    }

    ghost function View(): Cut
      reads this
    {
      Cut(contextUri, items, uris)
    }
  }

  ghost function Views(segments: seq<Segment>): (cuts: seq<Cut>)
    reads segments
    ensures |cuts| == |segments|
  {
    if segments == [] then [] else Views(segments[..|segments| - 1]) + [segments[|segments| - 1].View()]
  }

  lemma {:induction false} IndexOneMore(placeOf: map<string, seq<Place>>, found: seq<Occurrence>, o: Occurrence)
    requires Indexes(placeOf, found)
    ensures Indexes(placeOf[o.uri := (if o.uri in placeOf then placeOf[o.uri] else []) + [o.place]], found + [o])
  {
  }

  lemma {:induction false} OneMoreOccurrence(uris: seq<string>, item: nat, segment: nat, offset: nat, m: nat)
    requires m < |uris|
    ensures OccurrencesOf(uris[..m + 1], item, segment, offset)
         == OccurrencesOf(uris[..m], item, segment, offset) + [Occurrence(uris[m], Place(item, m, segment, offset + m))]
  {
  }

  /** The segments with a run at the end that takes the item. */
  function Ready(segments: seq<Cut>, open: bool, item: Item): (ready: seq<Cut>)
    requires open ==> segments != []
    ensures ready != []
  {
    if !open || |segments[|segments| - 1].uris| + |item.uris| > MAX_URIS then segments + [Cut(None, [], [])] else segments
  }

  function Grown(ready: seq<Cut>, n: nat, item: Item): seq<Cut>
    requires ready != []
  {
    var last := ready[|ready| - 1];
    ready[|ready| - 1 := Cut(last.contextUri, last.items + [n], last.uris + item.uris)]
  }

  lemma {:induction false} RunExtends(c: Cutting, item: Item)
    requires item.kind == Tracks && (c.open ==> c.segments != [])
    ensures var ready := Ready(c.segments, c.open, item);
            var last := |ready| - 1;
            && Extended(c, item).segments == Grown(ready, |c.whereIs|, item)
            && Extended(c, item).whereIs == c.whereIs + [Where(last, |ready[last].uris|)]
            && Extended(c, item).found == c.found + OccurrencesOf(item.uris, |c.whereIs|, last, |ready[last].uris|)
            && Extended(c, item).open
  {
    hide OccurrencesOf;
    var ready := Ready(c.segments, c.open, item);
    assert [] + item.uris == item.uris && [] + [|c.whereIs|] == [|c.whereIs|];
    assert Extended(c, item).segments == Grown(ready, |c.whereIs|, item);
  }

  /** The inner `forEach`: each movement is indexed and pushed onto the run. */
  method PushUris(run: Segment, item: Item, index: nat, segment: nat, placeOf: map<string, seq<Place>>,
                  ghost found: seq<Occurrence>)
    returns (places: map<string, seq<Place>>)
    requires Indexes(placeOf, found)
    modifies run`uris
    ensures run.uris == old(run.uris) + item.uris
    ensures Indexes(places, found + OccurrencesOf(item.uris, index, segment, |old(run.uris)|))
  {
    hide Indexes;
    places := placeOf;
    var movement := 0;
    assert found + [] == found && OccurrencesOf(item.uris[..0], index, segment, |run.uris|) == [];
    while movement < |item.uris|
      invariant 0 <= movement <= |item.uris|
      invariant run.uris == old(run.uris) + item.uris[..movement]
      invariant Indexes(places, found + OccurrencesOf(item.uris[..movement], index, segment, |old(run.uris)|))
    {
      var uri := item.uris[movement];
      var place := Place(index, movement, segment, |run.uris|);
      ghost var before := found + OccurrencesOf(item.uris[..movement], index, segment, |old(run.uris)|);
      OneMoreOccurrence(item.uris, index, segment, |old(run.uris)|, movement);
      IndexOneMore(places, before, Occurrence(uri, place));
      places := places[uri := (if uri in places then places[uri] else []) + [place]];
      run.uris := run.uris + [uri];
      assert found + (OccurrencesOf(item.uris[..movement], index, segment, |old(run.uris)|) + [Occurrence(uri, place)])
          == before + [Occurrence(uri, place)];
      movement := movement + 1;
    }
    assert item.uris[..movement] == item.uris;
  }

  /** `run` is the last segment and no other. */
  ghost predicate IsLast(run: Segment, segments: seq<Segment>) {
    segments != [] && run == segments[|segments| - 1] && run !in segments[..|segments| - 1]
  }

  /** The program's variables hold the cut; `run` is the last segment while it may grow. */
  ghost predicate Holds(c: Cutting, segments: seq<Segment>, placeOf: map<string, seq<Place>>,
                        segmentOfItem: seq<Where>, run: Segment?)
    reads segments
  {
    && Views(segments) == c.segments
    && segmentOfItem == c.whereIs && Indexes(placeOf, c.found)
    && (if c.open then run != null && IsLast(run, segments) else run == null)
  }

  /** The body of `forEach` for an album. */
  method AppendAlbum(segments: seq<Segment>, item: Item, index: nat) returns (longer: seq<Segment>)
    ensures |longer| == |segments| + 1 && longer[..|segments|] == segments && fresh(longer[|segments|])
    ensures Views(longer) == Views(segments) + [Cut(if item.uris == [] then None else Some(item.uris[0]), [index], [])]
  {
    var album := new Segment(if item.uris == [] then None else Some(item.uris[0]), [index]);
    longer := segments + [album];
    assert longer[..|longer| - 1] == segments;
  }

  /** The body of `forEach` for a track-resolved piece. */
  method AppendTracks(segments: seq<Segment>, run: Segment?, item: Item, index: nat, placeOf: map<string, seq<Place>>,
                      ghost found: seq<Occurrence>)
    returns (longer: seq<Segment>, segment: Segment, w: Where, places: map<string, seq<Place>>)
    requires Indexes(placeOf, found)
    requires run != null ==> IsLast(run, segments)
    modifies if run == null then {} else {run}
    ensures IsLast(segment, longer)
    ensures longer == segments || (longer == segments + [segment] && fresh(segment))
    ensures var ready := Ready(old(Views(segments)), run != null, item);
            var last := |ready| - 1;
            && |longer| == |ready| && Views(longer) == Grown(ready, index, item)
            && w == Where(last, |ready[last].uris|)
            && Indexes(places, found + OccurrencesOf(item.uris, index, last, |ready[last].uris|))
  {
    hide Indexes, OccurrencesOf;
    ghost var before := Views(segments);
    if run == null || |run.uris| + |item.uris| > MAX_URIS {
      segment := new Segment(None, []);
      longer := segments + [segment];
      assert longer[..|longer| - 1] == segments;
    } else {
      segment := run;
      longer := segments;
    }
    ghost var ready, others := Views(longer), longer[..|longer| - 1];
    assert ready == Ready(before, run != null, item);
    ghost var was := Views(others);
    w := Where(|longer| - 1, |segment.uris|);
    segment.items := segment.items + [index];
    places := PushUris(segment, item, index, |longer| - 1, placeOf, found);
    assert Views(others) == was;
    assert Views(longer) == was + [segment.View()];
  }

  /** One turn of `forEach`. */
  method AppendItem(segments: seq<Segment>, run: Segment?, item: Item, index: nat, placeOf: map<string, seq<Place>>,
                    segmentOfItem: seq<Where>, ghost c: Cutting)
    returns (longer: seq<Segment>, run': Segment?, places: map<string, seq<Place>>, whereIs: seq<Where>)
    requires (c.open ==> c.segments != []) && |c.whereIs| == index && Holds(c, segments, placeOf, segmentOfItem, run)
    modifies if run == null then {} else {run}
    ensures Holds(Extended(c, item), longer, places, whereIs, run')
    ensures run' != null ==> run' == run || fresh(run')
  {
    if item.kind == Album {
      hide Indexes, Views;
      longer := AppendAlbum(segments, item, index);
      whereIs := segmentOfItem + [Where(|longer| - 1, 0)];
      run', places := null, placeOf;
    } else {
      RunExtends(c, item);
      hide Indexes, Views, Extended, OccurrencesOf, Grown;
      var w: Where;
      longer, run', w, places := AppendTracks(segments, run, item, index, placeOf, c.found);
      whereIs := segmentOfItem + [w];
    }
  }

  /** `buildSegments`: `run` is the last segment itself, growing in place. */
  method BuildSegments(queue: seq<Item>)
    returns (segments: seq<Segment>, placeOf: map<string, seq<Place>>, segmentOfItem: seq<Where>)
    ensures Views(segments) == CutAll(queue).segments && segmentOfItem == CutAll(queue).whereIs
    ensures Indexes(placeOf, CutAll(queue).found)
  {
    segments, placeOf, segmentOfItem := [], map[], [];
    var run: Segment? := null;
    var index := 0;
    while index < |queue|
      invariant 0 <= index <= |queue|
      invariant run != null ==> fresh(run)
      invariant Holds(CutAll(queue[..index]), segments, placeOf, segmentOfItem, run)
    {
      ghost var c := CutAll(queue[..index]);
      assert queue[..index + 1][..index] == queue[..index];
      assert CutAll(queue[..index + 1]) == Extended(c, queue[index]);
      hide CutAll, Holds, Extended, Views;
      segments, run, placeOf, segmentOfItem := AppendItem(segments, run, queue[index], index, placeOf, segmentOfItem, c);
      index := index + 1;
    }
    assert queue[..index] == queue;
  }
}
