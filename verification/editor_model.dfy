/** The editing session of the map script as a value, with one transition per
    event handler. `EditorSession.Session` runs the same transitions in place;
    this module states what each transition does and what a whole run of
    events keeps. */
module EditorModel {
  import opened Coordinates

  /** A committed zone: `{id, coords}`. */
  datatype Zone<N> = Zone(id: nat, coords: seq<LatLng<N>>)

  /** The drag-end listener of one water-point marker. Its closure keeps only the
      coordinates of the click that placed the marker. */
  datatype Marker<N> = Marker(placedAt: LatLng<N>)

  /** The script's module-level editing state. */
  datatype Snapshot<N> = Snapshot(
    drawing: bool,
    currentPolygon: seq<Pair<N>>,
    zones: seq<Zone<N>>,
    pointsEau: seq<LatLng<N>>)

  /** Zone `i` has id `i + 1` and at least three vertices. */
  predicate ZonesWellFormed<N>(zones: seq<Zone<N>>)
  {
    forall i :: 0 <= i < |zones| ==> zones[i].id == i + 1 && |zones[i].coords| >= 3
  }

  /** What every handler keeps: well-formed zones, and a pending trace only while drawing. */
  predicate Inv<N>(s: Snapshot<N>)
  {
    ZonesWellFormed(s.zones) && (!s.drawing ==> s.currentPolygon == [])
  }

  /** The state when the script is loaded. */
  function Initial<N>(): (s: Snapshot<N>)
    ensures Inv(s) && !s.drawing
    ensures s.currentPolygon == [] && s.zones == [] && s.pointsEau == []
  {
    Snapshot(false, [], [], [])
  }

  /** `startDrawingZone`: enter tracing with an empty trace. */
  function StartDrawingZone<N>(s: Snapshot<N>): (t: Snapshot<N>)
    ensures t.drawing && t.currentPolygon == []
    ensures t.zones == s.zones && t.pointsEau == s.pointsEau
    ensures Inv(s) ==> Inv(t)
  {
    s.(drawing := true, currentPolygon := [])
  }

  /** `onMapClickZone`: while tracing, push the clicked position; otherwise ignore the click. */
  function OnMapClickZone<N>(s: Snapshot<N>, at: LatLng<N>): (t: Snapshot<N>)
    ensures !s.drawing ==> t == s
    ensures s.drawing ==> t.drawing && t.currentPolygon == s.currentPolygon + [PairOf(at)]
    ensures t.zones == s.zones && t.pointsEau == s.pointsEau
    ensures Inv(s) ==> Inv(t)
  {
    if !s.drawing then s
    else s.(currentPolygon := s.currentPolygon + [PairOf(at)])
  }

  /** `onMapDblClickZone`: while tracing, push the final position, commit the trace
      as a zone when it then has three vertices or more, and go back to idle with
      an empty trace; otherwise ignore the double-click. */
  function OnMapDblClickZone<N>(s: Snapshot<N>, at: LatLng<N>): (t: Snapshot<N>)
    ensures !s.drawing ==> t == s
    ensures s.drawing ==> !t.drawing && t.currentPolygon == [] && t.pointsEau == s.pointsEau
    ensures s.drawing && |s.currentPolygon| + 1 >= 3 ==>
      t.zones == s.zones + [Zone(|s.zones| + 1, ToRecords(s.currentPolygon) + [at])]
    ensures s.drawing && |s.currentPolygon| + 1 < 3 ==> t.zones == s.zones
    ensures Inv(s) ==> Inv(t)
  {
    if !s.drawing then s
    else
      var trace := s.currentPolygon + [PairOf(at)];
      var zones := if |trace| >= 3 then s.zones + [Zone(|s.zones| + 1, ToRecords(trace))] else s.zones;
      ToRecordsAppend(s.currentPolygon, PairOf(at));
      Snapshot(false, [], zones, s.pointsEau)
  }

  /** The one-shot click armed by `addPointEau`: store the clicked position as a new point. */
  function PlacePoint<N>(s: Snapshot<N>, at: LatLng<N>): (t: Snapshot<N>)
    ensures t.pointsEau == s.pointsEau + [at]
    ensures t.drawing == s.drawing && t.currentPolygon == s.currentPolygon && t.zones == s.zones
    ensures Inv(s) ==> Inv(t)
  {
    s.(pointsEau := s.pointsEau + [LatLng(at.lat, at.lng)])
  }

  /** The `dragend` listener of marker `m`: overwrite the first point equal to the
      marker's placement coordinates with `newPos`; change nothing when there is none. */
  function DragEnd<N(==)>(s: Snapshot<N>, m: Marker<N>, newPos: LatLng<N>): (t: Snapshot<N>)
    ensures |t.pointsEau| == |s.pointsEau|
    ensures t.drawing == s.drawing && t.currentPolygon == s.currentPolygon && t.zones == s.zones
    ensures m.placedAt !in s.pointsEau ==> t == s
    ensures m.placedAt in s.pointsEau ==>
      var i := FindPoint(s.pointsEau, m.placedAt.lat, m.placedAt.lng);
      0 <= i && s.pointsEau[i] == m.placedAt && t.pointsEau[i] == newPos &&
      (forall j :: 0 <= j < i ==> s.pointsEau[j] != m.placedAt) &&
      (forall j :: 0 <= j < |s.pointsEau| && j != i ==> t.pointsEau[j] == s.pointsEau[j])
    ensures Inv(s) ==> Inv(t)
  {
    var index := FindPoint(s.pointsEau, m.placedAt.lat, m.placedAt.lng);
    if index != -1 then s.(pointsEau := s.pointsEau[index := LatLng(newPos.lat, newPos.lng)])
    else s
  }

  /** The events the handlers react to. */
  datatype Event<N> =
    | StartDrawing
    | MapClick(at: LatLng<N>)
    | MapDblClick(at: LatLng<N>)
    | PlacementClick(at: LatLng<N>)
    | MarkerDragEnd(marker: Marker<N>, newPos: LatLng<N>)

  function Step<N(==)>(s: Snapshot<N>, e: Event<N>): Snapshot<N>
  {
    match e
    case StartDrawing => StartDrawingZone(s)
    case MapClick(at) => OnMapClickZone(s, at)
    case MapDblClick(at) => OnMapDblClickZone(s, at)
    case PlacementClick(at) => PlacePoint(s, at)
    case MarkerDragEnd(m, newPos) => DragEnd(s, m, newPos)
  }

  /** The state after handling `es` in order, starting from `s`. */
  function Run<N(==)>(s: Snapshot<N>, es: seq<Event<N>>): Snapshot<N>
    decreases |es|
  {
    if es == [] then s else Run(Step(s, es[0]), es[1..])
  }

  function Placements<N>(es: seq<Event<N>>): nat
  {
    if es == [] then 0 else (if es[0].PlacementClick? then 1 else 0) + Placements(es[1..])
  }

  function DoubleClicks<N>(es: seq<Event<N>>): nat
  {
    if es == [] then 0 else (if es[0].MapDblClick? then 1 else 0) + DoubleClicks(es[1..])
  }

  /** Every sequence of events keeps the invariant: zone `i` always has id `i + 1`
      and three vertices or more, and a trace is pending only while drawing. */
  lemma {:induction false} RunKeepsInv<N>(s: Snapshot<N>, es: seq<Event<N>>)
    requires Inv(s)
    ensures Inv(Run(s, es))
    decreases |es|
  {
    if es != [] {
      var t := Step(s, es[0]);
      assert Inv(t);
      RunKeepsInv(t, es[1..]);
    }
  }

  /** Zones are only ever appended: the zones before a run are a prefix of those
      after it, and each double-click adds at most one. */
  lemma {:induction false} RunAppendsZones<N>(s: Snapshot<N>, es: seq<Event<N>>)
    ensures s.zones <= Run(s, es).zones
    ensures |Run(s, es).zones| <= |s.zones| + DoubleClicks(es)
    decreases |es|
  {
    if es != [] {
      var t := Step(s, es[0]);
      assert s.zones <= t.zones;
      RunAppendsZones(t, es[1..]);
    }
  }

  /** Points are never removed: each placement adds one and nothing else changes
      the number of points. */
  lemma {:induction false} RunCountsPoints<N>(s: Snapshot<N>, es: seq<Event<N>>)
    ensures |Run(s, es).pointsEau| == |s.pointsEau| + Placements(es)
    decreases |es|
  {
    if es != [] {
      RunCountsPoints(Step(s, es[0]), es[1..]);
    }
  }

  /** Drag-end looks a point up by the marker's placement coordinates, not by where
      the marker is now. After a drag that moved marker `m` off its placement
      coordinates, a second drag of `m` leaves alone the slot the first drag
      overwrote (the first point at the placement coordinates, which belongs to
      an earlier marker when two share that spot): it changes nothing, or it
      overwrites a later point that sits at those coordinates. */
  lemma SecondDragMissesOwnSlot<N>(s: Snapshot<N>, m: Marker<N>, first: LatLng<N>, second: LatLng<N>)
    requires m.placedAt in s.pointsEau && first != m.placedAt
    ensures var i := FindPoint(s.pointsEau, m.placedAt.lat, m.placedAt.lng);
      var t := DragEnd(s, m, first);
      var u := DragEnd(t, m, second);
      u.pointsEau[i] == first &&
      (m.placedAt !in t.pointsEau ==> u == t) &&
      (m.placedAt in t.pointsEau ==> i < FindPoint(t.pointsEau, m.placedAt.lat, m.placedAt.lng))
  {
  }

  /** Two markers placed on the same spot have the same drag-end listener key, so
      dragging the second one moves the first stored point. */
  lemma SamePlacementSharesSlot<N>(at: LatLng<N>, to: LatLng<N>)
    ensures var s := Run(Initial(), [PlacementClick(at), PlacementClick(at)]);
      DragEnd(s, Marker(at), to).pointsEau == [to, at]
  {
    var es := [PlacementClick(at), PlacementClick(at)];
    var s1 := PlacePoint(Initial<N>(), at);
    var s2 := PlacePoint(s1, at);
    assert Run(Initial(), es) == Run(s1, es[1..]);
    assert Run(s1, es[1..]) == Run(s2, []);
    assert s2.pointsEau == [at, at];
  }

  /** A four-vertex trace: start, three clicks and a double-click commit zone 1
      with the four positions in order. */
  lemma FourVertexTraceCommitsZone<N>(a: LatLng<N>, b: LatLng<N>, c: LatLng<N>, d: LatLng<N>)
    ensures var s := Run(Initial(), [StartDrawing, MapClick(a), MapClick(b), MapClick(c), MapDblClick(d)]);
      !s.drawing && s.currentPolygon == [] && s.zones == [Zone(1, [a, b, c, d])]
  {
    var s1 := StartDrawingZone(Initial<N>());
    var s2 := OnMapClickZone(s1, a);
    var s3 := OnMapClickZone(s2, b);
    var s4 := OnMapClickZone(s3, c);
    assert s4.currentPolygon == [PairOf(a), PairOf(b), PairOf(c)];
    var s5 := OnMapDblClickZone(s4, d);
    assert ToRecords(s4.currentPolygon) == [a, b, c];
    assert [a, b, c] + [d] == [a, b, c, d];
    var es := [StartDrawing, MapClick(a), MapClick(b), MapClick(c), MapDblClick(d)];
    assert Run(Initial(), es) == Run(s1, es[1..]);
    assert Run(s1, es[1..]) == Run(s2, es[2..]);
    assert Run(s2, es[2..]) == Run(s3, es[3..]);
    assert Run(s3, es[3..]) == Run(s4, es[4..]);
    assert Run(s4, es[4..]) == Run(s5, []);
  }

  /** A two-vertex trace is discarded: no zone, back to idle with an empty trace. */
  lemma TwoVertexTraceIsDiscarded<N>(a: LatLng<N>, b: LatLng<N>)
    ensures var s := Run(Initial(), [StartDrawing, MapClick(a), MapDblClick(b)]);
      !s.drawing && s.currentPolygon == [] && s.zones == []
  {
    var es := [StartDrawing, MapClick(a), MapDblClick(b)];
    var s1 := StartDrawingZone(Initial<N>());
    var s2 := OnMapClickZone(s1, a);
    assert Run(Initial(), es) == Run(s1, es[1..]);
    assert Run(s1, es[1..]) == Run(s2, es[2..]);
    assert Run(s2, es[2..]) == Run(OnMapDblClickZone(s2, b), []);
  }
}
