/** The map script's editing session as it runs: module-level variables that the
    event handlers reassign and grow in place. Each handler is a method whose
    contract ties the new state to the matching transition of `EditorModel`. */
module EditorSession {
  import opened Coordinates
  import opened EditorModel

  class Session<N(==)> {
    var drawing: bool
    var currentPolygon: seq<Pair<N>>
    var zones: seq<Zone<N>>
    var pointsEau: seq<LatLng<N>>
    /** Whether the tracing click and double-click listeners are attached to the map. */
    ghost var traceListeners: bool

    ghost function Snap(): Snapshot<N>
      reads this
    {
      Snapshot(drawing, currentPolygon, zones, pointsEau)
    }

    ghost predicate Valid()
      reads this
    {
      Inv(Snap()) && traceListeners == drawing
    }

    /** The script's initial `let` bindings. */
    constructor ()
      ensures Valid() && Snap() == Initial()
    {
      drawing := false;
      currentPolygon := [];
      zones := [];
      pointsEau := [];
      traceListeners := false;
    }

    method StartDrawingZone()
      requires Valid()
      modifies this
      ensures Valid() && traceListeners
      ensures Snap() == EditorModel.StartDrawingZone(old(Snap()))
    {
      drawing := true;
      currentPolygon := [];
      traceListeners := true;
    }

    method OnMapClickZone(at: LatLng<N>)
      requires Valid()
      modifies this
      ensures Valid() && traceListeners == old(traceListeners)
      ensures Snap() == EditorModel.OnMapClickZone(old(Snap()), at)
    {
      if !drawing {
        return;
      }
      currentPolygon := currentPolygon + [(at.lat, at.lng)];
    }

    method OnMapDblClickZone(at: LatLng<N>)
      requires Valid()
      modifies this
      ensures Valid() && !traceListeners
      ensures Snap() == EditorModel.OnMapDblClickZone(old(Snap()), at)
    {
      if !drawing {
        return;
      }
      drawing := false;
      currentPolygon := currentPolygon + [(at.lat, at.lng)];
      if |currentPolygon| >= 3 {
        var zoneCoords := ToRecords(currentPolygon);
        zones := zones + [Zone(|zones| + 1, zoneCoords)];
      }
      currentPolygon := [];
      traceListeners := false;
    }

    /** The click armed by `addPointEau`; returns the new marker's drag-end listener. */
    method PlacePoint(at: LatLng<N>) returns (m: Marker<N>)
      requires Valid()
      modifies this
      ensures Valid() && traceListeners == old(traceListeners)
      ensures m.placedAt == at
      ensures Snap() == EditorModel.PlacePoint(old(Snap()), at)
    {
      pointsEau := pointsEau + [LatLng(at.lat, at.lng)];
      m := Marker(at);
    }

    method DragEnd(m: Marker<N>, newPos: LatLng<N>)
      requires Valid()
      modifies this
      ensures Valid() && traceListeners == old(traceListeners)
      ensures Snap() == EditorModel.DragEnd(old(Snap()), m, newPos)
    {
      var index := FindPoint(pointsEau, m.placedAt.lat, m.placedAt.lng);
      if index != -1 {
        pointsEau := pointsEau[index := LatLng(newPos.lat, newPos.lng)];
      }
    }
  }
}
