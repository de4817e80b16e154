/** Coordinates as the map script stores them.

    The script never computes with latitudes or longitudes: it stores them and
    compares them with `===`. The number type is therefore a type parameter `N`
    with equality only. */
module Coordinates {

  /** A `{lat, lng}` record, the form kept in `pointsEau` and in a zone's `coords`. */
  datatype LatLng<N> = LatLng(lat: N, lng: N)

  /** A `[lat, lng]` pair, the form pushed onto the pending trace `currentPolygon`. */
  type Pair<N> = (N, N)

  /** The pair a click pushes for the event position `at`. */
  function PairOf<N>(at: LatLng<N>): (p: Pair<N>)
    ensures LatLng(p.0, p.1) == at
  {
    (at.lat, at.lng)
  }

  /** The conversion of the pending trace into a zone's coordinates: the record
      for each pair, in the same order. */
  function ToRecords<N>(pairs: seq<Pair<N>>): (r: seq<LatLng<N>>)
    ensures |r| == |pairs|
    ensures forall k :: 0 <= k < |pairs| ==> r[k] == LatLng(pairs[k].0, pairs[k].1)
  {
    if pairs == [] then []
    else [LatLng(pairs[0].0, pairs[0].1)] + ToRecords(pairs[1..])
  }

  /** Converting a trace extended by one pair extends the converted trace by one record. */
  lemma ToRecordsAppend<N>(pairs: seq<Pair<N>>, p: Pair<N>)
    ensures ToRecords(pairs + [p]) == ToRecords(pairs) + [LatLng(p.0, p.1)]
  {
  }

  /** The drag handler's lookup: the first index whose point has this latitude
      and longitude, or -1 when none does. */
  function FindPoint<N(==)>(points: seq<LatLng<N>>, lat: N, lng: N): (r: int)
    ensures -1 <= r < |points|
    ensures 0 <= r ==> points[r].lat == lat && points[r].lng == lng
    ensures 0 <= r ==> forall j :: 0 <= j < r ==> !(points[j].lat == lat && points[j].lng == lng)
    ensures r == -1 <==> LatLng(lat, lng) !in points
  {
    if points == [] then -1
    else if points[0].lat == lat && points[0].lng == lng then 0
    else
      var k := FindPoint(points[1..], lat, lng);
      if k == -1 then -1 else k + 1
  }
}
