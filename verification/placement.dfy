/**
 Marker placement on the client (public/app.js): the bulk load walks every
 (host, location) pair of the map data in order, and a location whose
 coordinates exactly equal those of a feature already placed is moved by
 0.001 degrees on each axis, with a sign chosen per axis, before its feature
 is appended. `Math.random()` is replaced by an explicit choice of signs.
 */
module Placement {
  import opened SeqFind
  import opened Records

  datatype LngLat = LngLat(lng: real, lat: real)

  /** A GeoJSON point feature: `geometry.coordinates` and `properties` (the host as
      `name`, spread over the location's fields). */
  datatype Feature = Feature(name: string, coordinates: LngLat, properties: Location)

  /** The sign `Math.random() < 0.5 ? -1 : 1` picks. */
  datatype Dir = Minus | Plus {
    function Value(): real {
      if Minus? then -1.0 else 1.0
    }
  }

  /** The two signs drawn for one colliding location: longitude first, then latitude. */
  datatype Jitter = Jitter(lngDir: Dir, latDir: Dir)

  /** One (host, location) pair waiting to be placed. */
  datatype Pending = Pending(host: string, loc: Location)

  const OffsetStep: real := 0.001

  /** `generateMapDatapoint(host, location)`. */
  function GenerateFeature(host: string, loc: Location): (r: Feature)
    ensures r.name == host && r.properties == loc
    ensures r.coordinates == LngLat(loc.longitude, loc.latitude)
  {
    Feature(host, LngLat(loc.longitude, loc.latitude), loc)
  }

  /** Some feature already placed sits exactly at (lng, lat). */
  ghost predicate Occupied(placed: seq<Feature>, lng: real, lat: real)
  {
    exists i :: 0 <= i < |placed| && placed[i].coordinates == LngLat(lng, lat)
  }

  /** `datapointLocOverlaps(location)`: a search of the features placed so far. */
  function Overlaps(placed: seq<Feature>, lng: real, lat: real): (r: bool)
    ensures r <==> Occupied(placed, lng, lat)
  {
    FindIndex(placed, (f: Feature) => f.coordinates.lng == lng && f.coordinates.lat == lat).Some?
  }

  /** `offsetCoordinate(coord)` with the sign given. */
  function Offset(coord: real, dir: Dir): (r: real)
    ensures r == coord + OffsetStep || r == coord - OffsetStep
    ensures r - coord == OffsetStep <==> dir == Plus
  {
    coord + OffsetStep * dir.Value()
  }

  /** One iteration of the inner loop of `initializeMapDatapoints`: the feature built
      for `p` against the features already placed. */
  function Place(placed: seq<Feature>, p: Pending, j: Jitter): (r: Feature)
    ensures r.name == p.host
    ensures r.coordinates == LngLat(r.properties.longitude, r.properties.latitude)
    // only the coordinates of the location may change
    ensures r.properties == p.loc.(longitude := r.properties.longitude, latitude := r.properties.latitude)
    // a free spot is taken as is
    ensures !Occupied(placed, p.loc.longitude, p.loc.latitude) ==> r.properties == p.loc
    // a taken spot moves the point by exactly the step on each axis, in the chosen direction
    ensures Occupied(placed, p.loc.longitude, p.loc.latitude) ==>
      && r.coordinates.lng == p.loc.longitude + OffsetStep * j.lngDir.Value()
      && r.coordinates.lat == p.loc.latitude + OffsetStep * j.latDir.Value()
  {
    var loc :=
      if Overlaps(placed, p.loc.longitude, p.loc.latitude) then
        p.loc.(longitude := Offset(p.loc.longitude, j.lngDir),
               latitude := Offset(p.loc.latitude, j.latDir))
      else p.loc;
    GenerateFeature(p.host, loc)
  }

  /** The features the pending pairs produce in order, each placed against all
      features before it; `choose(k)` is the sign pair for the k-th pair. */
  function PlaceAll(pending: seq<Pending>, choose: nat -> Jitter): (r: seq<Feature>)
    ensures |r| == |pending|
  {
    if |pending| == 0 then []
    else
      var prev := PlaceAll(pending[..|pending| - 1], choose);
      prev + [Place(prev, pending[|pending| - 1], choose(|pending| - 1))]
  }

  /** The k-th feature is the k-th pair placed against exactly the features before it. */
  lemma {:induction false} PlaceAllEach(pending: seq<Pending>, choose: nat -> Jitter, k: nat)
    requires k < |pending|
    ensures PlaceAll(pending, choose)[k] == Place(PlaceAll(pending, choose)[..k], pending[k], choose(k))
  {
    var n := |pending| - 1;
    var prev := PlaceAll(pending[..n], choose);
    var r := PlaceAll(pending, choose);
    assert r == prev + [Place(prev, pending[n], choose(n))];
    if k < n {
      PlaceAllEach(pending[..n], choose, k);
      assert r[..k] == prev[..k];
    } else {
      assert r[..k] == prev;
    }
  }

  /** The pairs of one stored document, in the order of its locations. */
  function Expand(rec: HostRecord): (r: seq<Pending>)
    ensures |r| == |rec.locations|
    ensures forall l :: 0 <= l < |r| ==> r[l] == Pending(rec.host, rec.locations[l])
  {
    seq(|rec.locations|, l requires 0 <= l < |rec.locations| => Pending(rec.host, rec.locations[l]))
  }

  /** The number of locations over all documents. */
  function TotalLocations(data: seq<HostRecord>): nat
  {
    if |data| == 0 then 0 else TotalLocations(data[..|data| - 1]) + |data[|data| - 1].locations|
  }

  /** All (host, location) pairs of the map data, documents in order and each
      document's locations in order: one pair per stored location. */
  function Pairs(data: seq<HostRecord>): (r: seq<Pending>)
    ensures |r| == TotalLocations(data)
  {
    if |data| == 0 then [] else Pairs(data[..|data| - 1]) + Expand(data[|data| - 1])
  }

  /** Every pair is the host of some document with one of that document's locations. */
  lemma {:induction false} PairsCover(data: seq<HostRecord>, k: nat)
    requires k < |Pairs(data)|
    ensures exists d, l :: 0 <= d < |data| && 0 <= l < |data[d].locations|
                           && Pairs(data)[k] == Pending(data[d].host, data[d].locations[l])
  {
    var n := |data| - 1;
    var front := Pairs(data[..n]);
    if k < |front| {
      PairsCover(data[..n], k);
      var d, l :| 0 <= d < |data[..n]| && 0 <= l < |data[..n][d].locations|
                  && front[k] == Pending(data[..n][d].host, data[..n][d].locations[l]);
      assert data[..n][d] == data[d];
    } else {
      var l := k - |front|;
      assert Pairs(data)[k] == Expand(data[n])[l];
    }
  }

  /** Placing one more pair appends its feature to what the earlier pairs produced. */
  lemma PlaceAllSnoc(pending: seq<Pending>, p: Pending, choose: nat -> Jitter)
    ensures PlaceAll(pending + [p], choose)
            == PlaceAll(pending, choose) + [Place(PlaceAll(pending, choose), p, choose(|pending|))]
  {
  }

  /** The inner `locations.forEach` of `initializeMapDatapoints`: one document's
      locations placed in order after the features already in the collection. */
  method PlaceDocument(features: seq<Feature>, rec: HostRecord, choose: nat -> Jitter,
                       ghost earlier: seq<Pending>)
    returns (features': seq<Feature>)
    requires features == PlaceAll(earlier, choose)
    ensures features' == PlaceAll(earlier + Expand(rec), choose)
  {
    ghost var ex := Expand(rec);
    features' := features;
    var j := 0;
    assert earlier + ex[..0] == earlier;
    while j < |rec.locations|
      invariant 0 <= j <= |rec.locations|
      invariant features' == PlaceAll(earlier + ex[..j], choose)
    {
      var p := Pending(rec.host, rec.locations[j]);
      PlaceAllSnoc(earlier + ex[..j], p, choose);
      assert ex[..j + 1] == ex[..j] + [p];
      assert earlier + ex[..j + 1] == (earlier + ex[..j]) + [p];
      features' := features' + [Place(features', p, choose(|features'|))];
      j := j + 1;
    }
    assert ex[..j] == ex;
  }

  /** `initializeMapDatapoints()`: the walk over the documents, appending one feature
      per (host, location) pair to an initially empty collection. */
  method InitializeMapDatapoints(mapData: seq<HostRecord>, choose: nat -> Jitter)
    returns (features: seq<Feature>)
    ensures |features| == TotalLocations(mapData)
    ensures features == PlaceAll(Pairs(mapData), choose)
  {
    features := [];
    var i := 0;
    while i < |mapData|
      invariant 0 <= i <= |mapData|
      invariant features == PlaceAll(Pairs(mapData[..i]), choose)
    {
      features := PlaceDocument(features, mapData[i], choose, Pairs(mapData[..i]));
      assert mapData[..i + 1][..i] == mapData[..i];
      i := i + 1;
    }
    assert mapData[..i] == mapData;
  }

  /** One feature per pair, in input order, each named after its host. */
  lemma OneFeaturePerPair(mapData: seq<HostRecord>, choose: nat -> Jitter)
    ensures var fs := PlaceAll(Pairs(mapData), choose);
            && |fs| == |Pairs(mapData)|
            && forall k :: 0 <= k < |fs| ==> fs[k].name == Pairs(mapData)[k].host
  {
    forall k | 0 <= k < |Pairs(mapData)| {
      PlaceAllEach(Pairs(mapData), choose, k);
    }
  }

  /** The rule each bulk-loaded feature obeys: named after its host, unmoved when no
      earlier feature sits at its coordinates, otherwise moved by exactly the step in the
      directions chosen for it; no other location field changes. */
  lemma BulkPlacementRule(pending: seq<Pending>, choose: nat -> Jitter, k: nat)
    requires k < |pending|
    ensures var fs := PlaceAll(pending, choose);
            var loc := pending[k].loc;
            && fs[k].name == pending[k].host
            && fs[k].properties == loc.(longitude := fs[k].coordinates.lng, latitude := fs[k].coordinates.lat)
            && (!Occupied(fs[..k], loc.longitude, loc.latitude) ==> fs[k].coordinates == LngLat(loc.longitude, loc.latitude))
            && (Occupied(fs[..k], loc.longitude, loc.latitude) ==>
                  fs[k].coordinates == LngLat(loc.longitude + OffsetStep * choose(k).lngDir.Value(),
                                              loc.latitude + OffsetStep * choose(k).latDir.Value()))
  {
    PlaceAllEach(pending, choose, k);
  }

  /** Two pairs at one spot: the first keeps it, the second is moved by exactly the step
      on both axes, whichever signs are drawn. */
  lemma CollidingPairSeparated(p1: Pending, p2: Pending, choose: nat -> Jitter)
    requires p1.loc.longitude == p2.loc.longitude && p1.loc.latitude == p2.loc.latitude
    ensures var fs := PlaceAll([p1, p2], choose);
            && fs[0].properties == p1.loc
            && (fs[1].coordinates.lng - fs[0].coordinates.lng == OffsetStep
                || fs[0].coordinates.lng - fs[1].coordinates.lng == OffsetStep)
            && (fs[1].coordinates.lat - fs[0].coordinates.lat == OffsetStep
                || fs[0].coordinates.lat - fs[1].coordinates.lat == OffsetStep)
  {
  }

  /** Two pairs at different spots are both placed unmoved. */
  lemma DistinctPairsUnmoved(p1: Pending, p2: Pending, choose: nat -> Jitter)
    requires p1.loc.longitude != p2.loc.longitude || p1.loc.latitude != p2.loc.latitude
    ensures var fs := PlaceAll([p1, p2], choose);
            fs[0].properties == p1.loc && fs[1].properties == p2.loc
  {
  }
}
