/**
 The coarse coastal-distance estimate: five latitude/longitude boxes, each
 with a distance to the coast in km, tried in listed order; a point in no
 box is taken to be far inland.
 */
module Coastal {
  import opened Wrappers

  /** A box with inclusive latitude and longitude ranges. */
  datatype Region = Region(latMin: real, latMax: real, lonMin: real, lonMax: real, distance: int)

  predicate Contains(r: Region, lat: real, lon: real) {
    r.latMin <= lat <= r.latMax && r.lonMin <= lon <= r.lonMax
  }

  const COASTAL_REGIONS: seq<Region> := [
    Region(25.0, 45.0, -80.0, -70.0, 5),
    Region(25.0, 50.0, -125.0, -115.0, 5),
    Region(35.0, 60.0, -10.0, 30.0, 10),
    Region(0.0, 40.0, 100.0, 140.0, 10),
    Region(-20.0, 25.0, 40.0, 100.0, 10)
  ]

  /** The distance used when no box contains the point. */
  const INLAND_DISTANCE: int := 200

  /** The index of the first box, from `from` on, that contains the point. */
  function FirstContaining(regions: seq<Region>, lat: real, lon: real, from: nat): (k: Option<nat>)
    requires from <= |regions|
    ensures k.Some? ==>
      && from <= k.value < |regions|
      && Contains(regions[k.value], lat, lon)
      && forall j :: from <= j < k.value ==> !Contains(regions[j], lat, lon)
    ensures k.None? ==> forall j :: from <= j < |regions| ==> !Contains(regions[j], lat, lon)
    decreases |regions| - from
  {
    if from == |regions| then None
    else if Contains(regions[from], lat, lon) then Some(from)
    else FirstContaining(regions, lat, lon, from + 1)
  }

  /** `_estimate_coastal_distance`: the distance of the first matching box, else 200 km. */
  function EstimateCoastalDistance(lat: real, lon: real): (d: int)
    ensures d == 5 || d == 10 || d == INLAND_DISTANCE
    ensures d == INLAND_DISTANCE <==> forall i :: 0 <= i < |COASTAL_REGIONS| ==> !Contains(COASTAL_REGIONS[i], lat, lon)
    ensures d != INLAND_DISTANCE ==>
      exists i :: 0 <= i < |COASTAL_REGIONS| && Contains(COASTAL_REGIONS[i], lat, lon) && COASTAL_REGIONS[i].distance == d
        && forall j :: 0 <= j < i ==> !Contains(COASTAL_REGIONS[j], lat, lon)
  {
    match FirstContaining(COASTAL_REGIONS, lat, lon, 0)
    case Some(k) => COASTAL_REGIONS[k].distance
    case None => INLAND_DISTANCE
  }

  /** The point (0, 0), which missing coordinates default to, lies in no box. */
  lemma DefaultCoordinatesAreInland()
    ensures EstimateCoastalDistance(0.0, 0.0) == INLAND_DISTANCE
  {
  }
}
