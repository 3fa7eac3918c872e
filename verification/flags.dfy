/**
 Zoom-dependent flag decoration (public/app.js, lines 136-145): every marker
 shows its country flag exactly when the map's zoom is below 7.
 */
module Flags {
  import opened Placement

  const FlagZoomLimit: real := 7.0

  /** A rendered marker: the feature it draws and whether it has the `show-flag` class. */
  datatype Marker = Marker(feature: Feature, showFlag: bool)

  /** `toggleMarkerFlags()` at the given zoom. */
  function ToggleMarkerFlags(markers: seq<Marker>, zoom: real): (r: seq<Marker>)
    ensures |r| == |markers|
    ensures forall i :: 0 <= i < |r| ==> r[i].feature == markers[i].feature
    ensures forall i :: 0 <= i < |r| ==> (r[i].showFlag <==> zoom < FlagZoomLimit)
  {
    seq(|markers|, i requires 0 <= i < |markers| => markers[i].(showFlag := zoom < FlagZoomLimit))
  }

  /** Re-applying the same zoom changes nothing, and in general only the last zoom counts. */
  lemma ToggleLastZoomWins(markers: seq<Marker>, z1: real, z2: real)
    ensures ToggleMarkerFlags(ToggleMarkerFlags(markers, z1), z2) == ToggleMarkerFlags(markers, z2)
    ensures ToggleMarkerFlags(ToggleMarkerFlags(markers, z1), z1) == ToggleMarkerFlags(markers, z1)
  {
  }

  /** Just below the limit every flag shows; at the limit none does. */
  lemma ToggleAtThreshold(markers: seq<Marker>)
    ensures forall i :: 0 <= i < |markers| ==> ToggleMarkerFlags(markers, 6.9)[i].showFlag
    ensures forall i :: 0 <= i < |markers| ==> !ToggleMarkerFlags(markers, 7.0)[i].showFlag
  {
  }
}
