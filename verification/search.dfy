/**
 The client's search (public/app.js, lines 107-134): the input gets the
 "https://" scheme unless it already starts with it, and the host the server
 answers with is either found among the features by name, and reused, or
 placed as a new feature from the first location of the reply, without any
 collision offset.
 */
module Search {
  import opened SeqFind
  import opened Records
  import opened Placement

  const Scheme: string := "https://"

  /** `s` starts with the scheme. */
  predicate HasScheme(s: string)
  {
    |s| >= |Scheme| && s[..|Scheme|] == Scheme
  }

  /** `s.slice(0, n)`: the first `n` characters, or all of a shorter string. */
  function Slice(s: string, n: nat): (r: string)
    ensures |r| == if |s| < n then |s| else n
    ensures r <= s
  {
    if |s| < n then s else s[..n]
  }

  /** The prefix step of `handleSearch`. */
  function EnsureScheme(input: string): (r: string)
    ensures HasScheme(r)
    ensures HasScheme(input) ==> r == input
    ensures !HasScheme(input) ==> r == Scheme + input
  {
    if Slice(input, 8) != Scheme then Scheme + input else input
  }

  /** Prefixing twice is prefixing once. */
  lemma EnsureSchemeIdempotent(input: string)
    ensures EnsureScheme(EnsureScheme(input)) == EnsureScheme(input)
  {
  }

  /** The check is for "https://" only: a plain-http address gets a second scheme. */
  lemma HttpInputGetsSecondScheme()
    ensures EnsureScheme("http://example.com") == "https://http://example.com"
  {
    assert "http://example.com"[..8][4] == ':' != Scheme[4];
  }

  /** `features.find(f => f.properties.name === host)` as an index. */
  function FindByName(features: seq<Feature>, host: string): (r: Option<nat>)
    ensures r.Some? ==> r.value < |features| && features[r.value].name == host
    ensures r.Some? ==> forall j :: 0 <= j < r.value ==> features[j].name != host
    ensures r.None? <==> forall j :: 0 <= j < |features| ==> features[j].name != host
  {
    FindIndex(features, (f: Feature) => f.name == host)
  }

  /** The feature collection after the search, and the feature rendered for it. */
  datatype SearchOutcome = SearchOutcome(features: seq<Feature>, shown: Feature)

  /** The place-or-reuse step of `handleSearch` for a reply carrying `host` and its
      `locations`; the source dereferences `locations[0]` on both branches. */
  function HandleSearch(features: seq<Feature>, host: string, locations: seq<Location>): (r: SearchOutcome)
    requires |locations| > 0
    // a host already on the map: nothing is added, its first feature is shown again
    ensures (exists i :: 0 <= i < |features| && features[i].name == host) ==>
      && r.features == features
      && exists i :: 0 <= i < |features| && r.shown == features[i]
                     && features[i].name == host
                     && forall j :: 0 <= j < i ==> features[j].name != host
    // a new host: exactly one feature is appended, at the reply's first location, unmoved
    ensures (forall i :: 0 <= i < |features| ==> features[i].name != host) ==>
      && r.features == features + [r.shown]
      && r.shown.name == host
      && r.shown.properties == locations[0]
      && r.shown.coordinates == LngLat(locations[0].longitude, locations[0].latitude)
  {
    match FindByName(features, host)
    case Some(i) => SearchOutcome(features, features[i])
    case None =>
      var f := GenerateFeature(host, locations[0]);
      SearchOutcome(features + [f], f)
  }

  /** After a search the host is on the map, so searching it again changes nothing. */
  lemma SearchIdempotent(features: seq<Feature>, host: string, locations: seq<Location>)
    requires |locations| > 0
    ensures var once := HandleSearch(features, host, locations);
            var twice := HandleSearch(once.features, host, locations);
            twice.features == once.features && twice.shown == once.shown
  {
    var once := HandleSearch(features, host, locations);
    var k := FindByName(features, host);
    if k.None? {
      assert once.features[|features|].name == host;
      assert FindByName(once.features, host) == Some(|features|);
    } else {
      assert FindByName(once.features, host) == k;
    }
  }

  /** A search never applies the collision offset, even onto an occupied spot. */
  lemma SearchPlacesWithoutOffset(features: seq<Feature>, host: string, loc: Location)
    requires forall i :: 0 <= i < |features| ==> features[i].name != host
    requires Occupied(features, loc.longitude, loc.latitude)
    ensures HandleSearch(features, host, [loc]).shown.coordinates == LngLat(loc.longitude, loc.latitude)
  {
  }
}
