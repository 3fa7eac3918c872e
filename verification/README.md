# internet-map-redux: host resolution, location dedup and marker placement

This project models the sequential core of internet-map-redux, a small web
app that geolocates a website and pins it on a world map. The model covers:

- **Server (`server.js`).**
  - `pingWebsite` normalises the host of the submitted URL by removing the first `"www."`.
  - It then probes the host, geolocates the probed address, and answers either `{host, locData}` or `{error_message}`.
  - The `/website-query` route merges only a successful answer into the `websites` collection.
  - `validateDataInDB` performs that merge. It keeps a per-host location history, deduplicated by `zipcode`, newest first.
- **Client (`public/app.js`).**
  - `initializeMapDatapoints` places every `(host, location)` pair of the stored data as a GeoJSON feature, in order. A location whose coordinates exactly equal those of a feature already placed is moved by 0.001 degrees on each axis, with a sign drawn per axis.
  - `handleSearch` adds the `https://` scheme when it is missing. It then reuses the feature already carrying the answered host's name, or appends a new one from the reply's first location.
  - `toggleMarkerFlags` shows every marker's flag exactly when the zoom is below 7.

Modules:

| file | module | what it holds |
|---|---|---|
| seqfind.dfy | `SeqFind` | `Option` and `FindIndex`, the first-match search of `Array.prototype.find` |
| records.dfy | `Records` | `Location` (`locData`), `HostRecord` (a stored document), postal-code predicates |
| hostname.dfy | `HostName` | `indexOf`/`replace` on strings and `NormalizeHost` |
| store.dfy | `LocationStore` | the collection as `map<string, seq<Location>>` and `MergeLocation` |
| server.dfy | `Server` | `PingWebsite` with the probe and lookup as parameters, and the `/website-query` route |
| placement.dfy | `Placement` | features, the overlap test, the offset, the bulk load |
| search.dfy | `Search` | scheme prefixing and place-or-reuse |
| flags.dfy | `Flags` | flag visibility by zoom |
| flow.dfy | `QueryFlow` | end-to-end scenarios across client and server |

External collaborators become parameters:

- The URL parser's `.host` is an `Option<string>`. `None` means the parser throws.
- The ICMP probe is a function `string -> Option<ProbeReply>`.
- The ipgeolocation lookup is a function `string -> Option<GeoReply>`.
- `Math.random()` becomes `choose: nat -> Jitter`. This gives the pair of signs for the k-th `(host, location)` pair of the bulk load. Any sequence of random draws corresponds to some `choose`.

Behaviour of the code worth knowing:

- **Host normalisation.** `replace("www.", "")` removes the first `"www."` wherever it occurs, not only a leading label, so `"awww.com"` becomes `"acom"` (`HostName.InnerOccurrenceRemoved`). It removes only one occurrence, so `"www.www.example.com"` keeps one (`HostName.OnlyFirstOccurrenceRemoved`). Lower-casing is done by the URL parser, which is left out; the `"www."` replacement itself is case-sensitive.
- **Stored host.** The stored host is the one the probe reports, not the normalised input.
- **Overlapping markers.** Features are not guaranteed distinct coordinates:
  - an offset point is not re-checked against other features;
  - a search places its feature with no offset at all (`Search.SearchPlacesWithoutOffset`).
  The model claims only the per-placement rule.
- **Bulk-load return value.** `initializeMapDatapoints` returns an array it never fills. Its effect is the features it pushes, and that is what `InitializeMapDatapoints` returns.

## Model

| member | source | states |
|---|---|---|
| SeqFind.FindIndex | server.js:86-88 | the first index whose element satisfies the predicate, with no earlier match; None exactly when no element matches |
| HostName.IndexOf | server.js:63 | the leftmost occurrence of the pattern; None exactly when the string does not contain it |
| HostName.ReplaceFirst | server.js:63 | without an occurrence the string is unchanged; otherwise the leftmost occurrence is cut out and the replacement put in its place, so the length changes by the length difference |
| HostName.NormalizeHost | server.js:63 | a host without "www." is unchanged; otherwise the first "www." (anywhere in the host) is removed and the length drops by exactly 4 |
| HostName.UnchangedIffNoWww | server.js:63 | normalisation leaves the host unchanged if and only if it contains no "www." |
| HostName.LeadingWwwStripped | server.js:63 | a host starting with "www." loses exactly those four characters |
| HostName.OnlyFirstOccurrenceRemoved | server.js:63 | "www.www.example.com" becomes "www.example.com", which still contains "www." |
| HostName.InnerOccurrenceRemoved | server.js:63 | "awww.com" becomes "acom": the removed "www." need not be a leading label |
| LocationStore.FindZip | server.js:86-88 | the search of the history by postal code finds nothing exactly when no entry has that postal code, and otherwise an entry that has it |
| LocationStore.MergeLocation | server.js:82-105 | an unseen host gets the one-element history [locData], which is returned; a known postal code leaves the store as it was and returns the stored document; a new postal code is prepended to the history; other hosts are untouched; the postal code is recorded afterwards; distinct postal codes per history are preserved |
| LocationStore.NewZipPrepended | server.js:89-93 | for a new postal code the location lands at index 0, the old history follows it, and the length grows by one |
| LocationStore.MergeIdempotent | server.js:86-97 | merging the same pair a second time leaves the store as the first merge left it and returns the stored document |
| LocationStore.FirstLocalityWins | server.js:86-97 | of two locations with one postal code merged in turn, the first one is kept at the front, the second merge is a no-op, and no other entry carries that postal code when the store had no repeats |
| Server.LocData | server.js:68-74 | the stored location carries the probed address and each field of the lookup reply under its own name |
| Server.PingWebsite | server.js:60-80 | success exactly when the URL parses, the probe of the normalised host answers and the lookup of the probed address answers; success carries the probe's host and the location built from the probed address; failure carries the one fixed message |
| Server.LookupSkippedAfterProbeFailure | server.js:63-67 | when the probe fails the result is the error, whatever the lookup would answer |
| Server.WebsiteQuery | server.js:48-57 | an error result is answered as it is and the store is unchanged; a resolved result is merged for the probe's host, which then holds the location's postal code |
| Server.ErrorReplyIgnoresStore | server.js:50-54 | for an error result the reply does not depend on the store and the store is not written |
| Server.QueryKeepsStoreDistinct | server.js:48-57 | a query keeps every host's postal codes distinct |
| Placement.GenerateFeature | public/app.js:63-75 | the feature is named after the host, carries the location as its properties, and sits at the location's (longitude, latitude) |
| Placement.Overlaps | public/app.js:95-99 | true exactly when some feature already placed has exactly these coordinates |
| Placement.Offset | public/app.js:101-104 | the coordinate moves by exactly 0.001, upwards exactly when the chosen sign is positive |
| Placement.Place | public/app.js:50-57 | the feature is named after the host; only the coordinates of the location may change; a free spot is kept; an occupied spot is moved by 0.001 times the chosen sign on each axis |
| Placement.PlaceAllEach | public/app.js:49-58 | the k-th bulk-loaded feature is the k-th pair placed against exactly the features before it |
| Placement.PlaceAllSnoc | public/app.js:57 | placing one more pair appends exactly its feature to the features already produced |
| Placement.Pairs | public/app.js:49-50 | the pairs walked are one per stored location (their count is the total number of locations), documents in order and each document's locations in order |
| Placement.PlaceAll | public/app.js:49-58 | one feature per pair; defined by placing each pair against the features of all the pairs before it, which `Placement.PlaceAllEach` states per index |
| Placement.PairsCover | public/app.js:49-50 | every pair walked is some document's host with one of that document's locations |
| Placement.PlaceDocument | public/app.js:50-58 | the inner loop appends the features of one document's locations, in order, after those already placed |
| Placement.InitializeMapDatapoints | public/app.js:47-61 | one feature per stored location; the nested walk produces the features of all pairs, documents in order and locations in order, each placed against its predecessors |
| Placement.BulkPlacementRule | public/app.js:52-57 | each bulk-loaded feature carries its host's name; it is unmoved when no earlier feature sits at its coordinates, and otherwise moved by 0.001 times the chosen sign on each axis; no other field changes |
| Placement.OneFeaturePerPair | public/app.js:49-58 | one feature per (host, location) pair, in input order, each named after its host |
| Placement.CollidingPairSeparated | public/app.js:52-54 | of two pairs at one spot the first keeps it and the second is 0.001 away on each axis, whatever the signs |
| Placement.DistinctPairsUnmoved | public/app.js:52-57 | two pairs at different spots are both placed unmoved |
| Search.Slice | public/app.js:110 | the slice has the requested length, or the whole length of a shorter string, and is a prefix |
| Search.EnsureScheme | public/app.js:110-112 | the result starts with "https://"; input already starting with it is unchanged; other input gets "https://" in front |
| Search.EnsureSchemeIdempotent | public/app.js:110-112 | prefixing twice is prefixing once |
| Search.HttpInputGetsSecondScheme | public/app.js:110-112 | "http://example.com" becomes "https://http://example.com", because the check is for "https://" only |
| Search.FindByName | public/app.js:120 | the first feature carrying the host's name; None exactly when no feature does |
| Search.HandleSearch | public/app.js:120-128 | a host already present by name leaves the features unchanged and its first feature is shown; otherwise exactly one feature, built from the host and the reply's first location, is appended unmoved |
| Search.SearchIdempotent | public/app.js:120-128 | searching the same host again changes neither the features nor the feature shown |
| Search.SearchPlacesWithoutOffset | public/app.js:124-127 | a searched feature is placed at its own coordinates even when that spot is occupied |
| Flags.ToggleMarkerFlags | public/app.js:136-145 | every marker keeps its feature, and it shows its flag exactly when the zoom is below 7 |
| Flags.ToggleLastZoomWins | public/app.js:136-145 | toggling twice equals toggling at the second zoom only, so re-applying one zoom is a no-op |
| Flags.ToggleAtThreshold | public/app.js:137 | at zoom 6.9 every flag shows and at zoom 7 none does |
| QueryFlow.FirstSearchScenario | server.js:48-105 | "bbc.co.uk" first seen, probed and looked up at postal code SE1, (-0.1, 51.5): the input is prefixed; the probe result of the unchanged host is resolved; the route creates and returns a one-location document; the client places that document's first location unmoved |
| QueryFlow.EmptyInputScenario | server.js:76-79 | an empty input becomes "https://", whose parse failure yields the error reply with the store unchanged |

## Left out

- URL parsing (`new URL(input).host`, server.js:63) is Node's WHATWG parser. Its result is an input, `None` when it throws.
- The ICMP probe (`ping.promise.probe`) and the ipgeolocation.io request are function parameters. Their failures are `None`. The API key and the request URL are not modelled.
- MongoDB and Express are not modelled: the connection, `findOne`, `insertOne`, `findOneAndUpdate`, the static files and the `/mapbox-token` route. The collection is a map from host to history, so one document per host is assumed.
- The `/map-data` route (`find().toArray()`) is not modelled. The bulk load takes its sequence of documents as input.
- LocationStore.MergeLocation: the reply of the update branch (`findOneAndUpdate(...).value`) is the abstract `UpdateValue`. Its content depends on the driver version and on the `returnDocument` default. Only the resulting store state is stated.
- The read-then-write race between concurrent merges is not modelled. One sequential merge is modelled.
- Search.HandleSearch: requires a non-empty `locations`. The source dereferences `locations[0]` on both branches and throws when it is empty.
- The client's path after an `error_message` reply is not modelled. It alerts and then fails on `locations[0]`. The no-op empty-input check (public/app.js:109) is also not modelled.
- Rendering is not modelled: Mapbox map creation, `Marker`, `flyTo` to zoom 14, the marker's HTML, axios calls, `alert` and `console.log`. Markers appear only as the feature plus the `show-flag` state that `toggleMarkerFlags` sets.
- Coordinates are reals. IEEE rounding of `coord + 0.001 * dir` is not modelled. Neither is the `parseFloat` coercion of coordinates that arrive as strings, nor JavaScript's `===` on mixed string/number values.
- The bulk load writes the offset coordinates back into the fetched `mapData` objects. The model does not, because nothing reads them afterwards.
- No global coordinate distinctness is claimed: an offset point is not re-checked against later collisions.
- HostName.ReplaceFirst: inserts the replacement literally. JavaScript's `$&`, `$$`, `` $` `` and `$'` expansions are not modelled, because the only replacement used is `""`.
- The URL parser's lower-casing of ASCII hosts is not modelled, since the parser is left out. `NormalizeHost` therefore also accepts upper-case hosts the parser would never produce.
