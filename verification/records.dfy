/**
 The records the server stores and the client renders: one geolocated place
 (`locData` on the server, a `location` on the client) and a host's history.
 */
module Records {

  /** One geolocation result for a host's address. Coordinates are reals; the
      string-or-number coercion of the JSON payload is not modelled. */
  datatype Location = Location(
    ip: string,
    country: string,
    countryFlag: string,
    stateProvince: string,
    city: string,
    zipcode: string,
    latitude: real,
    longitude: real,
    isp: string,
    organization: string)

  /** A stored document: a host and its locations, most recent first. */
  datatype HostRecord = HostRecord(host: string, locations: seq<Location>)

  /** The postal code occurs somewhere in the history. */
  ghost predicate HasZip(locs: seq<Location>, zip: string)
  {
    exists i :: 0 <= i < |locs| && locs[i].zipcode == zip
  }

  /** No two entries of the history share a postal code. */
  ghost predicate DistinctZips(locs: seq<Location>)
  {
    forall i, j :: 0 <= i < j < |locs| ==> locs[i].zipcode != locs[j].zipcode
  }
}
