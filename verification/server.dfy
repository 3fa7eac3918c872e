/**
 The server's query path: `pingWebsite` (server.js, lines 60-80) turns the
 host of the submitted URL into either `{host, locData}` or
 `{error_message}`, and the `/website-query` handler (lines 48-57) merges
 only a successful result into the store.

 The URL parser, the ICMP probe and the geolocation service are outside the
 model and enter as parameters: `urlHost` is `new URL(input).host` (None when
 the parser throws), `probe` and `geolocate` answer None when the call throws.
 */
module Server {
  import opened SeqFind
  import opened Records
  import opened HostName
  import opened LocationStore

  const ErrorMessage: string := "Sorry, an error occurred. :("

  /** What the probe reports: `host` and `numeric_host`. */
  datatype ProbeReply = ProbeReply(host: string, numericHost: string)

  /** The fields read from the geolocation response body. */
  datatype GeoReply = GeoReply(
    countryName: string,
    stateProv: string,
    city: string,
    zipcode: string,
    latitude: real,
    longitude: real,
    countryFlag: string,
    isp: string,
    organization: string)

  /** `{host, locData}` on success, `{error_message}` on any failure. */
  datatype PingResult = Resolved(host: string, locData: Location) | Failed(errorMessage: string)

  /** The `locData` record assembled from the probe's address and the lookup reply. */
  function LocData(ip: string, g: GeoReply): (r: Location)
    ensures r.ip == ip && r.zipcode == g.zipcode
    ensures r.latitude == g.latitude && r.longitude == g.longitude
    ensures r.country == g.countryName && r.countryFlag == g.countryFlag
    ensures r.stateProvince == g.stateProv && r.city == g.city
    ensures r.isp == g.isp && r.organization == g.organization
  {
    Location(ip, g.countryName, g.countryFlag, g.stateProv, g.city,
             g.zipcode, g.latitude, g.longitude, g.isp, g.organization)
  }

  function PingWebsite(urlHost: Option<string>,
                       probe: string -> Option<ProbeReply>,
                       geolocate: string -> Option<GeoReply>): (r: PingResult)
    // success exactly when the URL parses, the probe of the normalised host answers,
    // and the lookup of the probed address answers
    ensures r.Resolved? <==>
      && urlHost.Some?
      && probe(NormalizeHost(urlHost.value)).Some?
      && geolocate(probe(NormalizeHost(urlHost.value)).value.numericHost).Some?
    // a failure always carries the one fixed message
    ensures r.Failed? ==> r.errorMessage == ErrorMessage
    // the reported host is the probe's, the address is the probed one
    ensures r.Resolved? ==>
      var p := probe(NormalizeHost(urlHost.value)).value;
      && r.host == p.host
      && r.locData == LocData(p.numericHost, geolocate(p.numericHost).value)
  {
    match urlHost
    case None => Failed(ErrorMessage)
    case Some(h) =>
      match probe(NormalizeHost(h))
      case None => Failed(ErrorMessage)
      case Some(p) =>
        match geolocate(p.numericHost)
        case None => Failed(ErrorMessage)
        case Some(g) => Resolved(p.host, LocData(p.numericHost, g))
  }

  /** When the probe fails the lookup is never consulted: any lookup gives the same answer. */
  lemma LookupSkippedAfterProbeFailure(urlHost: string, probe: string -> Option<ProbeReply>,
                                       g1: string -> Option<GeoReply>, g2: string -> Option<GeoReply>)
    requires probe(NormalizeHost(urlHost)).None?
    ensures PingWebsite(Some(urlHost), probe, g1) == PingWebsite(Some(urlHost), probe, g2) == Failed(ErrorMessage)
  {
  }

  /** The handler's JSON reply. */
  datatype QueryReply = ErrorReply(errorMessage: string) | MergeReply(reply: Reply)

  /** The `/website-query` handler after `pingWebsite` has answered. */
  function WebsiteQuery(store: Store, data: PingResult): (r: (Store, QueryReply))
    // an error result is returned as is and the store is not written
    ensures data.Failed? ==> r.0 == store && r.1 == ErrorReply(data.errorMessage)
    // a resolved result is merged for the probe's host
    ensures data.Resolved? ==>
      var m := MergeLocation(store, data.host, data.locData);
      r.0 == m.store && r.1 == MergeReply(m.reply)
    ensures data.Resolved? ==> data.host in r.0 && HasZip(r.0[data.host], data.locData.zipcode)
  {
    match data
    case Failed(msg) => (store, ErrorReply(msg))
    case Resolved(host, locData) =>
      var m := MergeLocation(store, host, locData);
      (m.store, MergeReply(m.reply))
  }

  /** An error result is answered without reading the store: the reply is the same
      whatever the store holds. */
  lemma ErrorReplyIgnoresStore(s1: Store, s2: Store, data: PingResult)
    requires data.Failed?
    ensures WebsiteQuery(s1, data).1 == WebsiteQuery(s2, data).1
    ensures WebsiteQuery(s1, data).0 == s1
  {
  }

  /** The query path keeps every host's postal codes distinct. */
  lemma QueryKeepsStoreDistinct(store: Store, data: PingResult)
    requires StoreDistinct(store)
    ensures StoreDistinct(WebsiteQuery(store, data).0)
  {
  }
}
