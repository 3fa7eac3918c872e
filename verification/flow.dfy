/**
 The search round trip put together: prefixing on the client, host
 normalisation and the query route on the server, placement back on the
 client.
 */
module QueryFlow {
  import opened SeqFind
  import opened Records
  import opened HostName
  import opened LocationStore
  import opened Server
  import opened Placement
  import opened Search

  /** A host with no 'w' in it holds no "www.". */
  lemma NoWwwWithoutW(h: string)
    requires forall i :: 0 <= i < |h| ==> h[i] != 'w'
    ensures !Contains(h, WwwPattern)
  {
    forall i: nat
      ensures !OccursAt(h, WwwPattern, i)
    {
      if i + 4 <= |h| {
        assert h[i..i + 4][0] == h[i];
      }
    }
  }

  /** "bbc.co.uk", first seen, probed at address `ip` which the lookup places at
      postal code SE1, (-0.1, 51.5). The address is prefixed; the URL's host passes
      normalisation unchanged and is probed; the resolved result creates and returns a
      one-location document; the client places that document's first location unmoved. */
  lemma FirstSearchScenario(probe: string -> Option<ProbeReply>,
                            geolocate: string -> Option<GeoReply>, ip: string, g: GeoReply)
    requires probe("bbc.co.uk") == Some(ProbeReply("bbc.co.uk", ip))
    requires geolocate(ip) == Some(g)
    requires g.zipcode == "SE1" && g.latitude == 51.5 && g.longitude == -0.1
    ensures EnsureScheme("bbc.co.uk") == "https://bbc.co.uk"
    ensures var data := PingWebsite(Some("bbc.co.uk"), probe, geolocate);
            var (store, reply) := WebsiteQuery(map[], data);
            && data == Resolved("bbc.co.uk", LocData(ip, g))
            && store == map["bbc.co.uk" := [LocData(ip, g)]]
            && reply.MergeReply? && reply.reply.Document?
            && var doc := reply.reply.record;
               && doc == HostRecord("bbc.co.uk", [LocData(ip, g)])
               && HandleSearch([], doc.host, doc.locations).features
                  == [Feature("bbc.co.uk", LngLat(-0.1, 51.5), LocData(ip, g))]
  {
    assert "bbc.co.uk"[..8][0] == 'b' != Scheme[0];
    NoWwwWithoutW("bbc.co.uk");
  }

  /** An empty input becomes "https://", which has no host to parse: the route answers
      with the error message and the store is untouched whatever the probe and lookup
      would have said. */
  lemma EmptyInputScenario(store: Store, probe: string -> Option<ProbeReply>,
                           geolocate: string -> Option<GeoReply>)
    ensures EnsureScheme("") == Scheme
    ensures WebsiteQuery(store, PingWebsite(None, probe, geolocate)) == (store, ErrorReply(ErrorMessage))
  {
  }
}
