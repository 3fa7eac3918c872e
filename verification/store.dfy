/**
 The per-host location history kept in the `websites` collection, and the
 read-then-write merge `validateDataInDB` performs on it (server.js, lines
 82-105). The collection is a map from host to its locations, most recent
 first; one sequential merge is modelled.
 */
module LocationStore {
  import opened SeqFind
  import opened Records

  type Store = map<string, seq<Location>>

  /** What the merge hands back to the route. `UpdateValue` stands for the
      `value` of `findOneAndUpdate`, whose content depends on the driver's
      `returnDocument` default and is not modelled. */
  datatype Reply = Document(record: HostRecord) | UpdateValue

  datatype MergeOutcome = MergeOutcome(store: Store, reply: Reply)

  /** Every host's history is free of repeated postal codes. */
  ghost predicate StoreDistinct(store: Store)
  {
    forall h :: h in store ==> DistinctZips(store[h])
  }

  /** `locations.find(l => l.zipcode === zip)`: the first entry with that postal code. */
  function FindZip(locs: seq<Location>, zip: string): (r: Option<nat>)
    ensures r.None? <==> !HasZip(locs, zip)
    ensures r.Some? ==> r.value < |locs| && locs[r.value].zipcode == zip
  {
    FindIndex(locs, (l: Location) => l.zipcode == zip)
  }

  /** `validateDataInDB({host, locData})`. */
  function MergeLocation(store: Store, host: string, loc: Location): (r: MergeOutcome)
    // the host is present afterwards and no other host is added, removed or changed
    ensures r.store.Keys == store.Keys + {host}
    ensures forall h :: h in store && h != host ==> r.store[h] == store[h]
    // the postal code is recorded for the host afterwards
    ensures HasZip(r.store[host], loc.zipcode)
    // unseen host: a one-element history is created and returned
    ensures host !in store ==>
      r.store == store[host := [loc]] && r.reply == Document(HostRecord(host, [loc]))
    // known postal code: nothing is written and the stored document is returned
    ensures host in store && HasZip(store[host], loc.zipcode) ==>
      r.store == store && r.reply == Document(HostRecord(host, store[host]))
    // new postal code for a known host: the location is prepended
    ensures host in store && !HasZip(store[host], loc.zipcode) ==>
      r.store == store[host := [loc] + store[host]] && r.reply == UpdateValue
    // the merge keeps postal codes distinct within every history
    ensures StoreDistinct(store) ==> StoreDistinct(r.store)
  {
    if host in store then
      match FindZip(store[host], loc.zipcode)
      case None =>
        var updated := [loc] + store[host];
        assert updated[0].zipcode == loc.zipcode;
        MergeOutcome(store[host := updated], UpdateValue)
      case Some(_) =>
        MergeOutcome(store, Document(HostRecord(host, store[host])))
    else
      assert [loc][0].zipcode == loc.zipcode;
      MergeOutcome(store[host := [loc]], Document(HostRecord(host, [loc])))
  }

  /** A new postal code for a known host lands at index 0 and the history grows by one. */
  lemma NewZipPrepended(store: Store, host: string, loc: Location)
    requires host in store && !HasZip(store[host], loc.zipcode)
    ensures MergeLocation(store, host, loc).store[host][0] == loc
    ensures |MergeLocation(store, host, loc).store[host]| == |store[host]| + 1
    ensures MergeLocation(store, host, loc).store[host][1..] == store[host]
  {
  }

  /** Merging the same pair twice leaves the store as the first merge left it, and
      the second merge returns the stored document. */
  lemma MergeIdempotent(store: Store, host: string, loc: Location)
    ensures var first := MergeLocation(store, host, loc);
            var second := MergeLocation(first.store, host, loc);
            second.store == first.store
            && second.reply == Document(HostRecord(host, first.store[host]))
  {
  }

  /** Two locations with one postal code merged in turn for one host: the second is a
      no-op, so the first one persisted is the one kept, and it is the only entry with
      that postal code when the store was free of repeats. */
  lemma FirstLocalityWins(store: Store, host: string, loc1: Location, loc2: Location)
    requires loc1.zipcode == loc2.zipcode
    requires host !in store || !HasZip(store[host], loc1.zipcode)
    ensures var first := MergeLocation(store, host, loc1).store;
            var second := MergeLocation(first, host, loc2).store;
            && second == first
            && second[host][0] == loc1
            && (StoreDistinct(store) ==>
                  forall i :: 0 < i < |second[host]| ==> second[host][i].zipcode != loc2.zipcode)
  {
  }
}
