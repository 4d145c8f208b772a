/** `ArraySignal` of the devices package: an EPICS array signal whose
    `trigger()` stores the array in an `.npy` file and caches a resource and a
    datum document, so that `read()` reports a datum id instead of the array. */
module ArraySignals {
  import opened Wrappers
  import opened AssetDocs

  /** The hard-coded storage root of the devices package. */
  const NpyRoot := "C:\\Users\\roberttk\\Desktop\\SLAC_RA\\bluesky-dev\\ssrltools\\fstore"

  /** The resource a trigger registers: spec `npy`, a per-trigger file name
      built from a second fresh uuid, no resource kwargs, windows paths. */
  function NpyResource(uid: string, fileUid: string): Resource {
    Resource(uid, "npy", NpyRoot, NpyRoot + "\\tmp\\" + fileUid + ".npy", map[], "windows")
  }

  /** The single datum the resource's datum factory makes, with no kwargs. */
  function NpyDatum(uid: string): Datum {
    Datum(DatumId(uid, 0), uid, map[])
  }

  class ArraySignal {
    const name: string
    /** This instance's own `_asset_docs_cache`, created in the constructor. */
    const cache: AssetCache
    /** `_last_ret`: the reading stored by the most recent trigger. */
    var lastRet: Option<Reading>

    ghost predicate Valid()
      reads this, cache
    {
      cache.Valid()
    }

    constructor(name: string)
      ensures Valid() && fresh(cache)
      ensures this.name == name && cache.entries == [] && lastRet == None
      ensures Read() == Failure(ReadBeforeTriggered)
    {
      this.name := name;
      cache := new AssetCache();
      lastRet := None;
    }

    /** `read()`: refuses to answer before the first trigger, and otherwise
        returns the stored reading; it changes nothing. */
    function Read(): (r: Result<Reading, ReadError>)
      reads this
      ensures r.Failure? <==> lastRet == None
      ensures r.Failure? ==> r.error == ReadBeforeTriggered
      ensures r.Success? ==> Some(r.value) == lastRet
    {
      match lastRet
      case None => Failure(ReadBeforeTriggered)
      case Some(ret) => Success(ret)
    }

    /** `trigger()`: `uid` and `fileUid` stand for the two fresh uuids the
        source draws, `timestamp` for the time of the underlying reading.
        The array itself is written to the resource's file, which is not
        modelled. */
    method Trigger(uid: string, fileUid: string, timestamp: int)
      requires Valid()
      modifies this, cache
      ensures Valid()
      ensures cache.entries == old(cache.entries) + [ResourceEntry(NpyResource(uid, fileUid)), DatumEntry(NpyDatum(uid))]
      ensures lastRet == Some(Reading(name, DatumId(uid, 0), timestamp))
      ensures Read() == Success(Reading(name, DatumId(uid, 0), timestamp))
    {
      var resource := NpyResource(uid, fileUid);
      var datum := NpyDatum(uid);
      cache.AppendPair(resource, datum);
      lastRet := Some(Reading(name, datum.datumId, timestamp));
    }

    /** `collect_asset_docs()`: the cached entries in insertion order, after
        which the cache is empty. */
    method CollectAssetDocs() returns (items: seq<Entry>)
      requires Valid()
      modifies cache
      ensures Valid()
      ensures items == old(cache.entries) && cache.entries == []
      ensures ResourcesFirst(items)
    {
      items := cache.Drain();
    }
  }

  /** Two triggers, then two collections: the first collection yields both
      resource/datum pairs in trigger order, the second yields nothing, and
      `read()` reports the second trigger's datum throughout. */
  method TriggerTwiceCollectTwice(name: string, u1: string, f1: string, u2: string, f2: string, t1: int, t2: int)
    returns (first: seq<Entry>, second: seq<Entry>, reading: Result<Reading, ReadError>)
    ensures first == [ResourceEntry(NpyResource(u1, f1)), DatumEntry(NpyDatum(u1)),
                      ResourceEntry(NpyResource(u2, f2)), DatumEntry(NpyDatum(u2))]
    ensures second == []
    ensures reading == Success(Reading(name, DatumId(u2, 0), t2))
  {
    var s := new ArraySignal(name);
    s.Trigger(u1, f1, t1);
    s.Trigger(u2, f2, t2);
    first := s.CollectAssetDocs();
    second := s.CollectAssetDocs();
    reading := s.Read();
  }
}
