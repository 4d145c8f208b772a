/** `ArraySynSignal` of the simulation package: a synthetic array signal
    whose `trigger()` writes a `.tiff` per point and caches a resource and a
    datum document. Its `_asset_docs_cache` is a class attribute that is only
    ever mutated, so every instance appends to and drains one shared list;
    the model passes that one `AssetCache` to every instance. */
module ArraySynSignals {
  import opened Wrappers
  import opened AssetDocs
  import Text

  /** The hard-coded storage root of the simulation package. */
  const TiffRoot := "C:\\Users\\roberttk\\Desktop\\SLAC_RA\\bluesky-dev\\fstore"

  /** The `AD_TIFF` handler's file-name template. */
  const TiffTemplate := "%s%s_%d.tiff"

  /** The resource a trigger registers: spec `AD_TIFF`, the template and a
      fresh file-name stem as resource kwargs. */
  function TiffResource(uid: string, filename: string): Resource {
    Resource(uid, "AD_TIFF", TiffRoot, TiffRoot + "\\tmp\\",
             map["template" := TiffTemplate, "filename" := filename], "windows")
  }

  /** The datum for point `pointNumber`. */
  function PointDatum(uid: string, pointNumber: nat): Datum {
    Datum(DatumId(uid, 0), uid, map["point_number" := pointNumber])
  }

  /** The name of the file a trigger writes: the stem, `_`, the point number, `.tiff`. */
  function TiffFileName(filename: string, pointNumber: nat): string {
    filename + "_" + Text.NatToString(pointNumber) + ".tiff"
  }

  lemma TiffSuffix(k: nat)
    ensures Text.Format("_%d.tiff", [Text.Int(k)]) == Success("_" + Text.NatToString(k) + ".tiff")
  {
    var n := Text.NatToString(k);
    TiffNumberSuffix(k);
    Text.FormatPlainPrefix("_", "%d.tiff", [Text.Int(k)]);
    assert "_" + "%d.tiff" == "_%d.tiff";
    assert "_" + (n + ".tiff") == "_" + n + ".tiff";
  }

  lemma TiffNumberSuffix(k: nat)
    ensures Text.Format("%d.tiff", [Text.Int(k)]) == Success(Text.NatToString(k) + ".tiff")
  {
    TiffExtension();
    Text.FormatIntHead(".tiff", k, []);
    assert [Text.Int(k)] + [] == [Text.Int(k)];
    assert "%d" + ".tiff" == "%d.tiff";
  }

  lemma TiffExtension()
    ensures Text.Format(".tiff", []) == Success(".tiff")
  {
    Text.FormatPlainPrefix(".tiff", [], []);
    assert ".tiff" + [] == ".tiff";
    assert Text.Format([], []) == Success([]);
  }

  lemma TiffStemSuffix(filename: string, k: nat)
    ensures Text.Format("%s_%d.tiff", [Text.Str(filename), Text.Int(k)])
         == Success(TiffFileName(filename, k))
  {
    TiffSuffix(k);
    Text.FormatStrHead("_%d.tiff", Text.Str(filename), [Text.Int(k)]);
    assert "%s" + "_%d.tiff" == "%s_%d.tiff";
    assert [Text.Str(filename)] + [Text.Int(k)] == [Text.Str(filename), Text.Int(k)];
    var n := Text.NatToString(k);
    assert filename + ("_" + n + ".tiff") == filename + "_" + n + ".tiff";
  }

  /** The handler fills the resource's template with the resource path, the
      stem and the datum's point number; that gives exactly the path the
      trigger wrote, so every datum resolves to its own file. */
  lemma TemplateNamesWrittenFile(path: string, filename: string, pointNumber: nat)
    ensures Text.Format(TiffTemplate, [Text.Str(path), Text.Str(filename), Text.Int(pointNumber)])
         == Success(path + TiffFileName(filename, pointNumber))
  {
    TiffStemSuffix(filename, pointNumber);
    Text.FormatStrHead("%s_%d.tiff", Text.Str(path), [Text.Str(filename), Text.Int(pointNumber)]);
    assert "%s" + "%s_%d.tiff" == TiffTemplate;
    assert [Text.Str(path)] + [Text.Str(filename), Text.Int(pointNumber)]
        == [Text.Str(path), Text.Str(filename), Text.Int(pointNumber)];

  }

  class ArraySynSignal {
    const name: string
    /** The class-level `_asset_docs_cache`, shared by all instances. */
    const cache: AssetCache
    /** `_last_ret`: the reading stored by the most recent trigger. */
    var lastRet: Option<Reading>
    /** `point_number`: how many times this instance has been triggered. */
    var pointNumber: nat

    ghost predicate Valid()
      reads this, cache
    {
      cache.Valid()
    }

    constructor(name: string, shared: AssetCache)
      requires shared.Valid()
      ensures Valid() && cache == shared
      ensures this.name == name && lastRet == None && pointNumber == 0
      ensures Read() == Failure(ReadBeforeTriggered)
    {
      this.name := name;
      cache := shared;
      lastRet := None;
      pointNumber := 0;
    }

    /** `read()`: refuses to answer before the first trigger, otherwise
        returns the stored reading; it changes nothing. */
    function Read(): (r: Result<Reading, ReadError>)
      reads this
      ensures r.Failure? <==> lastRet == None
      ensures r.Failure? ==> r.error == ReadBeforeTriggered
      ensures r.Success? ==> Some(r.value) == lastRet
    {
      match lastRet
      case None => Failure(ReadBeforeTriggered)
      case Some(ret) => Success(ret)
    }

    /** `trigger()`: `uid` and `filename` stand for the two fresh uuids the
        source draws, `timestamp` for the time of the underlying reading.
        Returns the name of the file the array is written to (the write
        itself is not modelled). */
    method Trigger(uid: string, filename: string, timestamp: int) returns (written: string)
      requires Valid()
      modifies this, cache
      ensures Valid()
      ensures pointNumber == old(pointNumber) + 1
      ensures cache.entries == old(cache.entries)
                + [ResourceEntry(TiffResource(uid, filename)), DatumEntry(PointDatum(uid, pointNumber))]
      ensures written == TiffFileName(filename, pointNumber)
      ensures Read() == Success(Reading(name, DatumId(uid, 0), timestamp))
    {
      pointNumber := pointNumber + 1;
      var resource := TiffResource(uid, filename);
      var datum := PointDatum(uid, pointNumber);
      cache.AppendPair(resource, datum);
      written := resource.kwargs["filename"] + "_" + Text.NatToString(pointNumber) + ".tiff";
      lastRet := Some(Reading(name, datum.datumId, timestamp));
    }

    /** `collect_asset_docs()`: drains the shared cache, in order. */
    method CollectAssetDocs() returns (items: seq<Entry>)
      requires Valid()
      modifies cache
      ensures Valid()
      ensures items == old(cache.entries) && cache.entries == []
      ensures ResourcesFirst(items)
    {
      items := cache.Drain();
    }
  }

  /** Two signals built on the one class-level cache: a trigger on the first
      is drained through the second, after which the first has nothing left;
      the first's `n`-th trigger carries point number `n`. */
  method SharedCacheScenario(u1: string, f1: string, u2: string, f2: string)
    returns (viaB: seq<Entry>, viaA: seq<Entry>)
    ensures viaB == [ResourceEntry(TiffResource(u1, f1)), DatumEntry(PointDatum(u1, 1)),
                     ResourceEntry(TiffResource(u2, f2)), DatumEntry(PointDatum(u2, 2))]
    ensures viaA == []
  {
    var shared := new AssetCache();
    var a := new ArraySynSignal("a", shared);
    var b := new ArraySynSignal("b", shared);
    var _ := a.Trigger(u1, f1, 0);
    var _ := a.Trigger(u2, f2, 1);
    viaB := b.CollectAssetDocs();
    viaA := a.CollectAssetDocs();
  }
}
