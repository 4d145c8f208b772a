/** Asset documents: the resource and datum records that array-valued signals
    and the Xspress3 detector cache for the run engine instead of putting the
    array itself in the event. */
module AssetDocs {
  import opened Wrappers
  import Text

  /** Where an externally stored payload lives (a `resource` document). */
  datatype Resource = Resource(
    uid: string,
    spec: string,
    root: string,
    resourcePath: string,
    kwargs: map<string, string>,
    pathSemantics: string)

  /** A reference to one payload stored under a resource (a `datum` document). */
  datatype Datum = Datum(datumId: string, resource: string, kwargs: map<string, int>)

  /** One cached `(name, document)` pair: `('resource', …)` or `('datum', …)`. */
  datatype Entry = ResourceEntry(res: Resource) | DatumEntry(datum: Datum)

  /** What `read()` returns once triggered: the reading under the signal's
      name, whose value is the datum id instead of the array. */
  datatype Reading = Reading(name: string, value: string, timestamp: int)

  /** `read()` before any `trigger()`. */
  datatype ReadError = ReadBeforeTriggered

  /** The datum id `"<resource uid>/<n>"`. */
  function DatumId(resourceUid: string, n: nat): string {
    resourceUid + "/" + Text.NatToString(n)
  }

  /** Under one resource, datum ids with different counters differ. */
  lemma DatumIdInjective(uid: string, m: nat, n: nat)
    ensures DatumId(uid, m) == DatumId(uid, n) <==> m == n
  {
    if DatumId(uid, m) == DatumId(uid, n) {
      var k := |uid| + 1;
      assert DatumId(uid, m)[k..] == Text.NatToString(m);
      assert DatumId(uid, n)[k..] == Text.NatToString(n);
      Text.NatToStringInjective(m, n);
    }
  }

  /** Every datum entry comes after a resource entry with the uid it refers to. */
  ghost predicate ResourcesFirst(es: seq<Entry>) {
    forall i :: 0 <= i < |es| && es[i].DatumEntry? ==>
      exists j :: 0 <= j < i && es[j].ResourceEntry? && es[j].res.uid == es[i].datum.resource
  }

  /** Appending a resource entry and then a datum entry that refers to it
      keeps every datum behind its resource. */
  lemma AppendPairKeepsResourcesFirst(es: seq<Entry>, r: Resource, d: Datum)
    requires ResourcesFirst(es)
    requires d.resource == r.uid
    ensures ResourcesFirst(es + [ResourceEntry(r), DatumEntry(d)])
  {
    var es' := es + [ResourceEntry(r), DatumEntry(d)];
    forall i | 0 <= i < |es'| && es'[i].DatumEntry?
      ensures exists j :: 0 <= j < i && es'[j].ResourceEntry? && es'[j].res.uid == es'[i].datum.resource
    {
      if i < |es| {
        var j :| 0 <= j < i && es[j].ResourceEntry? && es[j].res.uid == es[i].datum.resource;
        assert es'[j] == es[j];
      } else {
        assert es'[|es|] == ResourceEntry(r);
      }
    }
  }

  /** A pending-documents list (`_asset_docs_cache`): triggers append to it,
      `collect_asset_docs()` drains it. */
  class AssetCache {
    var entries: seq<Entry>

    ghost predicate Valid()
      reads this
    {
      ResourcesFirst(entries)
    }

    constructor()
      ensures Valid() && entries == []
    {
      entries := [];
    }

    /** Appends `('resource', r)` and then `('datum', d)`. */
    method AppendPair(r: Resource, d: Datum)
      requires Valid() && d.resource == r.uid
      modifies this
      ensures Valid()
      ensures entries == old(entries) + [ResourceEntry(r), DatumEntry(d)]
    {
      AppendPairKeepsResourcesFirst(entries, r, d);
      entries := entries + [ResourceEntry(r), DatumEntry(d)];
    }

    /** `items = list(cache); cache.clear()`: the snapshot, in order, then empty. */
    method Drain() returns (items: seq<Entry>)
      requires Valid()
      modifies this
      ensures Valid()
      ensures items == old(entries) && entries == []
    {
      items := entries;
      entries := [];
    }
  }
}
