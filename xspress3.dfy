/** The SSRL Xspress3 detector's datum bookkeeping: staging installs a datum
    counter, `complete()` turns the HDF5 plugin's cached resources and its
    captured frames into asset documents (one datum per frame and channel),
    `collect()` reports one event per datum id, `collect_asset_docs()` drains
    the documents. The HDF5 plugin's state (its cached documents,
    `num_captured`, `channels`, `_resource_uid`) is passed in. */
module Xspress3 {
  import opened Wrappers
  import opened AssetDocs
  import opened DeviceStatus

  datatype XsError =
    | MultiSpectraNotSupported // NotImplementedError from stage()
    | CounterNotStaged         // TypeError: next() on the unset counter
    | DatumIdsUnset            // AttributeError: collect() before any complete()

  /** One `collect()` record for a single datum id. */
  datatype Event = Event(
    data: map<string, string>,
    timestamps: map<string, int>,
    time: int,
    filled: map<string, bool>)

  /** The datum for counter value `n`, frame `frame` and channel `channel`. */
  function XsDatum(resourceUid: string, n: nat, frame: nat, channel: int): Datum {
    Datum(DatumId(resourceUid, n), resourceUid, map["frame" := frame, "channel" := channel])
  }

  /** The datums of one frame, in channel order, counters from `n`. */
  function FrameDatums(resourceUid: string, n: nat, frame: nat, channels: seq<int>): (ds: seq<Datum>)
    ensures |ds| == |channels|
    ensures forall c :: 0 <= c < |channels| ==> ds[c] == XsDatum(resourceUid, n + c, frame, channels[c])
  {
    seq(|channels|, c requires 0 <= c < |channels| => XsDatum(resourceUid, n + c, frame, channels[c]))
  }

  /** The datums of frames `0 .. numFrames-1`, frame-major then channel
      order, counters from `n`; `range` of a non-positive count is empty. */
  function Datums(resourceUid: string, n: nat, numFrames: int, channels: seq<int>): seq<Datum>
    decreases numFrames
  {
    if numFrames <= 0 then []
    else Datums(resourceUid, n, numFrames - 1, channels)
         + FrameDatums(resourceUid, n + (numFrames - 1) * |channels|, numFrames - 1, channels)
  }

  function ResourceEntries(hdf5Cache: seq<(string, Resource)>): (es: seq<Entry>)
    ensures |es| == |hdf5Cache|
    ensures forall i :: 0 <= i < |es| ==> es[i] == ResourceEntry(hdf5Cache[i].1)
  {
    seq(|hdf5Cache|, i requires 0 <= i < |hdf5Cache| => ResourceEntry(hdf5Cache[i].1))
  }

  function DatumEntries(ds: seq<Datum>): (es: seq<Entry>)
    ensures |es| == |ds|
    ensures forall i :: 0 <= i < |es| ==> es[i] == DatumEntry(ds[i])
  {
    seq(|ds|, i requires 0 <= i < |ds| => DatumEntry(ds[i]))
  }

  function Ids(ds: seq<Datum>): (ids: seq<string>)
    ensures |ids| == |ds|
    ensures forall i :: 0 <= i < |ds| ==> ids[i] == ds[i].datumId
  {
    seq(|ds|, i requires 0 <= i < |ds| => ds[i].datumId)
  }

  lemma DatumEntriesAppend(a: seq<Datum>, b: seq<Datum>)
    ensures DatumEntries(a + b) == DatumEntries(a) + DatumEntries(b)
  {
    assert forall i :: 0 <= i < |a + b| ==> DatumEntries(a + b)[i] == (DatumEntries(a) + DatumEntries(b))[i];
  }

  lemma IdsAppend(a: seq<Datum>, b: seq<Datum>)
    ensures Ids(a + b) == Ids(a) + Ids(b)
  {
    assert forall i :: 0 <= i < |a + b| ==> Ids(a + b)[i] == (Ids(a) + Ids(b))[i];
  }

  /** One more frame appends that frame's datums, their counters
      continuing after the earlier frames'. */
  lemma DatumsStep(resourceUid: string, n: nat, frame: nat, channels: seq<int>)
    ensures var before := Datums(resourceUid, n, frame, channels);
      Datums(resourceUid, n, frame + 1, channels)
      == before + FrameDatums(resourceUid, n + |before|, frame, channels)
  {
    var before := Datums(resourceUid, n, frame, channels);
    DatumsLength(resourceUid, n, frame, channels);
    assert n + |before| == n + frame * |channels|;
    assert Datums(resourceUid, n, frame + 1, channels)
           == before + FrameDatums(resourceUid, n + frame * |channels|, frame, channels);
  }

  /** Appending a frame's datums to what was produced so far keeps the
      cache and id list equal to those of the longer sequence. */
  lemma FrameAppended(cache0: seq<Entry>, ids0: seq<string>, produced: seq<Datum>, frameDs: seq<Datum>)
    ensures cache0 + DatumEntries(produced + frameDs) == cache0 + DatumEntries(produced) + DatumEntries(frameDs)
    ensures ids0 + Ids(produced + frameDs) == ids0 + Ids(produced) + Ids(frameDs)
  {
    DatumEntriesAppend(produced, frameDs);
    IdsAppend(produced, frameDs);
  }

  /** At least one frame and one channel give at least one datum. */
  lemma DatumsNonEmpty(resourceUid: string, n: nat, numFrames: int, channels: seq<int>)
    requires numFrames > 0 && channels != []
    ensures Datums(resourceUid, n, numFrames, channels) != []
  {
    var last := FrameDatums(resourceUid, n + (numFrames - 1) * |channels|, numFrames - 1, channels);
    assert |Datums(resourceUid, n, numFrames, channels)| >= |last| > 0;
  }

  /** Exactly `numFrames × |channels|` datums. */
  lemma {:induction false} DatumsLength(resourceUid: string, n: nat, numFrames: int, channels: seq<int>)
    ensures |Datums(resourceUid, n, numFrames, channels)|
            == if numFrames <= 0 then 0 else numFrames * |channels|
    decreases numFrames
  {
    if numFrames > 0 {
      DatumsLength(resourceUid, n, numFrames - 1, channels);
      assert (numFrames - 1) * |channels| + |channels| == numFrames * |channels|;
    }
  }

  /** Datum `f × |channels| + c` belongs to frame `f` and channel `channels[c]`
      and takes counter value `n + f × |channels| + c`. */
  lemma {:induction false} DatumsAt(resourceUid: string, n: nat, numFrames: int, channels: seq<int>,
                                    f: nat, c: nat)
    requires f < numFrames && c < |channels|
    ensures f * |channels| + c < |Datums(resourceUid, n, numFrames, channels)|
    ensures Datums(resourceUid, n, numFrames, channels)[f * |channels| + c]
            == XsDatum(resourceUid, n + f * |channels| + c, f, channels[c])
    decreases numFrames
  {
    var prefix := Datums(resourceUid, n, numFrames - 1, channels);
    DatumsLength(resourceUid, n, numFrames - 1, channels);
    if f < numFrames - 1 {
      DatumsAt(resourceUid, n, numFrames - 1, channels, f, c);
      FrameIndexBound(f, numFrames - 1, |channels|, c);
    } else {
      assert |prefix| == f * |channels|;
    }
  }

  /** Index `f × m + c` of channel `c < m` in frame `f < g` lies before
      frame `g`. */
  lemma FrameIndexBound(f: nat, g: nat, m: nat, c: nat)
    requires f < g && c < m
    ensures f * m + c < g * m
  {
    var d := g - f - 1;
    assert g * m == (f + 1 + d) * m == f * m + m + d * m;
  }

  /** The `i`-th datum id is `"<uid>/<n + i>"`: consecutive counter values. */
  lemma {:induction false} DatumsIds(resourceUid: string, n: nat, numFrames: int, channels: seq<int>)
    ensures forall i :: 0 <= i < |Datums(resourceUid, n, numFrames, channels)| ==>
      Datums(resourceUid, n, numFrames, channels)[i].datumId == DatumId(resourceUid, n + i)
    ensures forall i :: 0 <= i < |Datums(resourceUid, n, numFrames, channels)| ==>
      Datums(resourceUid, n, numFrames, channels)[i].resource == resourceUid
    decreases numFrames
  {
    if numFrames > 0 {
      DatumsIds(resourceUid, n, numFrames - 1, channels);
      DatumsLength(resourceUid, n, numFrames - 1, channels);
    }
  }

  /** Within one `complete()` no datum id repeats. */
  lemma DatumIdsDistinct(resourceUid: string, n: nat, numFrames: int, channels: seq<int>)
    ensures var ids := Ids(Datums(resourceUid, n, numFrames, channels));
      forall i, j :: 0 <= i < j < |ids| ==> ids[i] != ids[j]
  {
    var ds := Datums(resourceUid, n, numFrames, channels);
    DatumsIds(resourceUid, n, numFrames, channels);
    forall i, j | 0 <= i < j < |ds|
      ensures ds[i].datumId != ds[j].datumId
    {
      DatumIdInjective(resourceUid, n + i, n + j);
    }
  }

  /** Two `complete()` calls in one staging, the second continuing the
      counter where the first stopped, share no datum id. */
  lemma SuccessiveCompletesDisjoint(resourceUid: string, n: nat, frames1: int, frames2: int,
                                    channels: seq<int>)
    ensures var first := Datums(resourceUid, n, frames1, channels);
      var second := Datums(resourceUid, n + |first|, frames2, channels);
      forall i, j :: 0 <= i < |first| && 0 <= j < |second| ==> first[i].datumId != second[j].datumId
  {
    var first := Datums(resourceUid, n, frames1, channels);
    var second := Datums(resourceUid, n + |first|, frames2, channels);
    DatumsIds(resourceUid, n, frames1, channels);
    DatumsIds(resourceUid, n + |first|, frames2, channels);
    forall i, j | 0 <= i < |first| && 0 <= j < |second|
      ensures first[i].datumId != second[j].datumId
    {
      DatumIdInjective(resourceUid, n + i, n + |first| + j);
    }
  }

  /** The counter's next value, or 0 where the counter is unset. */
  function CounterStart(counter: Option<nat>): nat {
    if counter.Some? then counter.value else 0
  }

  /** `collect()`'s records: one per datum id, in order, all stamped `now`,
      none filled; without a `complete()` there are no ids to read. */
  function CollectEvents(name: string, datumIds: Option<seq<string>>, now: int): (r: Result<seq<Event>, XsError>)
    ensures r.Failure? <==> datumIds.None?
    ensures r.Success? ==> |r.value| == |datumIds.value|
    ensures r.Success? ==> forall i :: 0 <= i < |r.value| ==>
      r.value[i].data == map[name := datumIds.value[i]]
      && r.value[i].timestamps == map[name := now] && r.value[i].time == now
      && r.value[i].filled == map[name := false]
  {
    match datumIds
    case None => Failure(DatumIdsUnset)
    case Some(ids) =>
      Success(seq(|ids|, i requires 0 <= i < |ids| =>
        Event(map[name := ids[i]], map[name := now], now, map[name := false])))
  }

  class SSRLXspress3Detector {
    const name: string
    var assetCache: seq<Entry>
    var datumCounter: Option<nat>
    var datumIds: Option<seq<string>>
    var triggerMode: int

    /** A new detector: empty deque, no counter, no datum ids yet. */
    constructor(name: string, triggerMode: int)
      ensures this.name == name && this.triggerMode == triggerMode
      ensures assetCache == [] && datumCounter == None && datumIds == None
    {
      this.name := name;
      this.triggerMode := triggerMode;
      assetCache := [];
      datumCounter := None;
      datumIds := None;
    }

    /** `stage()`: more than one spectrum per point is refused before
        anything changes; otherwise a fresh counter starting at 0. */
    method Stage(spectraPerPoint: int) returns (r: Result<(), XsError>)
      modifies this
      ensures assetCache == old(assetCache) && datumIds == old(datumIds)
      ensures triggerMode == old(triggerMode)
      ensures spectraPerPoint != 1 ==>
        r == Failure(MultiSpectraNotSupported) && datumCounter == old(datumCounter)
      ensures spectraPerPoint == 1 ==> r == Success(()) && datumCounter == Some(0)
    {
      if spectraPerPoint != 1 {
        return Failure(MultiSpectraNotSupported);
      }
      datumCounter := Some(0);
      return Success(());
    }

    /** `unstage()`: trigger mode back to software (0), counter unset. */
    method Unstage()
      modifies this
      ensures triggerMode == 0 && datumCounter == None
      ensures assetCache == old(assetCache) && datumIds == old(datumIds)
    {
      triggerMode := 0;
      datumCounter := None;
    }

    /** `complete()`'s first loop: each document in the HDF5 plugin's cache
        is appended as a resource entry, in order. */
    method AppendResources(hdf5Cache: seq<(string, Resource)>)
      modifies this
      ensures assetCache == old(assetCache) + ResourceEntries(hdf5Cache)
      ensures datumCounter == old(datumCounter) && datumIds == old(datumIds)
      ensures triggerMode == old(triggerMode)
    {
      var i := 0;
      while i < |hdf5Cache|
        invariant 0 <= i <= |hdf5Cache|
        invariant assetCache == old(assetCache) + ResourceEntries(hdf5Cache[..i])
        invariant datumCounter == old(datumCounter) && datumIds == old(datumIds)
        invariant triggerMode == old(triggerMode)
      {
        assetCache := assetCache + [ResourceEntry(hdf5Cache[i].1)];
        assert hdf5Cache[..i + 1] == hdf5Cache[..i] + [hdf5Cache[i]];
        i := i + 1;
      }
      assert hdf5Cache[..i] == hdf5Cache;
    }

    /** `complete()`'s inner loop for one frame: per channel, the next
        counter value names a datum that is appended and whose id is
        recorded. */
    method AppendFrame(frame: nat, channels: seq<int>, resourceUid: string)
      requires datumCounter.Some? && datumIds.Some?
      modifies this
      ensures var ds := FrameDatums(resourceUid, old(datumCounter).value, frame, channels);
        assetCache == old(assetCache) + DatumEntries(ds)
        && datumIds == Some(old(datumIds).value + Ids(ds))
        && datumCounter == Some(old(datumCounter).value + |channels|)
      ensures triggerMode == old(triggerMode)
    {
      ghost var frameDs := FrameDatums(resourceUid, datumCounter.value, frame, channels);
      ghost var ids0 := datumIds.value;
      assert Ids(frameDs[..0]) == [] && DatumEntries(frameDs[..0]) == [];
      assert ids0 + Ids(frameDs[..0]) == ids0;
      var c := 0;
      while c < |channels|
        invariant 0 <= c <= |channels|
        invariant datumCounter == Some(old(datumCounter).value + c)
        invariant assetCache == old(assetCache) + DatumEntries(frameDs[..c])
        invariant datumIds == Some(ids0 + Ids(frameDs[..c]))
        invariant triggerMode == old(triggerMode)
      {
        var k := datumCounter.value;
        datumCounter := Some(k + 1);
        var datum := XsDatum(resourceUid, k, frame, channels[c]);
        assert frameDs[..c + 1] == frameDs[..c] + [datum];
        DatumEntriesAppend(frameDs[..c], [datum]);
        IdsAppend(frameDs[..c], [datum]);
        assert Ids([datum]) == [datum.datumId];
        assert ids0 + Ids(frameDs[..c + 1]) == (ids0 + Ids(frameDs[..c])) + [datum.datumId];
        assetCache := assetCache + [DatumEntry(datum)];
        datumIds := Some(datumIds.value + [datum.datumId]);
        c := c + 1;
      }
      assert frameDs[..c] == frameDs;
    }

    /** `complete()`: the HDF5 plugin's cached documents become resource
        entries, the datum ids are reset, then one datum per captured frame
        and channel is appended with its id recorded; the result is a
        finished status. With the counter unset, the first datum raises,
        after the resources were appended and the ids reset. */
    method Complete(hdf5Cache: seq<(string, Resource)>, numCaptured: int, channels: seq<int>,
                    resourceUid: string)
      returns (r: Result<Status, XsError>)
      modifies this
      ensures triggerMode == old(triggerMode)
      ensures var ds := Datums(resourceUid, CounterStart(old(datumCounter)), numCaptured, channels);
        if old(datumCounter).None? && ds != [] then
          r == Failure(CounterNotStaged)
          && assetCache == old(assetCache) + ResourceEntries(hdf5Cache)
          && datumIds == Some([]) && datumCounter == None
        else
          r == Success(NullStatus)
          && assetCache == old(assetCache) + ResourceEntries(hdf5Cache) + DatumEntries(ds)
          && datumIds == Some(Ids(ds))
          && datumCounter == (if old(datumCounter).None? then None
                              else Some(old(datumCounter).value + |ds|))
    {
      AppendResources(hdf5Cache);
      datumIds := Some([]);
      if datumCounter.None? {
        if numCaptured > 0 && channels != [] {
          // the first frame's first `next()` on the unset counter
          DatumsNonEmpty(resourceUid, 0, numCaptured, channels);
          return Failure(CounterNotStaged);
        }
        // no frame or no channel: the loops draw no counter value
        if numCaptured > 0 {
          DatumsLength(resourceUid, 0, numCaptured, channels);
        }
        return Success(NullStatus);
      }
      AppendFrames(numCaptured, channels, resourceUid);
      assert [] + Ids(Datums(resourceUid, old(datumCounter).value, numCaptured, channels))
             == Ids(Datums(resourceUid, old(datumCounter).value, numCaptured, channels));
      return Success(NullStatus);
    }

    /** `complete()`'s frame loop with a staged counter: frame after frame,
        each frame's datums are appended and their ids recorded. */
    method AppendFrames(numCaptured: int, channels: seq<int>, resourceUid: string)
      requires datumCounter.Some? && datumIds.Some?
      modifies this
      ensures var ds := Datums(resourceUid, old(datumCounter).value, numCaptured, channels);
        assetCache == old(assetCache) + DatumEntries(ds)
        && datumIds == Some(old(datumIds).value + Ids(ds))
        && datumCounter == Some(old(datumCounter).value + |ds|)
      ensures triggerMode == old(triggerMode)
    {
      ghost var n0 := datumCounter.value;
      ghost var ids0 := datumIds.value;
      ghost var produced: seq<Datum> := [];
      assert ids0 + Ids([]) == ids0;
      var frame := 0;
      while frame < numCaptured
        invariant 0 <= frame <= (if numCaptured > 0 then numCaptured else 0)
        invariant produced == Datums(resourceUid, n0, frame, channels)
        invariant assetCache == old(assetCache) + DatumEntries(produced)
        invariant datumIds == Some(ids0 + Ids(produced))
        invariant datumCounter == Some(n0 + |produced|)
        invariant triggerMode == old(triggerMode)
      {
        ghost var frameDs := FrameDatums(resourceUid, n0 + |produced|, frame, channels);
        ghost var cacheBefore := assetCache;
        DatumsStep(resourceUid, n0, frame, channels);
        FrameAppended(old(assetCache), ids0, produced, frameDs);
        AppendFrame(frame, channels, resourceUid);
        assert assetCache == cacheBefore + DatumEntries(frameDs);
        assert datumIds == Some(ids0 + Ids(produced) + Ids(frameDs));
        produced := produced + frameDs;
        frame := frame + 1;
      }
    }

    /** `collect()` reads the ids of the last `complete()` and leaves them in
        place, so a repeated call gives the same records. */
    function Collect(now: int): (r: Result<seq<Event>, XsError>)
      reads this
      ensures r == CollectEvents(name, datumIds, now)
    {
      CollectEvents(name, datumIds, now)
    }

    /** `collect_asset_docs()`: the deque's contents in order, then empty. */
    method CollectAssetDocs() returns (items: seq<Entry>)
      modifies this
      ensures items == old(assetCache) && assetCache == []
      ensures datumCounter == old(datumCounter) && datumIds == old(datumIds)
      ensures triggerMode == old(triggerMode)
    {
      items := assetCache;
      assetCache := [];
    }
  }

  /** One staged run of two `complete()` calls followed by `collect()` and
      `collect_asset_docs()`: each call's resources precede its datums, the
      second call's counters continue after the first's, `collect()` reports
      only the second call's ids, and the deque ends empty. */
  method StagedRun(name: string, resourceUid: string, hdf5Cache: seq<(string, Resource)>,
                   frames1: int, frames2: int, channels: seq<int>, now: int)
    returns (status1: Result<Status, XsError>, status2: Result<Status, XsError>,
             events: Result<seq<Event>, XsError>, docs: seq<Entry>, leftOver: nat)
    ensures var first := Datums(resourceUid, 0, frames1, channels);
      var second := Datums(resourceUid, |first|, frames2, channels);
      status1 == Success(NullStatus) && status2 == Success(NullStatus)
      && docs == ResourceEntries(hdf5Cache) + DatumEntries(first)
                 + ResourceEntries(hdf5Cache) + DatumEntries(second)
      && events == CollectEvents(name, Some(Ids(second)), now)
      && leftOver == 0
  {
    ghost var first := Datums(resourceUid, 0, frames1, channels);
    ghost var second := Datums(resourceUid, |first|, frames2, channels);
    var x := new SSRLXspress3Detector(name, 1);
    var _ := x.Stage(1);
    assert x.datumCounter == Some(0) && x.assetCache == [];
    status1 := x.Complete(hdf5Cache, frames1, channels, resourceUid);
    assert status1 == Success(NullStatus) && x.datumCounter == Some(|first|);
    assert x.assetCache == ResourceEntries(hdf5Cache) + DatumEntries(first);
    ghost var afterFirst := x.assetCache;
    status2 := x.Complete(hdf5Cache, frames2, channels, resourceUid);
    assert status2 == Success(NullStatus) && x.datumIds == Some(Ids(second));
    assert x.assetCache == afterFirst + ResourceEntries(hdf5Cache) + DatumEntries(second);
    events := x.Collect(now);
    docs := x.CollectAssetDocs();
    leftOver := |x.assetCache|;
  }

  /** Without staging, `complete()` on at least one frame and one channel
      fails and leaves only the resource entries behind; `collect()` then
      finds the reset, empty id list. */
  method CompleteUnstaged(name: string, resourceUid: string, hdf5Cache: seq<(string, Resource)>,
                          numCaptured: int, channels: seq<int>, now: int)
    returns (status: Result<Status, XsError>, docs: seq<Entry>, events: Result<seq<Event>, XsError>)
    requires numCaptured > 0 && channels != []
    ensures status == Failure(CounterNotStaged)
    ensures docs == ResourceEntries(hdf5Cache)
    ensures events == Success([])
  {
    var x := new SSRLXspress3Detector(name, 1);
    DatumsLength(resourceUid, 0, numCaptured, channels);
    status := x.Complete(hdf5Cache, numCaptured, channels, resourceUid);
    events := x.Collect(now);
    docs := x.CollectAssetDocs();
  }

  /** `collect()` before any `complete()` has no ids to read. */
  method CollectBeforeComplete(name: string, now: int) returns (events: Result<seq<Event>, XsError>)
    ensures events == Failure(DatumIdsUnset)
  {
    var x := new SSRLXspress3Detector(name, 0);
    var _ := x.Stage(1);
    events := x.Collect(now);
  }
}
