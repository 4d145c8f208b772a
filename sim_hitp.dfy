/** The simulated HiTp stage: a registry of sample locations read from a
    table of plate positions, the argument lists built from it, and the
    per-step hook that skips grid points outside a radius or over a
    detector threshold. The table's rows are given as a parameter. */
module SimHiTp {
  import opened Wrappers
  import opened SampleLocs

  /** The stage's components in declaration order: the record keys. */
  const SynComponentNames: seq<string> := LocKeys

  /** The record stored for a table row `(Plate X, Plate Y)`: the row's
      positions go to the stage motors, plate and theta start at 0. */
  function RowLoc(row: (real, real)): Loc {
    Loc(row.0, row.1, 0.0, 0.0, 0.0)
  }

  /** The `name` field of the first `n` records, gathered one record at a
      time. */
  function FieldColumn(vals: seq<Loc>, name: string, n: nat): (col: seq<real>)
    requires n <= |vals| && name in LocKeys
    ensures |col| == n
    ensures forall k :: 0 <= k < n ==> col[k] == Field(vals[k], name)
    decreases n
  {
    if n == 0 then [] else FieldColumn(vals, name, n - 1) + [Field(vals[n - 1], name)]
  }

  /** A five-slot sequence with slot `c` of `cols` extended by `v`. */
  function AppendAt(cols: seq<seq<real>>, c: nat, v: real): (r: seq<seq<real>>)
    requires c < |cols|
    ensures |r| == |cols| && r[c] == cols[c] + [v]
    ensures forall d :: 0 <= d < |cols| && d != c ==> r[d] == cols[d]
  {
    cols[c := cols[c] + [v]]
  }

  class SynHiTpStage {
    var sampleLocs: Table

    ghost predicate Valid()
      reads this
    {
      WellFormed(sampleLocs)
    }

    /** Row i of the position table becomes sample i. */
    constructor(rows: seq<(real, real)>)
      ensures Valid()
      ensures |sampleLocs.order| == |rows|
      ensures forall i :: 0 <= i < |rows| ==>
        sampleLocs.order[i] == i && i in sampleLocs.locs && sampleLocs.locs[i] == RowLoc(rows[i])
      ensures forall k :: k in sampleLocs.locs ==> 0 <= k < |rows|
    {
      var table := EmptyTable;
      var i := 0;
      while i < |rows|
        invariant 0 <= i <= |rows|
        invariant WellFormed(table)
        invariant |table.order| == i
        invariant forall k :: 0 <= k < i ==>
          table.order[k] == k && k in table.locs && table.locs[k] == RowLoc(rows[k])
        invariant forall k :: k in table.locs ==> 0 <= k < i
      {
        table := Put(table, i, RowLoc(rows[i]));
        i := i + 1;
      }
      sampleLocs := table;
    }

    /** `sample(index)`: the stored record, or `KeyError`. */
    function Sample(index: int): (r: Result<Loc, LocError>)
      reads this
      ensures r == Get(sampleLocs, index)
    {
      Get(sampleLocs, index)
    }

    /** `save_sample_loc(index)`: the five current positions go under
        `index`; no other key changes. */
    method SaveSampleLoc(index: int, current: Loc)
      requires Valid()
      modifies this
      ensures Valid()
      ensures sampleLocs == Put(old(sampleLocs), index, current)
      ensures Sample(index) == Success(current)
      ensures forall k :: k != index ==> Sample(k) == old(Sample(k))
    {
      PutGet(sampleLocs, index, current, index);
      sampleLocs := Put(sampleLocs, index, current);
    }

    /** `sample_loc_list()`: one list per component gathered over the
        records in insertion order, then each component followed by its
        list. The per-component lists are indexed by the component's
        position rather than by its name. */
    method SampleLocList() returns (result: seq<Arg>)
      requires Valid()
      ensures result == PairedLists(sampleLocs, SynComponentNames)
    {
      var vals := Values(sampleLocs);
      var names := SynComponentNames;
      var locLists := GatherColumns(vals);
      result := [];
      for c := 0 to |names|
        invariant result == PairedLists(sampleLocs, names[..c])
      {
        assert locLists[c] == Column(sampleLocs, names[c]);
        assert names[..c + 1] == names[..c] + [names[c]];
        PairedListsSnoc(sampleLocs, names[..c], names[c]);
        result := result + [Motor(names[c]), Positions(locLists[c])];
      }
      assert names[..|names|] == names;
    }

    /** `move_to_sample_plan(index)`: the motor and value of each key of
        sample `index`'s record in the record's key order, or `KeyError`
        when there is no such sample. */
    method MoveToSamplePlan(index: int) returns (r: Result<seq<Arg>, LocError>)
      ensures r.Success? <==> index in sampleLocs.locs
      ensures r.Success? ==> r.value == RecordArgs(sampleLocs.locs[index])
      ensures r.Failure? ==> r.error == MissingIndex(index)
    {
      var loc := Sample(index);
      if loc.Failure? {
        return Failure(loc.error);
      }
      ghost var pairs := RecordArgs(loc.value);
      var result: seq<Arg> := [];
      for j := 0 to |LocKeys|
        invariant result == pairs[..2 * j]
      {
        assert pairs[..2 * j + 2] == pairs[..2 * j] + [pairs[2 * j], pairs[2 * j + 1]];
        result := result + [Motor(LocKeys[j]), Value(Field(loc.value, LocKeys[j]))];
      }
      assert pairs[..2 * |LocKeys|] == pairs;
      return Success(result);
    }
  }

  /** The per-component lists of `sample_loc_list`: for every record in
      turn, each of its fields is appended to its component's list. */
  method GatherColumns(vals: seq<Loc>) returns (locLists: seq<seq<real>>)
    ensures |locLists| == |LocKeys|
    ensures forall c :: 0 <= c < |LocKeys| ==> locLists[c] == FieldColumn(vals, LocKeys[c], |vals|)
  {
    var names := LocKeys;
    locLists := [[], [], [], [], []];
    for i := 0 to |vals|
      invariant |locLists| == |names|
      invariant forall c :: 0 <= c < |names| ==> locLists[c] == FieldColumn(vals, names[c], i)
    {
      locLists := AppendRecord(vals, i, locLists);
    }
  }

  /** The inner loop: each field of record `i` goes to its list. */
  method AppendRecord(vals: seq<Loc>, i: nat, cols: seq<seq<real>>) returns (locLists: seq<seq<real>>)
    requires i < |vals| && |cols| == |LocKeys|
    requires forall c :: 0 <= c < |LocKeys| ==> cols[c] == FieldColumn(vals, LocKeys[c], i)
    ensures |locLists| == |LocKeys|
    ensures forall c :: 0 <= c < |LocKeys| ==> locLists[c] == FieldColumn(vals, LocKeys[c], i + 1)
  {
    var names := LocKeys;
    locLists := cols;
    for c := 0 to |names|
      invariant |locLists| == |names|
      invariant forall d :: 0 <= d < c ==> locLists[d] == FieldColumn(vals, names[d], i + 1)
      invariant forall d :: c <= d < |names| ==> locLists[d] == FieldColumn(vals, names[d], i)
    {
      locLists := AppendAt(locLists, c, Field(vals[i], names[c]));
    }
  }

  /** Gathering one more component appends its pair at the end. */
  lemma {:induction false} PairedListsSnoc(t: Table, names: seq<string>, name: string)
    requires WellFormed(t)
    ensures PairedLists(t, names + [name])
            == PairedLists(t, names) + [Motor(name), Positions(Column(t, name))]
    decreases |names|
  {
    if names != [] {
      assert (names + [name])[1..] == names[1..] + [name];
      PairedListsSnoc(t, names[1..], name);
    }
  }

  /** `sum(x*x for x in vals)`. */
  function SumSquares(vals: seq<real>): (s: real)
    ensures s >= 0.0
  {
    if vals == [] then 0.0 else vals[0] * vals[0] + SumSquares(vals[1..])
  }

  /** The step runs when its point lies within the radius and no detector
      reads over the threshold. */
  predicate Admits(vals: seq<real>, detectors: seq<real>, threshold: real, radius: real)
    ensures Admits(vals, detectors, threshold, radius) ==>
      SumSquares(vals) <= radius * radius && forall k :: 0 <= k < |detectors| ==> detectors[k] <= threshold
    ensures |detectors| > 0 && detectors[0] > threshold ==> !Admits(vals, detectors, threshold, radius)
    ensures vals == [] && detectors == [] ==> Admits(vals, detectors, threshold, radius)
  {
    assert forall k :: 0 <= k < |detectors| ==> detectors[k] in detectors;
    SumSquares(vals) <= radius * radius && forall d :: d in detectors ==> d <= threshold
  }

  /** `per_step_fn`: whether the step is run (`one_nd_step`) or skipped. */
  method PerStepRuns(vals: seq<real>, detectors: seq<real>, threshold: real, radius: real)
    returns (runs: bool)
    ensures runs <==> Admits(vals, detectors, threshold, radius)
  {
    var posRad := SumSquares(vals);
    var pastRadius := posRad > radius * radius;
    var overThresh := false;
    for i := 0 to |detectors|
      invariant !overThresh <==> forall k :: 0 <= k < i ==> detectors[k] <= threshold
    {
      if detectors[i] > threshold {
        overThresh := true;
      }
    }
    if !overThresh {
      forall d | d in detectors
        ensures d <= threshold
      {
        var k :| 0 <= k < |detectors| && detectors[k] == d;
      }
    } else {
      var k :| 0 <= k < |detectors| && detectors[k] > threshold;
      assert detectors[k] in detectors;
    }
    runs := !(pastRadius || overThresh);
  }

  /** A point exactly on the radius runs, as does a detector reading
      exactly the threshold; any point beyond the radius, or any detector
      above the threshold, is skipped whatever the rest reads. */
  lemma AdmitsBoundaries(vals: seq<real>, detectors: seq<real>, threshold: real, radius: real)
    ensures SumSquares(vals) == radius * radius && (forall d :: d in detectors ==> d == threshold)
      ==> Admits(vals, detectors, threshold, radius)
    ensures SumSquares(vals) > radius * radius ==> !Admits(vals, detectors, threshold, radius)
    ensures (exists d :: d in detectors && d > threshold) ==> !Admits(vals, detectors, threshold, radius)
  {
  }

  /** Skipping is symmetric in the step's axes: a point and its mirror
      image through the origin are treated alike. */
  lemma {:induction false} SumSquaresMirror(vals: seq<real>)
    ensures SumSquares(seq(|vals|, i requires 0 <= i < |vals| => -vals[i])) == SumSquares(vals)
    decreases |vals|
  {
    if vals != [] {
      var neg := seq(|vals|, i requires 0 <= i < |vals| => -vals[i]);
      var rest := vals[1..];
      assert neg[1..] == seq(|rest|, i requires 0 <= i < |rest| => -rest[i]);
      SumSquaresMirror(rest);
    }
  }

  /** The first sample's pairs from a one-row table, and `KeyError` for a
      sample that was never stored. */
  method MoveBetweenSamples(x: real, y: real, here: Loc)
    returns (first: Result<seq<Arg>, LocError>, missing: Result<seq<Arg>, LocError>,
             saved: Result<seq<Arg>, LocError>)
    ensures first == Success(RecordArgs(Loc(x, y, 0.0, 0.0, 0.0)))
    ensures missing == Failure(MissingIndex(1))
    ensures saved == Success(RecordArgs(here))
  {
    var s := new SynHiTpStage([(x, y)]);
    first := s.MoveToSamplePlan(0);
    missing := s.MoveToSamplePlan(1);
    s.SaveSampleLoc(1, here);
    saved := s.MoveToSamplePlan(1);
  }
}
