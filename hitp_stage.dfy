/** The HiTp stage: its registry of sample locations, filled from the
    `'hitp'` wafer grid, and the argument lists `sample_loc_list` builds for
    scans and moves. Motor positions are read by the caller and passed in. */
module HiTp {
  import opened Wrappers
  import opened WaferGrid
  import opened SampleLocs
  import opened HitpGrid

  /** The stage's components in declaration order. */
  const ComponentNames: seq<string> :=
    ["stage_x", "stage_y", "stage_z", "plate_x", "plate_y", "theta", "lrf"]

  /** The record the constructor stores for a grid point (half-millimetre
      units converted back to millimetres); plate and theta start at 0. */
  function GridLoc(p: Point): Loc {
    Loc(p.x as real / 2.0, p.y as real / 2.0, 0.0, 0.0, 0.0)
  }

  /** The `index` argument of `sample_loc_list`, by Python type. A `bool`
      is an `int`; `OtherIndex` is any other value, with its truth value. */
  datatype IndexArg =
    | NoIndex
    | IntIndex(i: int)
    | ListIndex(indices: seq<int>)
    | TextIndex(s: string)
    | OtherIndex(truthy: bool)

  /** `not index`. */
  predicate Falsy(index: IndexArg) {
    match index
    case NoIndex => true
    case IntIndex(i) => i == 0
    case ListIndex(indices) => indices == []
    case TextIndex(s) => s == ""
    case OtherIndex(truthy) => !truthy
  }

  /** `sample_loc_list(index)` as written: every sample for a falsy index,
      the centre for `'center'`, the chosen samples for a list; a non-zero
      `int` reaches `list(index)`, which raises `TypeError`; any other value
      falls through and returns `None`. */
  function SampleLocListAsWritten(t: Table, center: Loc, index: IndexArg)
    : (r: Result<Option<seq<Arg>>, LocError>)
    requires WellFormed(t)
    ensures Falsy(index) ==> r == Success(Some(PairedLists(t, ComponentNames)))
    ensures index == TextIndex("center") ==> r == Success(Some(RecordArgs(center)))
    ensures index.IntIndex? && index.i != 0 ==> r == Failure(NotIterable)
    ensures index.ListIndex? && index.indices != [] ==>
      r.Success? == IndexArgs(t, index.indices).Success?
      && (r.Success? ==> r.value == Some(IndexArgs(t, index.indices).value))
      && (r.Failure? ==> r.error == IndexArgs(t, index.indices).error)
    ensures (index.TextIndex? && index.s != "" && index.s != "center") || (index.OtherIndex? && index.truthy)
      ==> r == Success(None)
  {
    if Falsy(index) then Success(Some(PairedLists(t, ComponentNames)))
    else if index == TextIndex("center") then Success(Some(RecordArgs(center)))
    else match index
      case IntIndex(_) => Failure(NotIterable)
      case ListIndex(indices) =>
        (match IndexArgs(t, indices)
         case Failure(e) => Failure(e)
         case Success(args) => Success(Some(args)))
      case _ => Success(None)
  }

  /** `sample_loc_list(index)` with an `int` index treated as the one-element
      list of that index, as the code's own comment and its callers expect. */
  function SampleLocList(t: Table, center: Loc, index: IndexArg)
    : (r: Result<Option<seq<Arg>>, LocError>)
    requires WellFormed(t)
    ensures index.IntIndex? && index.i == 0 ==> r == Success(Some(PairedLists(t, ComponentNames)))
    ensures index.IntIndex? && index.i != 0 ==>
      if index.i in t.locs then r == Success(Some(RecordArgs(t.locs[index.i])))
      else r == Failure(MissingIndex(index.i))
    ensures !index.IntIndex? ==> r == SampleLocListAsWritten(t, center, index)
  {
    match index
    case IntIndex(i) =>
      if i == 0 then Success(Some(PairedLists(t, ComponentNames)))
      else if i in t.locs then Success(Some(RecordArgs(t.locs[i])))
      else Failure(MissingIndex(i))
    case _ => SampleLocListAsWritten(t, center, index)
  }

  /** As written, every non-zero `int` index raises, even one that names a
      stored sample, where the intended reading moves to that sample. */
  lemma IntIndexRaises(t: Table, center: Loc, i: int)
    requires WellFormed(t) && i != 0 && i in t.locs
    ensures SampleLocListAsWritten(t, center, IntIndex(i)) == Failure(NotIterable)
    ensures SampleLocList(t, center, IntIndex(i)) == Success(Some(RecordArgs(t.locs[i])))
    ensures SampleLocList(t, center, IntIndex(i)) == SampleLocList(t, center, ListIndex([i]))
  {
    assert [i][1..] == [];
    assert IndexArgs(t, [i]) == Success(RecordArgs(t.locs[i]) + []);
    assert RecordArgs(t.locs[i]) + [] == RecordArgs(t.locs[i]);
  }

  /** `stage_z` and `lrf` are not record keys, so their columns are empty. */
  lemma UnrecordedColumns(t: Table)
    requires WellFormed(t)
    ensures Column(t, "stage_z") == [] && Column(t, "lrf") == []
  {
    assert "stage_z" != LocKeys[0] && "stage_z" != LocKeys[1] && "stage_z" != LocKeys[2];
    assert "stage_z" != LocKeys[3] && "stage_z" != LocKeys[4];
    assert "lrf" != LocKeys[0] && "lrf" != LocKeys[1] && "lrf" != LocKeys[2];
    assert "lrf" != LocKeys[3] && "lrf" != LocKeys[4];
  }

  /** The `theta` column holds every record's theta in insertion order. */
  lemma ThetaColumn(t: Table)
    requires WellFormed(t)
    ensures |Column(t, "theta")| == |t.order|
    ensures forall i :: 0 <= i < |t.order| ==> Column(t, "theta")[i] == t.locs[t.order[i]].theta
  {
    assert "theta" == LocKeys[4];
    assert "theta" != "stage_x" && "theta" != "stage_y" && "theta" != "plate_x" && "theta" != "plate_y";
  }

  /** Without an index, the form is the paired lists of all components. */
  lemma NoIndexPairs(t: Table, center: Loc)
    requires WellFormed(t)
    ensures SampleLocList(t, center, NoIndex) == Success(Some(PairedLists(t, ComponentNames)))
  {
    assert Falsy(NoIndex);
  }

  /** The all-samples form lists the seven components in order; the five
      record keys carry a column per stored sample, in insertion order, and
      `stage_z` and `lrf`, which no record has, carry empty lists. */
  lemma AllSamplesForm(t: Table, center: Loc)
    requires WellFormed(t)
    ensures var r := SampleLocList(t, center, NoIndex);
      r.Success? && r.value.Some? && |r.value.value| == 14
      && r.value.value[4] == Motor("stage_z") && r.value.value[5] == Positions([])
      && r.value.value[12] == Motor("lrf") && r.value.value[13] == Positions([])
      && r.value.value[10] == Motor("theta") && |r.value.value[11].vs| == |t.order|
      && forall i :: 0 <= i < |t.order| ==> r.value.value[11].vs[i] == t.locs[t.order[i]].theta
  {
    NoIndexPairs(t, center);
    ComponentPairs(t);
    UnrecordedColumns(t);
    ThetaColumn(t);
  }

  /** The paired lists of the seven components: `stage_z` at 4 and 5, `theta`
      at 10 and 11, `lrf` at 12 and 13. */
  lemma ComponentPairs(t: Table)
    requires WellFormed(t)
    ensures var args := PairedLists(t, ComponentNames);
      |args| == 14
      && args[4] == Motor("stage_z") && args[5] == Positions(Column(t, "stage_z"))
      && args[10] == Motor("theta") && args[11] == Positions(Column(t, "theta"))
      && args[12] == Motor("lrf") && args[13] == Positions(Column(t, "lrf"))
  {
    ComponentPair(t, 2, "stage_z");
    ComponentPair(t, 5, "theta");
    ComponentPair(t, 6, "lrf");
  }

  /** Component `j` and its column sit at `2j` and `2j + 1`. */
  lemma ComponentPair(t: Table, j: nat, name: string)
    requires WellFormed(t) && j < |ComponentNames| && ComponentNames[j] == name
    ensures PairedLists(t, ComponentNames)[2 * j] == Motor(name)
    ensures PairedLists(t, ComponentNames)[2 * j + 1] == Positions(Column(t, name))
  {
  }

  /** The first of `from .. n-1` that is not a key, if any. */
  function FirstMissing(locs: map<int, Loc>, from: int, n: int): (r: Option<int>)
    ensures r.Some? ==>
      from <= r.value < n && r.value !in locs && forall k :: from <= k < r.value ==> k in locs
    ensures r.None? ==> forall k :: from <= k < n ==> k in locs
    decreases n - from
  {
    if from >= n then None
    else if from !in locs then Some(from)
    else FirstMissing(locs, from + 1, n)
  }

  /** The first missing key is the one missing key below which all are
      present. */
  lemma FirstMissingAt(locs: map<int, Loc>, from: int, n: int, m: int)
    requires from <= m < n && m !in locs
    requires forall k :: from <= k < m ==> k in locs
    ensures FirstMissing(locs, from, n) == Some(m)
  {
  }

  /** A record after `set_all_vert_theta`: new theta and plate positions,
      stage positions kept. */
  function WithVertTheta(loc: Loc, theta: real, plateX: real, plateY: real): Loc {
    loc.(theta := theta, plateX := plateX, plateY := plateY)
  }

  /** The registry filled from grid points: key i holds point i. */
  ghost predicate IsGridTable(t: Table, points: seq<Point>) {
    WellFormed(t) && |t.order| == |points|
    && (forall i :: 0 <= i < |points| ==> t.order[i] == i && i in t.locs && t.locs[i] == GridLoc(points[i]))
    && (forall k :: k in t.locs ==> 0 <= k < |points|)
  }

  /** The constructor's loop: point i is stored under key i. */
  method RegisterPoints(points: seq<Point>) returns (table: Table)
    ensures IsGridTable(table, points)
  {
    table := EmptyTable;
    var i := 0;
    while i < |points|
      invariant 0 <= i <= |points|
      invariant IsGridTable(table, points[..i])
    {
      table := Put(table, i, GridLoc(points[i]));
      i := i + 1;
    }
    assert points[..i] == points;
  }

  class HiTpStage {
    var sampleLocs: Table
    const center: Loc

    ghost predicate Valid()
      reads this
    {
      WellFormed(sampleLocs)
    }

    /** The registry keys 0 .. n-1 hold the `'hitp'` grid points in order,
        each at plate and theta 0; the centre is all zeros. */
    constructor()
      ensures Valid()
      ensures center == ZeroLoc
      ensures IsGridTable(sampleLocs, HitpPoints())
    {
      center := ZeroLoc;
      var locs := GenWaferLocs("hitp", 10);
      var table := RegisterPoints(locs.value);
      sampleLocs := table;
    }

    /** `sample(index)`: the stored record, or `KeyError`. */
    function Sample(index: int): (r: Result<Loc, LocError>)
      reads this
      ensures r == Get(sampleLocs, index)
    {
      Get(sampleLocs, index)
    }

    /** `save_sample_loc(index)`: the five current positions go under
        `index`; no other key changes. */
    method SaveSampleLoc(index: int, current: Loc)
      requires Valid()
      modifies this
      ensures Valid()
      ensures sampleLocs == Put(old(sampleLocs), index, current)
      ensures Sample(index) == Success(current)
      ensures forall k :: k != index ==> Sample(k) == old(Sample(k))
    {
      PutGet(sampleLocs, index, current, index);
      sampleLocs := Put(sampleLocs, index, current);
    }

    /** `set_all_vert_theta`: keys 0 .. len-1 in turn get the current theta
        and plate positions; the first missing key raises `KeyError`, after
        the keys before it were updated. */
    method SetAllVertTheta(theta: real, plateX: real, plateY: real) returns (r: Result<(), LocError>)
      requires Valid()
      modifies this
      ensures Valid()
      ensures sampleLocs.order == old(sampleLocs.order)
      ensures sampleLocs.locs.Keys == old(sampleLocs.locs.Keys)
      ensures var missing := FirstMissing(old(sampleLocs.locs), 0, |old(sampleLocs.order)|);
        var upTo := if missing.Some? then missing.value else |old(sampleLocs.order)|;
        (r == if missing.Some? then Failure(MissingIndex(missing.value)) else Success(()))
        && forall k :: k in sampleLocs.locs ==>
          sampleLocs.locs[k] == if 0 <= k < upTo then WithVertTheta(old(sampleLocs.locs[k]), theta, plateX, plateY)
                                else old(sampleLocs.locs[k])
    {
      var n := |sampleLocs.order|;
      var i := 0;
      while i < n
        invariant 0 <= i <= n
        invariant WellFormed(sampleLocs)
        invariant sampleLocs.order == old(sampleLocs.order)
        invariant sampleLocs.locs.Keys == old(sampleLocs.locs.Keys)
        invariant FirstMissing(old(sampleLocs.locs), 0, n) == FirstMissing(old(sampleLocs.locs), i, n)
        invariant forall k :: k in sampleLocs.locs ==>
          sampleLocs.locs[k] == if 0 <= k < i then WithVertTheta(old(sampleLocs.locs[k]), theta, plateX, plateY)
                                else old(sampleLocs.locs[k])
      {
        if i !in sampleLocs.locs {
          return Failure(MissingIndex(i));
        }
        var loc := sampleLocs.locs[i];
        sampleLocs := Put(sampleLocs, i, WithVertTheta(loc, theta, plateX, plateY));
        i := i + 1;
      }
      return Success(());
    }

    /** `sample_loc_list(index)` on the stage's registry and centre, with
        the `int` case as intended: a non-zero `int` gives that sample's
        pairs where the code as written raises `TypeError`. */
    function SampleLocListNow(index: IndexArg): (r: Result<Option<seq<Arg>>, LocError>)
      requires Valid()
      reads this
      ensures r == SampleLocList(sampleLocs, center, index)
      ensures index == TextIndex("center") ==> r == Success(Some(RecordArgs(center)))
      ensures index.IntIndex? && index.i != 0 && index.i in sampleLocs.locs ==>
        r == Success(Some(RecordArgs(sampleLocs.locs[index.i])))
        && SampleLocListAsWritten(sampleLocs, center, index) == Failure(NotIterable)
    {
      SampleLocList(sampleLocs, center, index)
    }
  }

  /** On a fresh stage, `set_all_vert_theta` succeeds and updates all 149
      samples. */
  method VertThetaFreshStage(theta: real, plateX: real, plateY: real)
    returns (r: Result<(), LocError>, count: nat, first: Result<Loc, LocError>)
    ensures r == Success(()) && count == 149
    ensures |HitpPoints()| == 149 && first == Success(WithVertTheta(GridLoc(HitpPoints()[0]), theta, plateX, plateY))
  {
    var s := new HiTpStage();
    HitpCount();
    GridHasNoGap(s.sampleLocs, HitpPoints());
    ghost var grid := s.sampleLocs.locs;
    r := s.SetAllVertTheta(theta, plateX, plateY);
    assert s.sampleLocs.locs[0] == WithVertTheta(grid[0], theta, plateX, plateY);
    count := |s.sampleLocs.order|;
    first := s.Sample(0);
  }

  /** On a fresh stage, `sample_loc_list('center')` gives the five zero
      positions; `sample_loc_list(3)` raises `TypeError` as written, and
      with the `int` case corrected gives the pairs of sample 3. */
  method FreshStageLists() returns (centerArgs: Result<Option<seq<Arg>>, LocError>,
                                     thirdAsWritten: Result<Option<seq<Arg>>, LocError>,
                                     third: Result<Option<seq<Arg>>, LocError>)
    ensures centerArgs == Success(Some(RecordArgs(ZeroLoc)))
    ensures thirdAsWritten == Failure(NotIterable)
    ensures |HitpPoints()| == 149 && third == Success(Some(RecordArgs(GridLoc(HitpPoints()[3]))))
  {
    var s := new HiTpStage();
    HitpCount();
    centerArgs := s.SampleLocListNow(TextIndex("center"));
    thirdAsWritten := SampleLocListAsWritten(s.sampleLocs, s.center, IntIndex(3));
    third := s.SampleLocListNow(IntIndex(3));
  }

  /** A grid registry holds every key below its length, so
      `set_all_vert_theta` finds no missing key. */
  lemma GridHasNoGap(t: Table, points: seq<Point>)
    requires IsGridTable(t, points)
    ensures FirstMissing(t.locs, 0, |t.order|) == None
  {
  }

  /** A sample saved under a key past the end of a grid registry makes
      `len` one more than the grid, and the first key `set_all_vert_theta`
      then misses is the grid's size. */
  lemma StrayKeyStopsVertTheta(t: Table, points: seq<Point>, key: int, stray: Loc)
    requires IsGridTable(t, points) && key > |points|
    ensures |Put(t, key, stray).order| == |points| + 1
    ensures FirstMissing(Put(t, key, stray).locs, 0, |points| + 1) == Some(|points|)
  {
    FirstMissingAt(Put(t, key, stray).locs, 0, |points| + 1, |points|);
  }

  /** A sample saved under a key past the grid makes `len` exceed the last
      consecutive key, so `set_all_vert_theta` updates keys 0 .. 148, then
      raises `KeyError` for 149 and leaves the extra sample as it was. */
  method VertThetaWithStrayKey(stray: Loc, theta: real, plateX: real, plateY: real)
    returns (r: Result<(), LocError>, last: Result<Loc, LocError>, extra: Result<Loc, LocError>)
    ensures r == Failure(MissingIndex(149))
    ensures |HitpPoints()| == 149 && last == Success(WithVertTheta(GridLoc(HitpPoints()[148]), theta, plateX, plateY))
    ensures extra == Success(stray)
  {
    var s := new HiTpStage();
    HitpCount();
    ghost var grid := s.sampleLocs;
    StrayKeyStopsVertTheta(grid, HitpPoints(), 200, stray);
    s.SaveSampleLoc(200, stray);
    ghost var saved := s.sampleLocs.locs;
    r := s.SetAllVertTheta(theta, plateX, plateY);
    assert s.sampleLocs.locs[148] == WithVertTheta(saved[148], theta, plateX, plateY);
    assert s.sampleLocs.locs[200] == saved[200];
    last := s.Sample(148);
    extra := s.Sample(200);
  }
}
