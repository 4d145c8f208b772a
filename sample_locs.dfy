/** The sample-location registry both HiTp stage classes keep: a dictionary
    from sample index to a record of five motor positions, iterated in
    insertion order, and the `*`-unpackable argument lists built from it for
    `list_scan` and `mv`. */
module SampleLocs {
  import opened Wrappers

  /** One record: `stage_x`, `stage_y`, `plate_x`, `plate_y`, `theta`. */
  datatype Loc = Loc(stageX: real, stageY: real, plateX: real, plateY: real, theta: real)

  /** The record's keys, in the order every record is written with. */
  const LocKeys: seq<string> := ["stage_x", "stage_y", "plate_x", "plate_y", "theta"]

  const ZeroLoc: Loc := Loc(0.0, 0.0, 0.0, 0.0, 0.0)

  /** `record[key]`. */
  function Field(loc: Loc, key: string): real
    requires key in LocKeys
  {
    if key == "stage_x" then loc.stageX
    else if key == "stage_y" then loc.stageY
    else if key == "plate_x" then loc.plateX
    else if key == "plate_y" then loc.plateY
    else loc.theta
  }

  datatype LocError =
    | MissingIndex(index: int) // KeyError
    | NotIterable              // TypeError: 'int' object is not iterable

  /** A dictionary from sample index to record, with its insertion order. */
  datatype Table = Table(order: seq<int>, locs: map<int, Loc>)

  /** The order lists every key exactly once. */
  ghost predicate WellFormed(t: Table) {
    (forall i, j :: 0 <= i < j < |t.order| ==> t.order[i] != t.order[j])
    && (forall i :: 0 <= i < |t.order| ==> t.order[i] in t.locs)
    && (forall k :: k in t.locs ==> k in t.order)
  }

  const EmptyTable: Table := Table([], map[])

  /** `d[k] = loc`: a new key goes to the end of the order, an existing key
      keeps its place. */
  function Put(t: Table, k: int, loc: Loc): (r: Table)
    requires WellFormed(t)
    ensures WellFormed(r)
  {
    if k in t.locs then Table(t.order, t.locs[k := loc])
    else Table(t.order + [k], t.locs[k := loc])
  }

  /** `d[k]`, or `KeyError`. */
  function Get(t: Table, k: int): (r: Result<Loc, LocError>)
    ensures r.Success? <==> k in t.locs
    ensures r.Failure? ==> r.error == MissingIndex(k)
  {
    if k in t.locs then Success(t.locs[k]) else Failure(MissingIndex(k))
  }

  /** After `d[k] = loc`, `d[k]` is `loc`, every other key reads as before,
      and the order only grows by `k` when `k` is new. */
  lemma PutGet(t: Table, k: int, loc: Loc, j: int)
    requires WellFormed(t)
    ensures Get(Put(t, k, loc), k) == Success(loc)
    ensures j != k ==> Get(Put(t, k, loc), j) == Get(t, j)
    ensures Put(t, k, loc).order == if k in t.locs then t.order else t.order + [k]
  {
  }

  /** `d.values()`: the records in insertion order. */
  function Values(t: Table): (vs: seq<Loc>)
    requires WellFormed(t)
    ensures |vs| == |t.order|
    ensures forall i :: 0 <= i < |vs| ==> vs[i] == t.locs[t.order[i]]
  {
    seq(|t.order|, i requires 0 <= i < |t.order| => t.locs[t.order[i]])
  }

  /** One argument of a `list_scan` / `mv` call. */
  datatype Arg = Motor(name: string) | Value(v: real) | Positions(vs: seq<real>)

  /** `loc_lists[name]`: the field of every record in insertion order, or
      nothing for a component no record has. */
  function Column(t: Table, name: string): (col: seq<real>)
    requires WellFormed(t)
    ensures name in LocKeys ==>
      |col| == |t.order| && forall i :: 0 <= i < |col| ==> col[i] == Field(t.locs[t.order[i]], name)
    ensures name !in LocKeys ==> col == []
  {
    if name in LocKeys then
      seq(|t.order|, i requires 0 <= i < |t.order| => Field(t.locs[t.order[i]], name))
    else []
  }

  /** The all-samples form: each component followed by its column, in
      component order. */
  function PairedLists(t: Table, names: seq<string>): (args: seq<Arg>)
    requires WellFormed(t)
    ensures |args| == 2 * |names|
    ensures forall j :: 0 <= j < |names| ==>
      args[2 * j] == Motor(names[j]) && args[2 * j + 1] == Positions(Column(t, names[j]))
    decreases |names|
  {
    if names == [] then []
    else [Motor(names[0]), Positions(Column(t, names[0]))] + PairedLists(t, names[1..])
  }

  /** One record as `motor, value` pairs in the record's key order. */
  function RecordArgs(loc: Loc): (args: seq<Arg>)
    ensures |args| == 2 * |LocKeys|
    ensures forall j :: 0 <= j < |LocKeys| ==>
      args[2 * j] == Motor(LocKeys[j]) && args[2 * j + 1] == Value(Field(loc, LocKeys[j]))
  {
    [Motor("stage_x"), Value(loc.stageX), Motor("stage_y"), Value(loc.stageY),
     Motor("plate_x"), Value(loc.plateX), Motor("plate_y"), Value(loc.plateY),
     Motor("theta"), Value(loc.theta)]
  }

  /** Reading a record's pairs back gives the record: the pairs lose
      nothing. */
  lemma RecordArgsRoundTrip(a: Loc, b: Loc)
    ensures RecordArgs(a) == RecordArgs(b) <==> a == b
  {
    if RecordArgs(a) == RecordArgs(b) {
      assert RecordArgs(a)[1] == RecordArgs(b)[1] && RecordArgs(a)[3] == RecordArgs(b)[3];
      assert RecordArgs(a)[5] == RecordArgs(b)[5] && RecordArgs(a)[7] == RecordArgs(b)[7];
      assert RecordArgs(a)[9] == RecordArgs(b)[9];
    }
  }

  /** The chosen-indices form: each index's record pairs in turn; the first
      index without a record raises `KeyError`. */
  function IndexArgs(t: Table, indices: seq<int>): (r: Result<seq<Arg>, LocError>)
    ensures r.Success? <==> forall i :: i in indices ==> i in t.locs
    ensures r.Success? ==> |r.value| == 10 * |indices|
    ensures r.Failure? ==>
      exists j :: 0 <= j < |indices| && r.error == MissingIndex(indices[j]) && indices[j] !in t.locs
                  && forall i :: i in indices[..j] ==> i in t.locs
    decreases |indices|
  {
    if indices == [] then Success([])
    else if indices[0] !in t.locs then Failure(MissingIndex(indices[0]))
    else match IndexArgs(t, indices[1..])
      case Failure(e) => Failure(e)
      case Success(rest) => Success(RecordArgs(t.locs[indices[0]]) + rest)
  }

  /** Block `j` of ten arguments is the record of `indices[j]`. */
  lemma {:induction false} IndexArgsBlocks(t: Table, indices: seq<int>, j: nat)
    requires IndexArgs(t, indices).Success? && j < |indices|
    ensures indices[j] in t.locs
    ensures IndexArgs(t, indices).value[10 * j .. 10 * j + 10] == RecordArgs(t.locs[indices[j]])
    decreases |indices|
  {
    var args := IndexArgs(t, indices).value;
    var rest := IndexArgs(t, indices[1..]);
    assert forall i :: i in indices[1..] ==> i in indices;
    assert args == RecordArgs(t.locs[indices[0]]) + rest.value;
    if j > 0 {
      IndexArgsBlocks(t, indices[1..], j - 1);
      assert args[10 * j .. 10 * j + 10] == rest.value[10 * (j - 1) .. 10 * (j - 1) + 10];
    }
  }
}
