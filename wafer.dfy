/** `gen_wafer_locs`: a square grid of sample locations in meshgrid order
    (rows of constant y, x increasing within a row), optionally cut down to
    a disc. Coordinates are kept in half-millimetre units so that every grid
    value is an integer: the `'circle'` grid of radius r has points at even
    coordinates -2r .. 2r, the `'hitp'` grid steps by 9 (4.5 mm) over
    -63 .. 63 (±31.5 mm). */
module WaferGrid {
  import opened Wrappers

  datatype Point = Point(x: int, y: int)

  /** `np.linspace` with a negative sample count. */
  datatype GridError = NegativeSampleCount

  /** `n` values from `lo` in steps of `step`. */
  function Linspace(lo: int, step: int, n: nat): (vs: seq<int>)
    ensures |vs| == n
    ensures forall k :: 0 <= k < n ==> vs[k] == lo + step * k
    decreases n
  {
    if n == 0 then [] else [lo] + Linspace(lo + step, step, n - 1)
  }

  /** One meshgrid row: every x at height y. */
  function Row(y: int, xs: seq<int>): (ps: seq<Point>)
    ensures |ps| == |xs|
    ensures forall k :: 0 <= k < |xs| ==> ps[k] == Point(xs[k], y)
  {
    seq(|xs|, k requires 0 <= k < |xs| => Point(xs[k], y))
  }

  /** The flattened meshgrid: row after row, y outer, x inner. */
  function Mesh(ys: seq<int>, xs: seq<int>): (ps: seq<Point>)
    ensures |ps| == |ys| * |xs|
    decreases |ys|
  {
    if ys == [] then [] else Row(ys[0], xs) + Mesh(ys[1..], xs)
  }

  predicate InDisc(p: Point, bound: int) {
    p.x * p.x + p.y * p.y <= bound
  }

  /** The points with x² + y² ≤ bound, in their original order. */
  function DiscFilter(ps: seq<Point>, bound: int): (kept: seq<Point>)
    ensures |kept| <= |ps|
    ensures forall i :: 0 <= i < |kept| ==> InDisc(kept[i], bound)
    decreases |ps|
  {
    if ps == [] then []
    else (if InDisc(ps[0], bound) then [ps[0]] else []) + DiscFilter(ps[1..], bound)
  }

  /** The grid of the `'circle'` branch and of any unknown shape. */
  function SquareGrid(radius: nat): seq<Point> {
    var vals := Linspace(-2 * radius, 2, 2 * radius + 1);
    Mesh(vals, vals)
  }

  const HitpVals: seq<int> := Linspace(-63, 9, 15)
  const HitpBound: int := 63 * 63

  /** The points of the `'hitp'` branch. */
  function HitpPoints(): seq<Point> {
    DiscFilter(Mesh(HitpVals, HitpVals), HitpBound)
  }

  /** `gen_wafer_locs(shape, radius)`. The first `linspace` runs for every
      shape and refuses a negative sample count. */
  function GenWaferLocs(shape: string, radius: int): (r: Result<seq<Point>, GridError>)
    ensures r.Failure? <==> 2 * radius + 1 < 0
  {
    if 2 * radius + 1 < 0 then Failure(NegativeSampleCount)
    else if shape == "circle" then Success(DiscFilter(SquareGrid(radius), 4 * radius * radius))
    else if shape == "hitp" then Success(HitpPoints())
    else Success(SquareGrid(radius))
  }

  /** The filter keeps exactly the points of the disc, each once, in order. */
  lemma {:induction false} DiscFilterMembers(ps: seq<Point>, bound: int)
    ensures forall p :: p in DiscFilter(ps, bound) <==> p in ps && InDisc(p, bound)
    ensures |DiscFilter(ps, bound)| <= |ps|
    decreases |ps|
  {
    if ps != [] {
      DiscFilterMembers(ps[1..], bound);
      assert forall p :: p in ps <==> p == ps[0] || p in ps[1..];
    }
  }

  lemma {:induction false} DiscFilterAppend(a: seq<Point>, b: seq<Point>, bound: int)
    ensures DiscFilter(a + b, bound) == DiscFilter(a, bound) + DiscFilter(b, bound)
    decreases |a|
  {
    if a != [] {
      assert (a + b)[0] == a[0] && (a + b)[1..] == a[1..] + b;
      DiscFilterAppend(a[1..], b, bound);
    } else {
      assert a + b == b;
    }
  }

  /** Membership in the meshgrid: y from the row values, x from the column
      values. */
  lemma {:induction false} MeshMembers(ys: seq<int>, xs: seq<int>)
    ensures forall p :: p in Mesh(ys, xs) <==> p.y in ys && p.x in xs
    ensures |Mesh(ys, xs)| == |ys| * |xs|
    decreases |ys|
  {
    if ys != [] {
      var row := Row(ys[0], xs);
      var rest := Mesh(ys[1..], xs);
      MeshMembers(ys[1..], xs);
      RowMembers(ys[0], xs);
      assert forall y :: y in ys <==> y == ys[0] || y in ys[1..];
      assert forall p :: p in row + rest <==> p in row || p in rest;
      assert |row + rest| == |xs| + (|ys| - 1) * |xs|;
    }
  }

  /** Membership in one row: height y, x from the column values. */
  lemma RowMembers(y: int, xs: seq<int>)
    ensures forall p :: p in Row(y, xs) <==> p.y == y && p.x in xs
  {
    forall p: Point | p in Row(y, xs)
      ensures p.y == y && p.x in xs
    {
      var k :| 0 <= k < |xs| && Row(y, xs)[k] == p;
    }
    forall p: Point | p.y == y && p.x in xs
      ensures p in Row(y, xs)
    {
      var k :| 0 <= k < |xs| && xs[k] == p.x;
      assert Row(y, xs)[k] == p;
    }
  }

  /** A strictly increasing sequence. */
  predicate Increasing(vs: seq<int>) {
    forall i, j :: 0 <= i < j < |vs| ==> vs[i] < vs[j]
  }

  /** Points in meshgrid order: by row (y) first, then by x within a row. */
  predicate RowMajor(ps: seq<Point>) {
    forall i, j :: 0 <= i < j < |ps| ==>
      ps[i].y < ps[j].y || (ps[i].y == ps[j].y && ps[i].x < ps[j].x)
  }

  lemma {:induction false} MeshRowMajor(ys: seq<int>, xs: seq<int>)
    requires Increasing(ys) && Increasing(xs)
    ensures RowMajor(Mesh(ys, xs))
    decreases |ys|
  {
    if ys != [] {
      var row := Row(ys[0], xs);
      var rest := Mesh(ys[1..], xs);
      MeshRowMajor(ys[1..], xs);
      MeshMembers(ys[1..], xs);
      forall j | 0 <= j < |rest|
        ensures rest[j].y > ys[0]
      {
        assert rest[j] in rest;
        var k :| 0 <= k < |ys[1..]| && ys[1..][k] == rest[j].y;
        assert ys[k + 1] == rest[j].y;
      }
      var ps := row + rest;
      forall i, j | 0 <= i < j < |ps|
        ensures ps[i].y < ps[j].y || (ps[i].y == ps[j].y && ps[i].x < ps[j].x)
      {
        if j < |row| {
        } else if i < |row| {
          assert ps[j] == rest[j - |row|];
        } else {
          assert ps[i] == rest[i - |row|] && ps[j] == rest[j - |row|];
        }
      }
    }
  }

  /** Filtering keeps the relative order of what it keeps. */
  lemma {:induction false} DiscFilterRowMajor(ps: seq<Point>, bound: int)
    requires RowMajor(ps)
    ensures RowMajor(DiscFilter(ps, bound))
    decreases |ps|
  {
    if ps != [] {
      var tail := DiscFilter(ps[1..], bound);
      DiscFilterRowMajor(ps[1..], bound);
      DiscFilterMembers(ps[1..], bound);
      if InDisc(ps[0], bound) {
        forall j | 0 <= j < |tail|
          ensures ps[0].y < tail[j].y || (ps[0].y == tail[j].y && ps[0].x < tail[j].x)
        {
          assert tail[j] in ps[1..];
          var k :| 0 <= k < |ps[1..]| && ps[1..][k] == tail[j];
          assert ps[k + 1] == tail[j];
        }
        ConsRowMajor(ps[0], tail);
      } else {
        assert DiscFilter(ps, bound) == tail;
      }
    }
  }

  /** A point before every point of a row-major sequence extends it. */
  lemma ConsRowMajor(p: Point, tail: seq<Point>)
    requires RowMajor(tail)
    requires forall j :: 0 <= j < |tail| ==> p.y < tail[j].y || (p.y == tail[j].y && p.x < tail[j].x)
    ensures RowMajor([p] + tail)
  {
    var out := [p] + tail;
    forall i, j | 0 <= i < j < |out|
      ensures out[i].y < out[j].y || (out[i].y == out[j].y && out[i].x < out[j].x)
    {
      assert out[j] == tail[j - 1];
      if i > 0 {
        assert out[i] == tail[i - 1];
      }
    }
  }

  lemma LinspaceIncreasing(lo: int, step: int, n: nat)
    requires step > 0
    ensures Increasing(Linspace(lo, step, n))
  {
    var vs := Linspace(lo, step, n);
    forall i, j | 0 <= i < j < n
      ensures vs[i] < vs[j]
    {
      assert step * j - step * i == step * (j - i) > 0;
    }
  }

  /** `'circle'` keeps exactly the points with even coordinates in
      [-2r, 2r] and x² + y² ≤ (2r)², boundary included, in meshgrid order;
      with the disc the square's corners go. */
  lemma CircleLocs(radius: nat, p: Point)
    ensures GenWaferLocs("circle", radius).Success?
    ensures p in GenWaferLocs("circle", radius).value <==>
      p.x % 2 == 0 && p.y % 2 == 0 && -2 * radius <= p.x <= 2 * radius
      && -2 * radius <= p.y <= 2 * radius && p.x * p.x + p.y * p.y <= 4 * radius * radius
    ensures RowMajor(GenWaferLocs("circle", radius).value)
  {
    var vals := Linspace(-2 * radius, 2, 2 * radius + 1);
    assert GenWaferLocs("circle", radius) == Success(DiscFilter(Mesh(vals, vals), 4 * radius * radius));
    CircleMembers(radius, p);
    CircleOrder(radius);
  }

  lemma CircleMembers(radius: nat, p: Point)
    ensures var vals := Linspace(-2 * radius, 2, 2 * radius + 1);
      p in DiscFilter(Mesh(vals, vals), 4 * radius * radius) <==>
      p.x % 2 == 0 && p.y % 2 == 0 && -2 * radius <= p.x <= 2 * radius
      && -2 * radius <= p.y <= 2 * radius && p.x * p.x + p.y * p.y <= 4 * radius * radius
  {
    var vals := Linspace(-2 * radius, 2, 2 * radius + 1);
    MeshMembers(vals, vals);
    DiscFilterMembers(Mesh(vals, vals), 4 * radius * radius);
    EvenGridValues(radius, p.x);
    EvenGridValues(radius, p.y);
  }

  lemma CircleOrder(radius: nat)
    ensures var vals := Linspace(-2 * radius, 2, 2 * radius + 1);
      RowMajor(DiscFilter(Mesh(vals, vals), 4 * radius * radius))
  {
    var vals := Linspace(-2 * radius, 2, 2 * radius + 1);
    LinspaceIncreasing(-2 * radius, 2, 2 * radius + 1);
    MeshRowMajor(vals, vals);
    DiscFilterRowMajor(Mesh(vals, vals), 4 * radius * radius);
  }

  lemma EvenGridValues(radius: nat, v: int)
    ensures v in Linspace(-2 * radius, 2, 2 * radius + 1) <==>
      v % 2 == 0 && -2 * radius <= v <= 2 * radius
  {
    var vs := Linspace(-2 * radius, 2, 2 * radius + 1);
    if v in vs {
      var k :| 0 <= k < |vs| && vs[k] == v;
      EvenGridValueOf(radius, k);
    }
    if v % 2 == 0 && -2 * radius <= v <= 2 * radius {
      EvenGridValueAt(radius, v);
    }
  }

  /** The value at index `k` is even and in range. */
  lemma EvenGridValueOf(radius: nat, k: int)
    requires 0 <= k < 2 * radius + 1
    ensures var v := Linspace(-2 * radius, 2, 2 * radius + 1)[k];
      v % 2 == 0 && -2 * radius <= v <= 2 * radius
  {
    var v := Linspace(-2 * radius, 2, 2 * radius + 1)[k];
    assert v == 2 * (k - radius);
  }

  /** An even value in range sits at index `v / 2 + radius`. */
  lemma EvenGridValueAt(radius: nat, v: int)
    requires v % 2 == 0 && -2 * radius <= v <= 2 * radius
    ensures 0 <= v / 2 + radius < 2 * radius + 1
    ensures Linspace(-2 * radius, 2, 2 * radius + 1)[v / 2 + radius] == v
  {
    assert v == 2 * (v / 2);
  }

  /** Any other shape returns the whole square grid: (2r+1)² points in
      meshgrid order. */
  lemma OtherShapeLocs(shape: string, radius: nat)
    requires shape != "circle" && shape != "hitp"
    ensures GenWaferLocs(shape, radius) == Success(SquareGrid(radius))
    ensures |SquareGrid(radius)| == (2 * radius + 1) * (2 * radius + 1)
    ensures RowMajor(SquareGrid(radius))
  {
    var vals := Linspace(-2 * radius, 2, 2 * radius + 1);
    MeshMembers(vals, vals);
    LinspaceIncreasing(-2 * radius, 2, 2 * radius + 1);
    MeshRowMajor(vals, vals);
  }

  /** How many of the points `(lo + step·k, y)`, `0 <= k < n`, lie in the
      disc: the size of the filtered row. */
  function CountSteps(lo: int, step: int, n: nat, y: int, bound: int): nat
    decreases n
  {
    if n == 0 then 0
    else (if InDisc(Point(lo, y), bound) then 1 else 0) + CountSteps(lo + step, step, n - 1, y, bound)
  }

  /** How many points of the `ny` rows from `ylo` lie in the disc. */
  function CountGrid(ylo: int, step: int, ny: nat, xlo: int, nx: nat, bound: int): nat
    decreases ny
  {
    if ny == 0 then 0
    else CountSteps(xlo, step, nx, ylo, bound) + CountGrid(ylo + step, step, ny - 1, xlo, nx, bound)
  }

  lemma {:induction false} CountStepsIsFilterSize(lo: int, step: int, n: nat, y: int, bound: int)
    ensures |DiscFilter(Row(y, Linspace(lo, step, n)), bound)| == CountSteps(lo, step, n, y, bound)
    decreases n
  {
    if n > 0 {
      assert Row(y, Linspace(lo, step, n))[1..] == Row(y, Linspace(lo + step, step, n - 1));
      CountStepsIsFilterSize(lo + step, step, n - 1, y, bound);
    }
  }

  lemma {:induction false} CountGridIsFilterSize(ylo: int, step: int, ny: nat, xlo: int, nx: nat,
                                                 bound: int)
    ensures |DiscFilter(Mesh(Linspace(ylo, step, ny), Linspace(xlo, step, nx)), bound)|
            == CountGrid(ylo, step, ny, xlo, nx, bound)
    decreases ny
  {
    if ny > 0 {
      var xs := Linspace(xlo, step, nx);
      var ys := Linspace(ylo, step, ny);
      assert ys[0] == ylo && ys[1..] == Linspace(ylo + step, step, ny - 1);
      DiscFilterAppend(Row(ylo, xs), Mesh(ys[1..], xs), bound);
      CountStepsIsFilterSize(xlo, step, nx, ylo, bound);
      CountGridIsFilterSize(ylo + step, step, ny - 1, xlo, nx, bound);
    }
  }

  /** A row and its mirror image below the x axis hold as many points. */
  lemma {:induction false} CountStepsMirror(lo: int, step: int, n: nat, y: int, bound: int)
    ensures CountSteps(lo, step, n, -y, bound) == CountSteps(lo, step, n, y, bound)
    decreases n
  {
    if n > 0 {
      assert InDisc(Point(lo, -y), bound) == InDisc(Point(lo, y), bound);
      CountStepsMirror(lo + step, step, n - 1, y, bound);
    }
  }
}
