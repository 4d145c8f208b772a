/** The size of the `'hitp'` grid: the 15 × 15 lattice at step 9 (4.5 mm
    in half-millimetre units) cut to the disc of radius 63 (31.5 mm) keeps
    149 points. Each row is counted point by point, and the rows are added
    up from the top. The counting lemmas take the bound `b` as a parameter
    pinned to `HitpBound` by two inequalities, which keeps the solver from
    evaluating the whole grid at once. */
module HitpGrid {
  import opened Wrappers
  import opened WaferGrid

  predicate IsHitpBound(b: int) {
    HitpBound <= b <= HitpBound
  }

  /** The row at height 63 keeps 1 of its 15 points. */
  lemma HitpRow63(b: int)
    requires IsHitpBound(b)
    ensures CountSteps(-63, 9, 15, 63, b) == 1
  {
    assert CountSteps(72, 9, 0, 63, b) == 0;
    assert CountSteps(63, 9, 1, 63, b) == 0;
    assert CountSteps(54, 9, 2, 63, b) == 0;
    assert CountSteps(45, 9, 3, 63, b) == 0;
    assert CountSteps(36, 9, 4, 63, b) == 0;
    assert CountSteps(27, 9, 5, 63, b) == 0;
    assert CountSteps(18, 9, 6, 63, b) == 0;
    assert CountSteps(9, 9, 7, 63, b) == 0;
    assert CountSteps(0, 9, 8, 63, b) == 1;
    assert CountSteps(-9, 9, 9, 63, b) == 1;
    assert CountSteps(-18, 9, 10, 63, b) == 1;
    assert CountSteps(-27, 9, 11, 63, b) == 1;
    assert CountSteps(-36, 9, 12, 63, b) == 1;
    assert CountSteps(-45, 9, 13, 63, b) == 1;
    assert CountSteps(-54, 9, 14, 63, b) == 1;
  }

  /** The row at height 54 keeps 7 of its 15 points. */
  lemma HitpRow54(b: int)
    requires IsHitpBound(b)
    ensures CountSteps(-63, 9, 15, 54, b) == 7
  {
    assert CountSteps(72, 9, 0, 54, b) == 0;
    assert CountSteps(63, 9, 1, 54, b) == 0;
    assert CountSteps(54, 9, 2, 54, b) == 0;
    assert CountSteps(45, 9, 3, 54, b) == 0;
    assert CountSteps(36, 9, 4, 54, b) == 0;
    assert CountSteps(27, 9, 5, 54, b) == 1;
    assert CountSteps(18, 9, 6, 54, b) == 2;
    assert CountSteps(9, 9, 7, 54, b) == 3;
    assert CountSteps(0, 9, 8, 54, b) == 4;
    assert CountSteps(-9, 9, 9, 54, b) == 5;
    assert CountSteps(-18, 9, 10, 54, b) == 6;
    assert CountSteps(-27, 9, 11, 54, b) == 7;
    assert CountSteps(-36, 9, 12, 54, b) == 7;
    assert CountSteps(-45, 9, 13, 54, b) == 7;
    assert CountSteps(-54, 9, 14, 54, b) == 7;
  }

  /** The row at height 45 keeps 9 of its 15 points. */
  lemma HitpRow45(b: int)
    requires IsHitpBound(b)
    ensures CountSteps(-63, 9, 15, 45, b) == 9
  {
    assert CountSteps(72, 9, 0, 45, b) == 0;
    assert CountSteps(63, 9, 1, 45, b) == 0;
    assert CountSteps(54, 9, 2, 45, b) == 0;
    assert CountSteps(45, 9, 3, 45, b) == 0;
    assert CountSteps(36, 9, 4, 45, b) == 1;
    assert CountSteps(27, 9, 5, 45, b) == 2;
    assert CountSteps(18, 9, 6, 45, b) == 3;
    assert CountSteps(9, 9, 7, 45, b) == 4;
    assert CountSteps(0, 9, 8, 45, b) == 5;
    assert CountSteps(-9, 9, 9, 45, b) == 6;
    assert CountSteps(-18, 9, 10, 45, b) == 7;
    assert CountSteps(-27, 9, 11, 45, b) == 8;
    assert CountSteps(-36, 9, 12, 45, b) == 9;
    assert CountSteps(-45, 9, 13, 45, b) == 9;
    assert CountSteps(-54, 9, 14, 45, b) == 9;
  }

  /** The row at height 36 keeps 11 of its 15 points. */
  lemma HitpRow36(b: int)
    requires IsHitpBound(b)
    ensures CountSteps(-63, 9, 15, 36, b) == 11
  {
    assert CountSteps(72, 9, 0, 36, b) == 0;
    assert CountSteps(63, 9, 1, 36, b) == 0;
    assert CountSteps(54, 9, 2, 36, b) == 0;
    assert CountSteps(45, 9, 3, 36, b) == 1;
    assert CountSteps(36, 9, 4, 36, b) == 2;
    assert CountSteps(27, 9, 5, 36, b) == 3;
    assert CountSteps(18, 9, 6, 36, b) == 4;
    assert CountSteps(9, 9, 7, 36, b) == 5;
    assert CountSteps(0, 9, 8, 36, b) == 6;
    assert CountSteps(-9, 9, 9, 36, b) == 7;
    assert CountSteps(-18, 9, 10, 36, b) == 8;
    assert CountSteps(-27, 9, 11, 36, b) == 9;
    assert CountSteps(-36, 9, 12, 36, b) == 10;
    assert CountSteps(-45, 9, 13, 36, b) == 11;
    assert CountSteps(-54, 9, 14, 36, b) == 11;
  }

  /** The row at height 27 keeps 13 of its 15 points. */
  lemma HitpRow27(b: int)
    requires IsHitpBound(b)
    ensures CountSteps(-63, 9, 15, 27, b) == 13
  {
    assert CountSteps(72, 9, 0, 27, b) == 0;
    assert CountSteps(63, 9, 1, 27, b) == 0;
    assert CountSteps(54, 9, 2, 27, b) == 1;
    assert CountSteps(45, 9, 3, 27, b) == 2;
    assert CountSteps(36, 9, 4, 27, b) == 3;
    assert CountSteps(27, 9, 5, 27, b) == 4;
    assert CountSteps(18, 9, 6, 27, b) == 5;
    assert CountSteps(9, 9, 7, 27, b) == 6;
    assert CountSteps(0, 9, 8, 27, b) == 7;
    assert CountSteps(-9, 9, 9, 27, b) == 8;
    assert CountSteps(-18, 9, 10, 27, b) == 9;
    assert CountSteps(-27, 9, 11, 27, b) == 10;
    assert CountSteps(-36, 9, 12, 27, b) == 11;
    assert CountSteps(-45, 9, 13, 27, b) == 12;
    assert CountSteps(-54, 9, 14, 27, b) == 13;
  }

  /** The row at height 18 keeps 13 of its 15 points. */
  lemma HitpRow18(b: int)
    requires IsHitpBound(b)
    ensures CountSteps(-63, 9, 15, 18, b) == 13
  {
    assert CountSteps(72, 9, 0, 18, b) == 0;
    assert CountSteps(63, 9, 1, 18, b) == 0;
    assert CountSteps(54, 9, 2, 18, b) == 1;
    assert CountSteps(45, 9, 3, 18, b) == 2;
    assert CountSteps(36, 9, 4, 18, b) == 3;
    assert CountSteps(27, 9, 5, 18, b) == 4;
    assert CountSteps(18, 9, 6, 18, b) == 5;
    assert CountSteps(9, 9, 7, 18, b) == 6;
    assert CountSteps(0, 9, 8, 18, b) == 7;
    assert CountSteps(-9, 9, 9, 18, b) == 8;
    assert CountSteps(-18, 9, 10, 18, b) == 9;
    assert CountSteps(-27, 9, 11, 18, b) == 10;
    assert CountSteps(-36, 9, 12, 18, b) == 11;
    assert CountSteps(-45, 9, 13, 18, b) == 12;
    assert CountSteps(-54, 9, 14, 18, b) == 13;
  }

  /** The row at height 9 keeps 13 of its 15 points. */
  lemma HitpRow9(b: int)
    requires IsHitpBound(b)
    ensures CountSteps(-63, 9, 15, 9, b) == 13
  {
    assert CountSteps(72, 9, 0, 9, b) == 0;
    assert CountSteps(63, 9, 1, 9, b) == 0;
    assert CountSteps(54, 9, 2, 9, b) == 1;
    assert CountSteps(45, 9, 3, 9, b) == 2;
    assert CountSteps(36, 9, 4, 9, b) == 3;
    assert CountSteps(27, 9, 5, 9, b) == 4;
    assert CountSteps(18, 9, 6, 9, b) == 5;
    assert CountSteps(9, 9, 7, 9, b) == 6;
    assert CountSteps(0, 9, 8, 9, b) == 7;
    assert CountSteps(-9, 9, 9, 9, b) == 8;
    assert CountSteps(-18, 9, 10, 9, b) == 9;
    assert CountSteps(-27, 9, 11, 9, b) == 10;
    assert CountSteps(-36, 9, 12, 9, b) == 11;
    assert CountSteps(-45, 9, 13, 9, b) == 12;
    assert CountSteps(-54, 9, 14, 9, b) == 13;
  }

  /** The row at height 0 keeps 15 of its 15 points. */
  lemma HitpRow0(b: int)
    requires IsHitpBound(b)
    ensures CountSteps(-63, 9, 15, 0, b) == 15
  {
    assert CountSteps(72, 9, 0, 0, b) == 0;
    assert CountSteps(63, 9, 1, 0, b) == 1;
    assert CountSteps(54, 9, 2, 0, b) == 2;
    assert CountSteps(45, 9, 3, 0, b) == 3;
    assert CountSteps(36, 9, 4, 0, b) == 4;
    assert CountSteps(27, 9, 5, 0, b) == 5;
    assert CountSteps(18, 9, 6, 0, b) == 6;
    assert CountSteps(9, 9, 7, 0, b) == 7;
    assert CountSteps(0, 9, 8, 0, b) == 8;
    assert CountSteps(-9, 9, 9, 0, b) == 9;
    assert CountSteps(-18, 9, 10, 0, b) == 10;
    assert CountSteps(-27, 9, 11, 0, b) == 11;
    assert CountSteps(-36, 9, 12, 0, b) == 12;
    assert CountSteps(-45, 9, 13, 0, b) == 13;
    assert CountSteps(-54, 9, 14, 0, b) == 14;
  }

  /** The row at height -9 keeps 13 of its 15 points. */
  lemma HitpRowMinus9(b: int)
    requires IsHitpBound(b)
    ensures CountSteps(-63, 9, 15, -9, b) == 13
  {
    assert CountSteps(72, 9, 0, -9, b) == 0;
    assert CountSteps(63, 9, 1, -9, b) == 0;
    assert CountSteps(54, 9, 2, -9, b) == 1;
    assert CountSteps(45, 9, 3, -9, b) == 2;
    assert CountSteps(36, 9, 4, -9, b) == 3;
    assert CountSteps(27, 9, 5, -9, b) == 4;
    assert CountSteps(18, 9, 6, -9, b) == 5;
    assert CountSteps(9, 9, 7, -9, b) == 6;
    assert CountSteps(0, 9, 8, -9, b) == 7;
    assert CountSteps(-9, 9, 9, -9, b) == 8;
    assert CountSteps(-18, 9, 10, -9, b) == 9;
    assert CountSteps(-27, 9, 11, -9, b) == 10;
    assert CountSteps(-36, 9, 12, -9, b) == 11;
    assert CountSteps(-45, 9, 13, -9, b) == 12;
    assert CountSteps(-54, 9, 14, -9, b) == 13;
  }

  /** The row at height -18 keeps 13 of its 15 points. */
  lemma HitpRowMinus18(b: int)
    requires IsHitpBound(b)
    ensures CountSteps(-63, 9, 15, -18, b) == 13
  {
    assert CountSteps(72, 9, 0, -18, b) == 0;
    assert CountSteps(63, 9, 1, -18, b) == 0;
    assert CountSteps(54, 9, 2, -18, b) == 1;
    assert CountSteps(45, 9, 3, -18, b) == 2;
    assert CountSteps(36, 9, 4, -18, b) == 3;
    assert CountSteps(27, 9, 5, -18, b) == 4;
    assert CountSteps(18, 9, 6, -18, b) == 5;
    assert CountSteps(9, 9, 7, -18, b) == 6;
    assert CountSteps(0, 9, 8, -18, b) == 7;
    assert CountSteps(-9, 9, 9, -18, b) == 8;
    assert CountSteps(-18, 9, 10, -18, b) == 9;
    assert CountSteps(-27, 9, 11, -18, b) == 10;
    assert CountSteps(-36, 9, 12, -18, b) == 11;
    assert CountSteps(-45, 9, 13, -18, b) == 12;
    assert CountSteps(-54, 9, 14, -18, b) == 13;
  }

  /** The row at height -27 keeps 13 of its 15 points. */
  lemma HitpRowMinus27(b: int)
    requires IsHitpBound(b)
    ensures CountSteps(-63, 9, 15, -27, b) == 13
  {
    assert CountSteps(72, 9, 0, -27, b) == 0;
    assert CountSteps(63, 9, 1, -27, b) == 0;
    assert CountSteps(54, 9, 2, -27, b) == 1;
    assert CountSteps(45, 9, 3, -27, b) == 2;
    assert CountSteps(36, 9, 4, -27, b) == 3;
    assert CountSteps(27, 9, 5, -27, b) == 4;
    assert CountSteps(18, 9, 6, -27, b) == 5;
    assert CountSteps(9, 9, 7, -27, b) == 6;
    assert CountSteps(0, 9, 8, -27, b) == 7;
    assert CountSteps(-9, 9, 9, -27, b) == 8;
    assert CountSteps(-18, 9, 10, -27, b) == 9;
    assert CountSteps(-27, 9, 11, -27, b) == 10;
    assert CountSteps(-36, 9, 12, -27, b) == 11;
    assert CountSteps(-45, 9, 13, -27, b) == 12;
    assert CountSteps(-54, 9, 14, -27, b) == 13;
  }

  /** The row at height -36 keeps 11 of its 15 points. */
  lemma HitpRowMinus36(b: int)
    requires IsHitpBound(b)
    ensures CountSteps(-63, 9, 15, -36, b) == 11
  {
    assert CountSteps(72, 9, 0, -36, b) == 0;
    assert CountSteps(63, 9, 1, -36, b) == 0;
    assert CountSteps(54, 9, 2, -36, b) == 0;
    assert CountSteps(45, 9, 3, -36, b) == 1;
    assert CountSteps(36, 9, 4, -36, b) == 2;
    assert CountSteps(27, 9, 5, -36, b) == 3;
    assert CountSteps(18, 9, 6, -36, b) == 4;
    assert CountSteps(9, 9, 7, -36, b) == 5;
    assert CountSteps(0, 9, 8, -36, b) == 6;
    assert CountSteps(-9, 9, 9, -36, b) == 7;
    assert CountSteps(-18, 9, 10, -36, b) == 8;
    assert CountSteps(-27, 9, 11, -36, b) == 9;
    assert CountSteps(-36, 9, 12, -36, b) == 10;
    assert CountSteps(-45, 9, 13, -36, b) == 11;
    assert CountSteps(-54, 9, 14, -36, b) == 11;
  }

  /** The row at height -45 keeps 9 of its 15 points. */
  lemma HitpRowMinus45(b: int)
    requires IsHitpBound(b)
    ensures CountSteps(-63, 9, 15, -45, b) == 9
  {
    assert CountSteps(72, 9, 0, -45, b) == 0;
    assert CountSteps(63, 9, 1, -45, b) == 0;
    assert CountSteps(54, 9, 2, -45, b) == 0;
    assert CountSteps(45, 9, 3, -45, b) == 0;
    assert CountSteps(36, 9, 4, -45, b) == 1;
    assert CountSteps(27, 9, 5, -45, b) == 2;
    assert CountSteps(18, 9, 6, -45, b) == 3;
    assert CountSteps(9, 9, 7, -45, b) == 4;
    assert CountSteps(0, 9, 8, -45, b) == 5;
    assert CountSteps(-9, 9, 9, -45, b) == 6;
    assert CountSteps(-18, 9, 10, -45, b) == 7;
    assert CountSteps(-27, 9, 11, -45, b) == 8;
    assert CountSteps(-36, 9, 12, -45, b) == 9;
    assert CountSteps(-45, 9, 13, -45, b) == 9;
    assert CountSteps(-54, 9, 14, -45, b) == 9;
  }

  /** The row at height -54 keeps 7 of its 15 points. */
  lemma HitpRowMinus54(b: int)
    requires IsHitpBound(b)
    ensures CountSteps(-63, 9, 15, -54, b) == 7
  {
    assert CountSteps(72, 9, 0, -54, b) == 0;
    assert CountSteps(63, 9, 1, -54, b) == 0;
    assert CountSteps(54, 9, 2, -54, b) == 0;
    assert CountSteps(45, 9, 3, -54, b) == 0;
    assert CountSteps(36, 9, 4, -54, b) == 0;
    assert CountSteps(27, 9, 5, -54, b) == 1;
    assert CountSteps(18, 9, 6, -54, b) == 2;
    assert CountSteps(9, 9, 7, -54, b) == 3;
    assert CountSteps(0, 9, 8, -54, b) == 4;
    assert CountSteps(-9, 9, 9, -54, b) == 5;
    assert CountSteps(-18, 9, 10, -54, b) == 6;
    assert CountSteps(-27, 9, 11, -54, b) == 7;
    assert CountSteps(-36, 9, 12, -54, b) == 7;
    assert CountSteps(-45, 9, 13, -54, b) == 7;
    assert CountSteps(-54, 9, 14, -54, b) == 7;
  }

  /** The row at height -63 keeps 1 of its 15 points. */
  lemma HitpRowMinus63(b: int)
    requires IsHitpBound(b)
    ensures CountSteps(-63, 9, 15, -63, b) == 1
  {
    assert CountSteps(72, 9, 0, -63, b) == 0;
    assert CountSteps(63, 9, 1, -63, b) == 0;
    assert CountSteps(54, 9, 2, -63, b) == 0;
    assert CountSteps(45, 9, 3, -63, b) == 0;
    assert CountSteps(36, 9, 4, -63, b) == 0;
    assert CountSteps(27, 9, 5, -63, b) == 0;
    assert CountSteps(18, 9, 6, -63, b) == 0;
    assert CountSteps(9, 9, 7, -63, b) == 0;
    assert CountSteps(0, 9, 8, -63, b) == 1;
    assert CountSteps(-9, 9, 9, -63, b) == 1;
    assert CountSteps(-18, 9, 10, -63, b) == 1;
    assert CountSteps(-27, 9, 11, -63, b) == 1;
    assert CountSteps(-36, 9, 12, -63, b) == 1;
    assert CountSteps(-45, 9, 13, -63, b) == 1;
    assert CountSteps(-54, 9, 14, -63, b) == 1;
  }

  /** The top row alone holds 1 point. */
  lemma HitpRowsFrom63(b: int)
    requires IsHitpBound(b)
    ensures CountGrid(63, 9, 1, -63, 15, b) == 1
  {
    HitpRow63(b);
    assert CountGrid(72, 9, 0, -63, 15, b) == 0;
  }

  /** The rows from height 54 up to 63 hold 8 points. */
  lemma HitpRowsFrom54(b: int)
    requires IsHitpBound(b)
    ensures CountGrid(54, 9, 2, -63, 15, b) == 8
  {
    HitpRowsFrom63(b);
    HitpRow54(b);
  }

  /** The rows from height 45 up to 63 hold 17 points. */
  lemma HitpRowsFrom45(b: int)
    requires IsHitpBound(b)
    ensures CountGrid(45, 9, 3, -63, 15, b) == 17
  {
    HitpRowsFrom54(b);
    HitpRow45(b);
  }

  /** The rows from height 36 up to 63 hold 28 points. */
  lemma HitpRowsFrom36(b: int)
    requires IsHitpBound(b)
    ensures CountGrid(36, 9, 4, -63, 15, b) == 28
  {
    HitpRowsFrom45(b);
    HitpRow36(b);
  }

  /** The rows from height 27 up to 63 hold 41 points. */
  lemma HitpRowsFrom27(b: int)
    requires IsHitpBound(b)
    ensures CountGrid(27, 9, 5, -63, 15, b) == 41
  {
    HitpRowsFrom36(b);
    HitpRow27(b);
  }

  /** The rows from height 18 up to 63 hold 54 points. */
  lemma HitpRowsFrom18(b: int)
    requires IsHitpBound(b)
    ensures CountGrid(18, 9, 6, -63, 15, b) == 54
  {
    HitpRowsFrom27(b);
    HitpRow18(b);
  }

  /** The rows from height 9 up to 63 hold 67 points. */
  lemma HitpRowsFrom9(b: int)
    requires IsHitpBound(b)
    ensures CountGrid(9, 9, 7, -63, 15, b) == 67
  {
    HitpRowsFrom18(b);
    HitpRow9(b);
  }

  /** The rows from height 0 up to 63 hold 82 points. */
  lemma HitpRowsFrom0(b: int)
    requires IsHitpBound(b)
    ensures CountGrid(0, 9, 8, -63, 15, b) == 82
  {
    HitpRowsFrom9(b);
    HitpRow0(b);
  }

  /** The rows from height -9 up to 63 hold 95 points. */
  lemma HitpRowsFromMinus9(b: int)
    requires IsHitpBound(b)
    ensures CountGrid(-9, 9, 9, -63, 15, b) == 95
  {
    HitpRowsFrom0(b);
    HitpRowMinus9(b);
  }

  /** The rows from height -18 up to 63 hold 108 points. */
  lemma HitpRowsFromMinus18(b: int)
    requires IsHitpBound(b)
    ensures CountGrid(-18, 9, 10, -63, 15, b) == 108
  {
    HitpRowsFromMinus9(b);
    HitpRowMinus18(b);
  }

  /** The rows from height -27 up to 63 hold 121 points. */
  lemma HitpRowsFromMinus27(b: int)
    requires IsHitpBound(b)
    ensures CountGrid(-27, 9, 11, -63, 15, b) == 121
  {
    HitpRowsFromMinus18(b);
    HitpRowMinus27(b);
  }

  /** The rows from height -36 up to 63 hold 132 points. */
  lemma HitpRowsFromMinus36(b: int)
    requires IsHitpBound(b)
    ensures CountGrid(-36, 9, 12, -63, 15, b) == 132
  {
    HitpRowsFromMinus27(b);
    HitpRowMinus36(b);
  }

  /** The rows from height -45 up to 63 hold 141 points. */
  lemma HitpRowsFromMinus45(b: int)
    requires IsHitpBound(b)
    ensures CountGrid(-45, 9, 13, -63, 15, b) == 141
  {
    HitpRowsFromMinus36(b);
    HitpRowMinus45(b);
  }

  /** The rows from height -54 up to 63 hold 148 points. */
  lemma HitpRowsFromMinus54(b: int)
    requires IsHitpBound(b)
    ensures CountGrid(-54, 9, 14, -63, 15, b) == 148
  {
    HitpRowsFromMinus45(b);
    HitpRowMinus54(b);
  }

  /** The rows from height -63 up to 63 hold 149 points. */
  lemma HitpRowsFromMinus63(b: int)
    requires IsHitpBound(b)
    ensures CountGrid(-63, 9, 15, -63, 15, b) == 149
  {
    HitpRowsFromMinus54(b);
    HitpRowMinus63(b);
  }

  /** The filtered `'hitp'` grid, with its bounds kept symbolic, holds as
      many points as its fifteen rows. */
  lemma HitpGridSize(lo: int, step: int, n: nat, b: int)
    requires -63 <= lo <= -63 && 9 <= step <= 9 && 15 <= n <= 15
    requires IsHitpBound(b)
    ensures |DiscFilter(Mesh(Linspace(lo, step, n), Linspace(lo, step, n)), b)| == 149
  {
    HitpRowsFromMinus63(b);
    CountGridIsFilterSize(lo, step, n, lo, n, b);
  }

  /** `'hitp'` yields 149 locations: the 15 × 15 grid at 4.5 mm spacing
      cut to the 31.5 mm disc. */
  lemma HitpCount()
    ensures GenWaferLocs("hitp", 10) == Success(HitpPoints())
    ensures |HitpPoints()| == 149
  {
    HitpGridSize(-63, 9, 15, HitpBound);
  }
}
