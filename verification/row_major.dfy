/**
 The row-major (C-order) flattening of a dense table: cell (r, g, b) of an
 N x N x N table sits at offset r*N*N + g*N + b of the flat sequence. The
 offset is a bijection from the grid onto [0, N^3), with div/mod decoding as
 its inverse.
 */
module RowMajor {
  import opened Color
  import opened Lut

  /** The row-major offset of a grid index. */
  function Offset(n: int, c: Cell): int {
    c.r * n * n + c.g * n + c.b
  }

  /** Decoding of a flat offset back to a grid index by div/mod. */
  function Decode(n: int, i: int): Cell
    requires n >= 1
  {
    Cell(i / (n * n), (i / n) % n, i % n)
  }

  /** Multiplication by a non-negative factor is monotone. */
  lemma MulMono(a: int, b: int, k: int)
    requires k >= 0
    ensures a <= b ==> a * k <= b * k
  {
    if a <= b {
      assert b * k - a * k == (b - a) * k;
    }
  }

  /** Euclidean division is determined by quotient and remainder. */
  lemma DivModUnique(x: int, d: int, q: int, m: int)
    requires d > 0 && 0 <= m < d && x == q * d + m
    ensures x / d == q && x % d == m
  {
    var q', m' := x / d, x % d;
    assert x == q' * d + m';
    MulMono(q' + 1, q, d);
    MulMono(q + 1, q', d);
    assert (q' + 1) * d == q' * d + d;
    assert (q + 1) * d == q * d + d;
  }

  /** Horner form of the offset: (r*n + g)*n + b, with r*n + g < n*n. */
  lemma OffsetHorner(n: int, c: Cell)
    requires n >= 1 && InGrid(n, c)
    ensures Offset(n, c) == (c.r * n + c.g) * n + c.b
    ensures 0 <= c.r * n + c.g < n * n
    ensures Offset(n, c) == c.r * (n * n) + (c.g * n + c.b)
    ensures 0 <= c.g * n + c.b < n * n
  {
    MulMono(c.r, n - 1, n);
    MulMono(c.g, n - 1, n);
    MulMono(0, c.r, n);
    MulMono(0, c.g, n);
    assert (c.r * n + c.g) * n == c.r * n * n + c.g * n;
  }

  /** Every in-grid offset lies in [0, n^3). */
  lemma OffsetInRange(n: int, c: Cell)
    requires n >= 1 && InGrid(n, c)
    ensures 0 <= Offset(n, c) < n * n * n
  {
    OffsetHorner(n, c);
    var q := c.r * n + c.g;
    MulMono(q, n * n - 1, n);
    MulMono(0, q, n);
    assert (n * n - 1) * n == n * n * n - n;
  }

  /** Decoding an in-grid offset recovers the grid index. */
  lemma DecodeOffset(n: int, c: Cell)
    requires n >= 1 && InGrid(n, c)
    ensures Decode(n, Offset(n, c)) == c
  {
    var i := Offset(n, c);
    OffsetHorner(n, c);
    DivModUnique(i, n * n, c.r, c.g * n + c.b);
    DivModUnique(i, n, c.r * n + c.g, c.b);
    DivModUnique(c.r * n + c.g, n, c.r, c.g);
  }

  /** Every offset in [0, n^3) is the offset of exactly the grid index it
      decodes to. */
  lemma EncodeDecode(n: int, i: int)
    requires n >= 1 && 0 <= i < n * n * n
    ensures InGrid(n, Decode(n, i))
    ensures Offset(n, Decode(n, i)) == i
  {
    var q1, b := i / n, i % n;
    var r, g := q1 / n, q1 % n;
    assert i == q1 * n + b;
    assert q1 == r * n + g;
    MulMono(n * n, q1, n);
    MulMono(q1, -1, n);
    assert 0 <= q1 < n * n;
    MulMono(n, r, n);
    MulMono(r, -1, n);
    assert 0 <= r < n;
    OffsetHorner(n, Cell(r, g, b));
    DivModUnique(i, n * n, r, g * n + b);
  }

  /** Distinct grid indices have distinct offsets. */
  lemma OffsetInjective(n: int, c: Cell, d: Cell)
    requires n >= 1 && InGrid(n, c) && InGrid(n, d)
    ensures Offset(n, c) == Offset(n, d) ==> c == d
  {
    DecodeOffset(n, c);
    DecodeOffset(n, d);
  }

  /** The far corner (n-1, n-1, n-1) has the last offset, n^3 - 1. */
  lemma LastOffset(n: int)
    requires n >= 1
    ensures Offset(n, Cell(n - 1, n - 1, n - 1)) == n * n * n - 1
  {
    OffsetHorner(n, Cell(n - 1, n - 1, n - 1));
    assert (n - 1) * n + (n - 1) == n * n - 1;
    assert (n * n - 1) * n == n * n * n - n;
  }

  /** Reflecting a cell through the centre of the grid reflects its offset
      within [0, n^3). */
  lemma MirrorOffset(n: int, c: Cell)
    ensures Offset(n, Cell(n - 1 - c.r, n - 1 - c.g, n - 1 - c.b))
      == n * n * n - 1 - Offset(n, c)
  {
    assert (n - 1 - c.r) * n * n == n * n * n - n * n - c.r * n * n;
    assert (n - 1 - c.g) * n == n * n - n - c.g * n;
  }

  /** Concatenation of a sequence of sequences. */
  function Concat<T>(ss: seq<seq<T>>): seq<T> {
    if |ss| == 0 then [] else ss[0] + Concat(ss[1..])
  }

  /** Concatenating k rows of length m gives k*m items. */
  lemma {:induction false} ConcatLength<T>(ss: seq<seq<T>>, m: int)
    requires forall i :: 0 <= i < |ss| ==> |ss[i]| == m
    ensures |Concat(ss)| == |ss| * m
  {
    if |ss| > 0 {
      ConcatLength(ss[1..], m);
      assert |ss| * m == m + (|ss| - 1) * m;
    }
  }

  /** In a concatenation of rows of length m, item j of row i sits at
      position i*m + j. */
  lemma {:induction false} ConcatAt<T>(ss: seq<seq<T>>, m: int, i: int, j: int)
    requires forall k :: 0 <= k < |ss| ==> |ss[k]| == m
    requires 0 <= i < |ss| && 0 <= j < m
    ensures |Concat(ss)| == |ss| * m
    ensures 0 <= i * m + j < |Concat(ss)|
    ensures Concat(ss)[i * m + j] == ss[i][j]
  {
    ConcatLength(ss, m);
    MulMono(i, |ss| - 1, m);
    MulMono(0, i, m);
    assert (|ss| - 1) * m == |ss| * m - m;
    if i > 0 {
      ConcatAt(ss[1..], m, i - 1, j);
      assert i * m + j == m + ((i - 1) * m + j);
    }
  }

  /** The row-major flattening (numpy's `reshape(-1, 3)`): planes, then rows,
      then entries, concatenated in order. */
  function Flatten(t: Table): seq<Rgb> {
    Concat(Planes(t))
  }

  /** Each plane t[r] flattened on its own. */
  function Planes(t: Table): (ps: seq<seq<Rgb>>)
    ensures |ps| == |t|
  {
    seq(|t|, r requires 0 <= r < |t| => Concat(t[r]))
  }

  /** Every plane of an n-cube flattens to n*n entries. */
  lemma PlanesUniform(t: Table, n: int)
    requires IsCube(t, n)
    ensures forall r :: 0 <= r < n ==> |Planes(t)[r]| == n * n
  {
    forall r | 0 <= r < n
      ensures |Planes(t)[r]| == n * n
    {
      ConcatLength(t[r], n);
    }
  }

  /** The flat table of an n-cube has n^3 entries. */
  lemma FlattenLength(t: Table, n: int)
    requires IsCube(t, n)
    ensures |Flatten(t)| == n * n * n
  {
    PlanesUniform(t, n);
    ConcatLength(Planes(t), n * n);
    assert n * (n * n) == n * n * n;
  }

  /** Entry (r, g, b) of an n-cube sits at its offset in the flat table. */
  lemma FlattenAt(t: Table, n: int, c: Cell)
    requires n >= 1 && IsCube(t, n) && InGrid(n, c)
    ensures 0 <= Offset(n, c) < |Flatten(t)|
    ensures Flatten(t)[Offset(n, c)] == At(t, c)
  {
    PlanesUniform(t, n);
    OffsetHorner(n, c);
    ConcatAt(t[c.r], n, c.g, c.b);
    ConcatAt(Planes(t), n * n, c.r, c.g * n + c.b);
  }

  /** The flat table has n^3 entries and holds table[r][g][b] at offset
      r*n*n + g*n + b. */
  lemma FlattenIsRowMajor(t: Table, n: int)
    requires n >= 1 && IsCube(t, n)
    ensures |Flatten(t)| == n * n * n
    ensures forall c :: InGrid(n, c) ==>
      0 <= Offset(n, c) < |Flatten(t)| && Flatten(t)[Offset(n, c)] == At(t, c)
  {
    FlattenLength(t, n);
    forall c | InGrid(n, c)
      ensures 0 <= Offset(n, c) < |Flatten(t)| && Flatten(t)[Offset(n, c)] == At(t, c)
    {
      FlattenAt(t, n, c);
    }
  }
}
