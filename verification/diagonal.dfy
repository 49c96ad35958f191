/**
 The "spatially local" flattening: levels 0 .. 2N-1 are visited in turn, and
 within a level r and then g ascend; the cell (r, g, level - r - g) is emitted
 only when its blue coordinate lies in [0, N). The traversal is by coordinate
 sum, not a Z-order curve, and it stops at level 2N-1, so for N >= 3 the
 cells whose coordinates sum to more than 2N-1 are never emitted.
 */
module Diagonal {
  import opened Color
  import opened Lut
  import opened RowMajor
  import opened Counting

  /** The traversal's order: by level r+g+b, then by r, then by g. */
  predicate Before(x: Cell, y: Cell) {
    || Sum(x) < Sum(y)
    || (Sum(x) == Sum(y) && x.r < y.r)
    || (Sum(x) == Sum(y) && x.r == y.r && x.g < y.g)
  }

  /** True iff the cells of `s` strictly ascend in traversal order. */
  predicate Ordered(s: seq<Cell>) {
    forall i, j :: 0 <= i < j < |s| ==> Before(s[i], s[j])
  }

  /** Two ordered runs, the first entirely before the second, concatenate
      to an ordered run. */
  lemma ConcatOrdered(a: seq<Cell>, b: seq<Cell>)
    requires Ordered(a) && Ordered(b)
    requires forall x, y :: x in a && y in b ==> Before(x, y)
    ensures Ordered(a + b)
  {
    var s := a + b;
    forall i, j | 0 <= i < j < |s|
      ensures Before(s[i], s[j])
    {
      if j < |a| {
        assert s[i] == a[i] && s[j] == a[j];
      } else if i >= |a| {
        assert s[i] == b[i - |a|] && s[j] == b[j - |a|];
      } else {
        assert s[i] == a[i] && s[j] == b[j - |a|];
      }
    }
  }

  /** True iff `s` holds exactly the grid cells at levels 0 .. top-1. */
  ghost predicate HoldsLevels(s: seq<Cell>, n: int, top: int) {
    forall c {:trigger c in s} :: c in s <==> InGrid(n, c) && Sum(c) < top
  }

  /** The innermost loop: for g' from g up to n-1, the cell
      (r, g', level - r - g') when its blue coordinate is in range. */
  function RowRun(n: int, level: int, r: int, g: int): seq<Cell>
    decreases n - g
  {
    if g >= n then []
    else
      var b := level - r - g;
      if 0 <= b < n then [Cell(r, g, b)] + RowRun(n, level, r, g + 1)
      else RowRun(n, level, r, g + 1)
  }

  /** The middle loop: one level, for r' from r up to n-1. */
  function LevelRun(n: int, level: int, r: int): seq<Cell>
    decreases n - r
  {
    if r >= n then [] else RowRun(n, level, r, 0) + LevelRun(n, level, r + 1)
  }

  /** The outer loop: levels from `level` up to top-1. */
  function LevelsFrom(n: int, level: int, top: int): seq<Cell>
    decreases top - level
  {
    if level >= top then [] else LevelRun(n, level, 0) + LevelsFrom(n, level + 1, top)
  }

  /** The complete traversal for a table of resolution n. */
  function DiagonalOrder(n: int): seq<Cell> {
    LevelsFrom(n, 0, 2 * n)
  }

  /** A row run holds the cells of its level with the given r and g' >= g
      whose blue coordinate is in range. */
  lemma {:induction false} RowRunMembers(n: int, level: int, r: int, g: int)
    decreases n - g
    ensures forall c :: c in RowRun(n, level, r, g) <==>
      c.r == r && g <= c.g < n && 0 <= c.b < n && Sum(c) == level
  {
    if g < n {
      RowRunMembers(n, level, r, g + 1);
    }
  }

  /** A level run holds the in-grid cells of its level with r' >= r. */
  lemma {:induction false} LevelRunMembers(n: int, level: int, r: int)
    decreases n - r
    ensures forall c :: c in LevelRun(n, level, r) <==>
      r <= c.r < n && 0 <= c.g < n && 0 <= c.b < n && Sum(c) == level
  {
    if r < n {
      RowRunMembers(n, level, r, 0);
      LevelRunMembers(n, level, r + 1);
    }
  }

  /** The levels from `level` on hold the in-grid cells of those levels. */
  lemma {:induction false} LevelsFromMembers(n: int, level: int, top: int)
    decreases top - level
    ensures forall c :: c in LevelsFrom(n, level, top) <==> InGrid(n, c) && level <= Sum(c) < top
  {
    if level < top {
      LevelRunMembers(n, level, 0);
      LevelsFromMembers(n, level + 1, top);
    }
  }

  /** The traversal holds exactly the grid cells whose coordinates sum to at
      most 2n-1. */
  lemma DiagonalMembers(n: int)
    ensures HoldsLevels(DiagonalOrder(n), n, 2 * n)
  {
    LevelsFromMembers(n, 0, 2 * n);
  }

  /** Within one row of a level, g ascends. */
  lemma {:induction false} RowRunOrdered(n: int, level: int, r: int, g: int)
    decreases n - g
    ensures Ordered(RowRun(n, level, r, g))
  {
    if g < n {
      var b := level - r - g;
      RowRunOrdered(n, level, r, g + 1);
      RowRunMembers(n, level, r, g + 1);
      if 0 <= b < n {
        ConcatOrdered([Cell(r, g, b)], RowRun(n, level, r, g + 1));
      }
    }
  }

  /** Within one level, r ascends, and g within each r. */
  lemma {:induction false} LevelRunOrdered(n: int, level: int, r: int)
    decreases n - r
    ensures Ordered(LevelRun(n, level, r))
  {
    if r < n {
      RowRunOrdered(n, level, r, 0);
      LevelRunOrdered(n, level, r + 1);
      RowRunMembers(n, level, r, 0);
      LevelRunMembers(n, level, r + 1);
      ConcatOrdered(RowRun(n, level, r, 0), LevelRun(n, level, r + 1));
    }
  }

  /** Levels ascend, and within each level the cells follow in r, g order. */
  lemma {:induction false} LevelsFromOrdered(n: int, level: int, top: int)
    decreases top - level
    ensures Ordered(LevelsFrom(n, level, top))
  {
    if level < top {
      LevelRunOrdered(n, level, 0);
      LevelsFromOrdered(n, level + 1, top);
      LevelRunMembers(n, level, 0);
      LevelsFromMembers(n, level + 1, top);
      ConcatOrdered(LevelRun(n, level, 0), LevelsFrom(n, level + 1, top));
    }
  }

  /** The whole traversal is in non-decreasing level order, and within a
      level in ascending r and then g; in particular no cell repeats. */
  lemma DiagonalOrdered(n: int)
    ensures Ordered(DiagonalOrder(n))
    ensures NoRepeats(DiagonalOrder(n))
  {
    LevelsFromOrdered(n, 0, 2 * n);
  }

  /** The table entries at a run of in-grid cells, in order. */
  function Fetch(t: Table, cells: seq<Cell>): (f: seq<Rgb>)
    requires IsCube(t, |t|)
    requires forall c :: c in cells ==> InGrid(|t|, c)
    ensures |f| == |cells|
  {
    seq(|cells|, i requires 0 <= i < |cells| => At(t, cells[i]))
  }

  /** The diagonal flattening of a cube (generate_flat_lut_from_identity):
      entry i is the table entry at the i-th cell of the traversal. */
  function FlattenDiagonal(t: Table): (flat: seq<Rgb>)
    requires IsCube(t, |t|)
    ensures |flat| == |DiagonalOrder(|t|)|
    ensures forall i :: 0 <= i < |flat| ==>
      var c := DiagonalOrder(|t|)[i]; InGrid(|t|, c) && flat[i] == At(t, c)
  {
    DiagonalMembers(|t|);
    Fetch(t, DiagonalOrder(|t|))
  }

  /** The offsets of a repeat-free sequence of the cells at levels
      0 .. top-1: a subset of [0, n^3) with one offset per element, holding
      the offset of a grid cell exactly when the cell is in the sequence. */
  lemma OffsetItems(s: seq<Cell>, n: int, top: int) returns (a: set<int>)
    requires n >= 1 && HoldsLevels(s, n, top) && NoRepeats(s)
    ensures |a| == |s|
    ensures a <= Below(n * n * n)
    ensures forall c :: InGrid(n, c) ==> (Offset(n, c) in a <==> c in s)
  {
    var offs := seq(|s|, i requires 0 <= i < |s| => Offset(n, s[i]));
    forall i | 0 <= i < |s|
      ensures 0 <= offs[i] < n * n * n
    {
      assert s[i] in s;
      OffsetInRange(n, s[i]);
    }
    assert NoRepeats(offs) by {
      forall i, j | 0 <= i < j < |offs|
        ensures offs[i] != offs[j]
      {
        assert s[i] in s && s[j] in s;
        OffsetInjective(n, s[i], s[j]);
      }
    }
    ItemsOfNoRepeats(offs);
    a := Items(offs);
    forall c | InGrid(n, c)
      ensures Offset(n, c) in a <==> c in s
    {
      if c in s {
        var i := IndexOf(s, c);
        assert offs[i] == Offset(n, c);
      }
      if Offset(n, c) in a {
        var i := IndexOf(offs, Offset(n, c));
        assert s[i] in s;
        OffsetInjective(n, s[i], c);
      }
    }
  }

  /** A repeat-free sequence of the grid cells at levels 0 .. 2n-1 has at
      most n^3 elements, exactly n^3 only for n <= 2. */
  lemma LowLevelsSize(s: seq<Cell>, n: int)
    requires n >= 1 && HoldsLevels(s, n, 2 * n) && NoRepeats(s)
    ensures |s| <= n * n * n
    ensures |s| == n * n * n <==> n <= 2
  {
    var a := OffsetItems(s, n, 2 * n);
    BelowSize(n * n * n);
    SubsetSize(a, Below(n * n * n));
    if n <= 2 {
      forall k | k in Below(n * n * n)
        ensures k in a
      {
        EncodeDecode(n, k);
        assert Decode(n, k) in s;
      }
      assert a == Below(n * n * n);
    } else {
      var top := Cell(n - 1, n - 1, n - 1);
      LastOffset(n);
      assert top !in s;
      assert n * n * n - 1 in Below(n * n * n) && n * n * n - 1 !in a;
    }
  }

  /** ... and at least half of n^3: reflecting a cell through the centre of
      the grid maps every cell above level 2n-1 to one at level n-3 or
      below, so at most half the grid is missing. */
  lemma LowLevelsHalf(s: seq<Cell>, n: int)
    requires n >= 1 && HoldsLevels(s, n, 2 * n) && NoRepeats(s)
    ensures n * n * n <= 2 * |s|
  {
    var top := n * n * n - 1;
    var a := OffsetItems(s, n, 2 * n);
    var m := Mirror(a, top);
    MirrorSize(a, top);
    forall k | k in Below(n * n * n)
      ensures k in a + m
    {
      EncodeDecode(n, k);
      var c := Decode(n, k);
      if c !in s {
        var d := Cell(n - 1 - c.r, n - 1 - c.g, n - 1 - c.b);
        MirrorOffset(n, c);
        assert d in s;
        assert top - k in a;
        assert k == top - (top - k);
      }
    }
    BelowSize(n * n * n);
    SubsetSize(Below(n * n * n), a + m);
  }

  /** The diagonal flattening has at most n^3 entries, and exactly n^3 only
      for n <= 2: from n = 3 on the cells above level 2n-1 are missing. It
      keeps at least half of them. */
  lemma DiagonalSize(n: int)
    requires n >= 1
    ensures |DiagonalOrder(n)| <= n * n * n
    ensures |DiagonalOrder(n)| == n * n * n <==> n <= 2
    ensures n * n * n <= 2 * |DiagonalOrder(n)|
  {
    DiagonalOrdered(n);
    DiagonalMembers(n);
    LowLevelsSize(DiagonalOrder(n), n);
    LowLevelsHalf(DiagonalOrder(n), n);
  }

  /** An ordered sequence of the cells at levels 0 .. 2n-1 starts with
      (0,0,0), the only cell of level 0. */
  lemma LowLevelsFirst(s: seq<Cell>, n: int)
    requires n >= 1 && HoldsLevels(s, n, 2 * n) && Ordered(s)
    ensures |s| >= 1 && s[0] == Cell(0, 0, 0)
  {
    assert Cell(0, 0, 0) in s;
    var i := IndexOf(s, Cell(0, 0, 0));
    assert s[0] in s;
    assert InGrid(n, s[0]);
  }

  /** For n >= 1 the traversal is not empty: it opens with (0,0,0). */
  lemma DiagonalNonEmpty(n: int)
    requires n >= 1
    ensures |DiagonalOrder(n)| >= 1 && DiagonalOrder(n)[0] == Cell(0, 0, 0)
  {
    DiagonalOrdered(n);
    DiagonalMembers(n);
    LowLevelsFirst(DiagonalOrder(n), n);
  }

  /** The traversal opens with (0,0,0) and (0,0,1), so the diagonal and the
      row-major layouts agree on the first two offsets. */
  lemma DiagonalStart(n: int)
    requires n >= 2
    ensures |DiagonalOrder(n)| >= 2
    ensures DiagonalOrder(n)[0] == Cell(0, 0, 0)
    ensures DiagonalOrder(n)[1] == Cell(0, 0, 1)
  {
    Level0(n);
    Level1(n);
    assert LevelsFrom(n, 1, 2 * n) == LevelRun(n, 1, 0) + LevelsFrom(n, 2, 2 * n);
    assert DiagonalOrder(n) == LevelRun(n, 0, 0) + LevelsFrom(n, 1, 2 * n);
  }

  /** A row whose blue coordinate is already negative emits nothing more. */
  lemma {:induction false} RowRunBelowZero(n: int, level: int, r: int, g: int)
    requires level - r - g < 0
    ensures RowRun(n, level, r, g) == []
    decreases n - g
  {
    if g < n {
      RowRunBelowZero(n, level, r, g + 1);
    }
  }

  /** Rows with r above the level emit nothing. */
  lemma {:induction false} LevelRunAbove(n: int, level: int, r: int)
    requires level < r
    ensures LevelRun(n, level, r) == []
    decreases n - r
  {
    if r < n {
      RowRunBelowZero(n, level, r, 0);
      LevelRunAbove(n, level, r + 1);
    }
  }

  /** Level 0 of the traversal for n >= 1. */
  lemma Level0(n: int)
    requires n >= 1
    ensures LevelRun(n, 0, 0) == [Cell(0, 0, 0)]
  {
    RowRunBelowZero(n, 0, 0, 1);
    LevelRunAbove(n, 0, 1);
  }

  /** Level 1 of the traversal for n >= 2. */
  lemma Level1(n: int)
    requires n >= 2
    ensures LevelRun(n, 1, 0) == [Cell(0, 0, 1), Cell(0, 1, 0), Cell(1, 0, 0)]
  {
    RowRunBelowZero(n, 1, 0, 2);
    RowRunBelowZero(n, 1, 1, 1);
    LevelRunAbove(n, 1, 2);
    assert RowRun(n, 1, 0, 1) == [Cell(0, 1, 0)];
    assert RowRun(n, 1, 0, 0) == [Cell(0, 0, 1), Cell(0, 1, 0)];
    assert RowRun(n, 1, 1, 0) == [Cell(1, 0, 0)];
    assert LevelRun(n, 1, 1) == [Cell(1, 0, 0)];
  }

  /** Level 2 of the traversal for n >= 3. */
  lemma Level2(n: int)
    requires n >= 3
    ensures LevelRun(n, 2, 0) == [Cell(0, 0, 2), Cell(0, 1, 1), Cell(0, 2, 0), Cell(1, 0, 1), Cell(1, 1, 0), Cell(2, 0, 0)]
  {
    RowRunBelowZero(n, 2, 0, 3);
    RowRunBelowZero(n, 2, 1, 2);
    RowRunBelowZero(n, 2, 2, 1);
    LevelRunAbove(n, 2, 3);
    assert RowRun(n, 2, 0, 2) == [Cell(0, 2, 0)];
    assert RowRun(n, 2, 0, 1) == [Cell(0, 1, 1), Cell(0, 2, 0)];
    assert RowRun(n, 2, 0, 0) == [Cell(0, 0, 2), Cell(0, 1, 1), Cell(0, 2, 0)];
    assert RowRun(n, 2, 1, 1) == [Cell(1, 1, 0)];
    assert RowRun(n, 2, 1, 0) == [Cell(1, 0, 1), Cell(1, 1, 0)];
    assert RowRun(n, 2, 2, 0) == [Cell(2, 0, 0)];
    assert LevelRun(n, 2, 2) == [Cell(2, 0, 0)];
    assert LevelRun(n, 2, 1) == [Cell(1, 0, 1), Cell(1, 1, 0), Cell(2, 0, 0)];
  }

  /** Level 3 of the traversal for n >= 4. */
  lemma Level3(n: int)
    requires n >= 4
    ensures LevelRun(n, 3, 0) == [Cell(0, 0, 3), Cell(0, 1, 2), Cell(0, 2, 1), Cell(0, 3, 0), Cell(1, 0, 2), Cell(1, 1, 1),
      Cell(1, 2, 0), Cell(2, 0, 1), Cell(2, 1, 0), Cell(3, 0, 0)]
  {
    RowRunBelowZero(n, 3, 0, 4);
    RowRunBelowZero(n, 3, 1, 3);
    RowRunBelowZero(n, 3, 2, 2);
    RowRunBelowZero(n, 3, 3, 1);
    LevelRunAbove(n, 3, 4);
    assert RowRun(n, 3, 0, 3) == [Cell(0, 3, 0)];
    assert RowRun(n, 3, 0, 2) == [Cell(0, 2, 1), Cell(0, 3, 0)];
    assert RowRun(n, 3, 0, 1) == [Cell(0, 1, 2), Cell(0, 2, 1), Cell(0, 3, 0)];
    assert RowRun(n, 3, 0, 0) == [Cell(0, 0, 3), Cell(0, 1, 2), Cell(0, 2, 1), Cell(0, 3, 0)];
    assert RowRun(n, 3, 1, 2) == [Cell(1, 2, 0)];
    assert RowRun(n, 3, 1, 1) == [Cell(1, 1, 1), Cell(1, 2, 0)];
    assert RowRun(n, 3, 1, 0) == [Cell(1, 0, 2), Cell(1, 1, 1), Cell(1, 2, 0)];
    assert RowRun(n, 3, 2, 1) == [Cell(2, 1, 0)];
    assert RowRun(n, 3, 2, 0) == [Cell(2, 0, 1), Cell(2, 1, 0)];
    assert RowRun(n, 3, 3, 0) == [Cell(3, 0, 0)];
    assert LevelRun(n, 3, 3) == [Cell(3, 0, 0)];
    assert LevelRun(n, 3, 2) == [Cell(2, 0, 1), Cell(2, 1, 0), Cell(3, 0, 0)];
    assert LevelRun(n, 3, 1) == [Cell(1, 0, 2), Cell(1, 1, 1), Cell(1, 2, 0), Cell(2, 0, 1), Cell(2, 1, 0), Cell(3, 0, 0)];
  }

  /** For n >= 4 the traversal opens with the 20 cells of levels 0 to 3, in
      this order; in particular entry 17 is (2, 0, 1). */
  lemma DiagonalPrefix(n: int)
    requires n >= 4
    ensures |DiagonalOrder(n)| >= 20
    ensures DiagonalOrder(n)[..20] == [
      Cell(0, 0, 0),
      Cell(0, 0, 1), Cell(0, 1, 0), Cell(1, 0, 0),
      Cell(0, 0, 2), Cell(0, 1, 1), Cell(0, 2, 0), Cell(1, 0, 1), Cell(1, 1, 0), Cell(2, 0, 0),
      Cell(0, 0, 3), Cell(0, 1, 2), Cell(0, 2, 1), Cell(0, 3, 0), Cell(1, 0, 2), Cell(1, 1, 1),
      Cell(1, 2, 0), Cell(2, 0, 1), Cell(2, 1, 0), Cell(3, 0, 0)]
  {
    Level0(n);
    Level1(n);
    Level2(n);
    Level3(n);
    assert LevelsFrom(n, 3, 2 * n) == LevelRun(n, 3, 0) + LevelsFrom(n, 4, 2 * n);
    assert LevelsFrom(n, 2, 2 * n) == LevelRun(n, 2, 0) + LevelsFrom(n, 3, 2 * n);
    assert LevelsFrom(n, 1, 2 * n) == LevelRun(n, 1, 0) + LevelsFrom(n, 2, 2 * n);
    assert DiagonalOrder(n) == LevelRun(n, 0, 0) + LevelsFrom(n, 1, 2 * n);
  }

  /** An ordered sequence of the cells at levels 0 .. 2n-1 ends with
      (n-1, n-1, 1). */
  lemma LowLevelsEnd(s: seq<Cell>, n: int)
    requires n >= 2 && HoldsLevels(s, n, 2 * n) && Ordered(s)
    ensures |s| >= 1 && s[|s| - 1] == Cell(n - 1, n - 1, 1)
  {
    assert Cell(n - 1, n - 1, 1) in s;
    var j := IndexOf(s, Cell(n - 1, n - 1, 1));
    assert s[|s| - 1] in s;
    assert j == |s| - 1;
  }

  /** The traversal closes with (n-1, n-1, 1), the last cell of level 2n-1. */
  lemma DiagonalEnd(n: int)
    requires n >= 2
    ensures |DiagonalOrder(n)| >= 1
    ensures DiagonalOrder(n)[|DiagonalOrder(n)| - 1] == Cell(n - 1, n - 1, 1)
  {
    DiagonalOrdered(n);
    DiagonalMembers(n);
    LowLevelsEnd(DiagonalOrder(n), n);
  }

  /** Entry i of the diagonal flattening is the table entry at the i-th cell
      of the traversal; there are at most n^3 of them. */
  lemma FlattenDiagonalAt(t: Table)
    requires IsCube(t, |t|)
    ensures |FlattenDiagonal(t)| == |DiagonalOrder(|t|)| <= |t| * |t| * |t|
    ensures forall i :: 0 <= i < |FlattenDiagonal(t)| ==>
      var c := DiagonalOrder(|t|)[i]; InGrid(|t|, c) && FlattenDiagonal(t)[i] == At(t, c)
  {
    var n := |t|;
    DiagonalMembers(n);
    if n >= 1 {
      DiagonalSize(n);
    }
    forall i | 0 <= i < |DiagonalOrder(n)|
      ensures InGrid(n, DiagonalOrder(n)[i])
    {
      assert DiagonalOrder(n)[i] in DiagonalOrder(n);
    }
  }

  /** Appending a cell appends its entry. */
  lemma FetchSnoc(t: Table, cells: seq<Cell>, c: Cell)
    requires IsCube(t, |t|) && InGrid(|t|, c)
    requires forall d :: d in cells ==> InGrid(|t|, d)
    ensures Fetch(t, cells + [c]) == Fetch(t, cells) + [At(t, c)]
  {
  }

  /** Concatenation is associative. */
  lemma AppendAssoc<T>(a: seq<T>, b: seq<T>, c: seq<T>)
    ensures a + (b + c) == (a + b) + c
  {
  }

  /** The innermost loop of generate_flat_lut_from_identity: for g ascending,
      append the entry at (r, g, level - r - g) when that blue coordinate is
      in range. `done` tracks the cells whose entries `flat` holds. */
  method EmitRow(t: Table, level: int, r: int, flat0: seq<Rgb>, ghost done0: seq<Cell>)
    returns (flat: seq<Rgb>, ghost done: seq<Cell>)
    requires IsCube(t, |t|) && 0 <= r < |t|
    requires forall c :: c in done0 ==> InGrid(|t|, c)
    requires flat0 == Fetch(t, done0)
    ensures done == done0 + RowRun(|t|, level, r, 0)
    ensures forall c :: c in done ==> InGrid(|t|, c)
    ensures flat == Fetch(t, done)
    ensures |flat| == |flat0| + |RowRun(|t|, level, r, 0)| && flat[..|flat0|] == flat0
    ensures forall i :: |flat0| <= i < |flat| ==>
      var c := RowRun(|t|, level, r, 0)[i - |flat0|]; InGrid(|t|, c) && flat[i] == At(t, c)
  {
    var n := |t|;
    flat, done := flat0, done0;
    var g := 0;
    while g < n
      invariant 0 <= g <= n
      invariant forall c :: c in done ==> InGrid(n, c)
      invariant flat == Fetch(t, done)
      invariant done + RowRun(n, level, r, g) == done0 + RowRun(n, level, r, 0)
    {
      var b := level - r - g;
      if 0 <= b < n {
        var c := Cell(r, g, b);
        FetchSnoc(t, done, c);
        AppendAssoc(done, [c], RowRun(n, level, r, g + 1));
        flat := flat + [t[r][g][b]];
        done := done + [c];
      }
      g := g + 1;
    }
  }

  /** The middle loop: one level, r ascending. */
  method EmitLevel(t: Table, level: int, flat0: seq<Rgb>, ghost done0: seq<Cell>)
    returns (flat: seq<Rgb>, ghost done: seq<Cell>)
    requires IsCube(t, |t|)
    requires forall c :: c in done0 ==> InGrid(|t|, c)
    requires flat0 == Fetch(t, done0)
    ensures done == done0 + LevelRun(|t|, level, 0)
    ensures forall c :: c in done ==> InGrid(|t|, c)
    ensures flat == Fetch(t, done)
    ensures |flat| == |flat0| + |LevelRun(|t|, level, 0)| && flat[..|flat0|] == flat0
    ensures forall i :: |flat0| <= i < |flat| ==>
      var c := LevelRun(|t|, level, 0)[i - |flat0|]; InGrid(|t|, c) && flat[i] == At(t, c)
  {
    var n := |t|;
    flat, done := flat0, done0;
    var r := 0;
    while r < n
      invariant 0 <= r <= n
      invariant forall c :: c in done ==> InGrid(n, c)
      invariant flat == Fetch(t, done)
      invariant done + LevelRun(n, level, r) == done0 + LevelRun(n, level, 0)
    {
      AppendAssoc(done, RowRun(n, level, r, 0), LevelRun(n, level, r + 1));
      flat, done := EmitRow(t, level, r, flat, done);
      r := r + 1;
    }
  }

  /** generate_flat_lut_from_identity: levels 0 .. 2n-1 in turn, each emitted
      by r and then g ascending. The result is the diagonal flattening:
      entry i is the table entry at the i-th cell of the traversal. */
  method FlattenByLevels(t: Table) returns (flat: seq<Rgb>)
    requires IsCube(t, |t|)
    ensures flat == FlattenDiagonal(t)
    ensures |flat| == |DiagonalOrder(|t|)| <= |t| * |t| * |t|
    ensures forall i :: 0 <= i < |flat| ==>
      var c := DiagonalOrder(|t|)[i]; InGrid(|t|, c) && flat[i] == At(t, c)
  {
    var n := |t|;
    DiagonalMembers(n);
    flat := [];
    ghost var done: seq<Cell> := [];
    var level := 0;
    while level < 2 * n
      invariant 0 <= level <= 2 * n
      invariant forall c :: c in done ==> InGrid(n, c)
      invariant flat == Fetch(t, done)
      invariant done + LevelsFrom(n, level, 2 * n) == DiagonalOrder(n)
    {
      AppendAssoc(done, LevelRun(n, level, 0), LevelsFrom(n, level + 1, 2 * n));
      flat, done := EmitLevel(t, level, flat, done);
      level := level + 1;
    }
    FlattenDiagonalAt(t);
  }

  /** generate_spatially_local_3dlut: the identity table of resolution n,
      flattened level by level. Entry i is the identity entry of the i-th
      cell of the traversal, so every channel lies in [0, 1]. */
  method GenerateSpatiallyLocal(n: int) returns (flat: seq<Rgb>)
    requires n >= 2
    ensures flat == FlattenDiagonal(Identity(n))
    ensures |flat| == |DiagonalOrder(n)| <= n * n * n
    ensures forall i :: 0 <= i < |flat| ==> flat[i] == IdentityEntry(n, DiagonalOrder(n)[i])
    ensures forall i :: 0 <= i < |flat| ==> InUnit(flat[i])
  {
    var lut := Identity(n);
    DiagonalMembers(n);
    flat := FlattenByLevels(lut);
    forall i | 0 <= i < |flat|
      ensures flat[i] == IdentityEntry(n, DiagonalOrder(n)[i]) && InUnit(flat[i])
    {
      assert DiagonalOrder(n)[i] in DiagonalOrder(n);
    }
  }
}
