/**
 Nearest-neighbour lookups: the dense lookup of apply_3dlut_standard, the
 unclamped row-major flat lookup of apply_flat_lut_row_major, and the two
 clamped flat lookups of apply_3dlut_flat (`min`) and apply_flat_lut
 (`np.clip`). Python's IndexError is the `IndexError` outcome.
 */
module Apply {
  import opened Color
  import opened Lut
  import opened RowMajor
  import opened Diagonal

  /** The outcome of indexing a flat table: a value, or an IndexError at the
      offending index. */
  datatype Result<T> = Ok(value: T) | IndexError(index: int)

  /** Dense lookup of one pixel (the body of apply_3dlut_standard's loop):
      the entry of the cell the pixel quantises to. */
  function DenseLookup(t: Table, p: Rgb): (v: Rgb)
    requires IsCube(t, |t|) && |t| >= 1
    ensures exists c :: InGrid(|t|, c) && v == At(t, c)
  {
    var c := Quantize(|t|, p);
    assert InGrid(|t|, c);
    At(t, c)
  }

  /** apply_3dlut_standard: one dense lookup per input, in input order. */
  function ApplyStandard(inputs: seq<Rgb>, t: Table): (out: seq<Rgb>)
    requires IsCube(t, |t|) && |t| >= 1
    ensures |out| == |inputs|
    ensures forall i :: 0 <= i < |inputs| ==> out[i] == DenseLookup(t, inputs[i])
  {
    if |inputs| == 0 then [] else [DenseLookup(t, inputs[0])] + ApplyStandard(inputs[1..], t)
  }

  /** The unclamped flat index r*size*size + g*size + b of a pixel. */
  function FlatIndex(size: int, p: Rgb): (i: int)
    requires size >= 1
    ensures 0 <= i < size * size * size
  {
    var c := Quantize(size, p);
    OffsetInRange(size, c);
    Offset(size, c)
  }

  /** Row-major flat lookup of one pixel (apply_flat_lut_row_major): no clamp,
      so an index at or past the end is an IndexError. */
  function RowMajorLookup(flat: seq<Rgb>, size: int, p: Rgb): (v: Result<Rgb>)
    requires size >= 1
    ensures v.Ok? <==> FlatIndex(size, p) < |flat|
    ensures v.Ok? ==> v.value == flat[FlatIndex(size, p)]
    ensures v.IndexError? ==> v.index == FlatIndex(size, p) >= |flat|
  {
    var i := FlatIndex(size, p);
    if i < |flat| then Ok(flat[i]) else IndexError(i)
  }

  /** Python's `min(i, len - 1)`. */
  function MinClamp(i: int, len: int): (j: int)
    ensures j <= i && j <= len - 1
    ensures j == i || j == len - 1
  {
    if i <= len - 1 then i else len - 1
  }

  /** numpy's `clip(i, lo, hi)`, computed as `minimum(maximum(i, lo), hi)`:
      when lo > hi every value becomes hi. */
  function ClipIndex(i: int, lo: int, hi: int): (j: int)
    ensures lo <= hi ==> lo <= j <= hi
    ensures lo <= i <= hi ==> j == i
    ensures lo <= hi && i < lo ==> j == lo
    ensures i > hi ==> j == hi
    ensures lo > hi ==> j == hi
  {
    var up := if i >= lo then i else lo;
    if up <= hi then up else hi
  }

  /** Indexing of a flat table with an index already clamped from above;
      a negative index counts from the end, as in Python. */
  function IndexFlat(flat: seq<Rgb>, j: int): (v: Result<Rgb>)
    ensures v.Ok? <==> -|flat| <= j < |flat|
    ensures v.Ok? && j >= 0 ==> v.value == flat[j]
    ensures v.Ok? && j < 0 ==> v.value == flat[|flat| + j]
    ensures v.IndexError? ==> v.index == j
  {
    if 0 <= j < |flat| then Ok(flat[j])
    else if -|flat| <= j < 0 then Ok(flat[|flat| + j])
    else IndexError(j)
  }

  /** Diagonal flat lookup of one pixel (the body of apply_3dlut_flat's loop):
      the row-major index, clamped to the last entry with `min`. It fails only
      on an empty flat table; otherwise an index inside the table is used as
      is and one past its end returns the last entry. */
  function DiagonalLookup(flat: seq<Rgb>, size: int, p: Rgb): (v: Result<Rgb>)
    requires size >= 1
    ensures v.Ok? <==> |flat| >= 1
    ensures v.Ok? && FlatIndex(size, p) < |flat| ==> v.value == flat[FlatIndex(size, p)]
    ensures v.Ok? && FlatIndex(size, p) >= |flat| ==> v.value == flat[|flat| - 1]
  {
    IndexFlat(flat, MinClamp(FlatIndex(size, p), |flat|))
  }

  /** apply_flat_lut: the row-major index, clipped to [0, len - 1] with
      `np.clip`. Same guarantees as the `min` clamp. */
  function SpatialLookup(flat: seq<Rgb>, size: int, p: Rgb): (v: Result<Rgb>)
    requires size >= 1
    ensures v.Ok? <==> |flat| >= 1
    ensures v.Ok? && FlatIndex(size, p) < |flat| ==> v.value == flat[FlatIndex(size, p)]
    ensures v.Ok? && FlatIndex(size, p) >= |flat| ==> v.value == flat[|flat| - 1]
  {
    IndexFlat(flat, ClipIndex(FlatIndex(size, p), 0, |flat| - 1))
  }

  /** A loop over the inputs that appends one lookup result per pixel and
      stops at the first IndexError. */
  function ApplyEach(inputs: seq<Rgb>, f: Rgb -> Result<Rgb>): (out: Result<seq<Rgb>>)
    ensures out.Ok? <==> forall i :: 0 <= i < |inputs| ==> f(inputs[i]).Ok?
    ensures out.Ok? ==> |out.value| == |inputs|
    ensures out.Ok? ==> forall i :: 0 <= i < |inputs| ==> out.value[i] == f(inputs[i]).value
    ensures out.IndexError? ==> exists k :: (0 <= k < |inputs| && f(inputs[k]) == IndexError(out.index)
                                             && forall j :: 0 <= j < k ==> f(inputs[j]).Ok?)
  {
    if |inputs| == 0 then Ok([])
    else
      match f(inputs[0])
      case IndexError(i) => IndexError(i)
      case Ok(v) =>
        var rest := ApplyEach(inputs[1..], f);
        if rest.IndexError? then
          assert forall j :: 1 <= j < |inputs| ==> inputs[j] == inputs[1..][j - 1];
          IndexError(rest.index)
        else Ok([v] + rest.value)
  }

  /** apply_flat_lut_row_major: fails exactly when some pixel's index is at or
      past the end, and never when the table has size^3 entries. */
  function ApplyFlatRowMajor(inputs: seq<Rgb>, flat: seq<Rgb>, size: int): (out: Result<seq<Rgb>>)
    requires size >= 1
    ensures out.Ok? <==> forall i :: 0 <= i < |inputs| ==> FlatIndex(size, inputs[i]) < |flat|
    ensures |flat| >= size * size * size ==> out.Ok?
    ensures out.Ok? ==> |out.value| == |inputs|
    ensures out.Ok? ==> forall i :: 0 <= i < |inputs| ==> out.value[i] == flat[FlatIndex(size, inputs[i])]
  {
    ApplyEach(inputs, p => RowMajorLookup(flat, size, p))
  }

  /** apply_3dlut_flat: never fails on a non-empty flat table. */
  function ApplyFlat(inputs: seq<Rgb>, flat: seq<Rgb>, size: int): (out: Result<seq<Rgb>>)
    requires size >= 1
    ensures out.Ok? <==> |flat| >= 1 || |inputs| == 0
    ensures out.Ok? ==> |out.value| == |inputs|
    ensures out.Ok? ==> forall i :: 0 <= i < |inputs| ==> out.value[i] == DiagonalLookup(flat, size, inputs[i]).value
  {
    ApplyEach(inputs, p => DiagonalLookup(flat, size, p))
  }

  /** For a non-negative index the `np.clip` and `min` clamps agree: the lower
      bound 0 never takes effect. */
  lemma ClampsAgree(i: int, len: int)
    requires i >= 0
    ensures ClipIndex(i, 0, len - 1) == MinClamp(i, len)
  {
  }

  /** apply_flat_lut and the per-pixel step of apply_3dlut_flat return the
      same result for every pixel and table. */
  lemma SpatialIsDiagonal(flat: seq<Rgb>, size: int, p: Rgb)
    requires size >= 1
    ensures SpatialLookup(flat, size, p) == DiagonalLookup(flat, size, p)
  {
    ClampsAgree(FlatIndex(size, p), |flat|);
  }

  /** On the row-major flattening of an n-cube, the flat lookup with size n
      returns the dense lookup. */
  lemma RowMajorMatchesDense(t: Table, p: Rgb)
    requires IsCube(t, |t|) && |t| >= 1
    ensures RowMajorLookup(Flatten(t), |t|, p) == Ok(DenseLookup(t, p))
  {
    FlattenAt(t, |t|, Quantize(|t|, p));
  }

  /** With size equal to the table's resolution, apply_flat_lut_row_major on
      the row-major flattening returns exactly what apply_3dlut_standard
      returns, for every input. */
  lemma ApplyRowMajorMatchesStandard(inputs: seq<Rgb>, t: Table)
    requires IsCube(t, |t|) && |t| >= 1
    ensures ApplyFlatRowMajor(inputs, Flatten(t), |t|) == Ok(ApplyStandard(inputs, t))
  {
    var n := |t|;
    var out := ApplyFlatRowMajor(inputs, Flatten(t), n);
    FlattenLength(t, n);
    assert out.Ok?;
    var expected := ApplyStandard(inputs, t);
    forall i | 0 <= i < |inputs|
      ensures out.value[i] == expected[i]
    {
      RowMajorMatchesDense(t, inputs[i]);
    }
    assert out.value == expected;
  }

  /** The row-major benchmark builds a 33-cube and passes size 33 explicitly,
      so its flat lookups agree with the dense ones; relying on the default
      size 65 instead would index past the end for a white pixel. */
  lemma RowMajorBenchmarkSize(inputs: seq<Rgb>)
    ensures ApplyFlatRowMajor(inputs, Flatten(Identity(33)), 33) == Ok(ApplyStandard(inputs, Identity(33)))
    ensures ApplyFlatRowMajor([Rgb(1.0, 1.0, 1.0)], Flatten(Identity(33)), 65) == IndexError(274624)
  {
    ApplyRowMajorMatchesStandard(inputs, Identity(33));
    FlattenLength(Identity(33), 33);
    assert Quantize(65, Rgb(1.0, 1.0, 1.0)) == Cell(64, 64, 64);
  }

  /** The diagonal flattening of a non-empty cube is non-empty, so
      apply_3dlut_flat never raises on it. */
  lemma DiagonalNeverFails(inputs: seq<Rgb>, t: Table, size: int)
    requires IsCube(t, |t|) && |t| >= 1 && size >= 1
    ensures ApplyFlat(inputs, FlattenDiagonal(t), size).Ok?
    ensures |ApplyFlat(inputs, FlattenDiagonal(t), size).value| == |inputs|
  {
    DiagonalNonEmpty(|t|);
  }

  /** Pixels that quantise to (0,0,0) or (0,0,1) get the dense result from the
      diagonal flat lookup: the traversal's first two cells are at their
      row-major offsets 0 and 1. */
  lemma DiagonalMatchesAtStart(t: Table, p: Rgb)
    requires IsCube(t, |t|) && |t| >= 2
    requires Quantize(|t|, p) == Cell(0, 0, 0) || Quantize(|t|, p) == Cell(0, 0, 1)
    ensures DiagonalLookup(FlattenDiagonal(t), |t|, p) == Ok(DenseLookup(t, p))
  {
    var n := |t|;
    var c := Quantize(n, p);
    assert FlatIndex(n, p) == c.b by {
      assert c.r == 0 && c.g == 0;
    }
    assert c.b < |FlattenDiagonal(t)| && FlattenDiagonal(t)[c.b] == At(t, c) by {
      DiagonalStart(n);
      FlattenDiagonalAt(t);
    }
  }

  /** A pixel whose row-major index lies at or past the end of the diagonal
      flattening gets the entry of its last cell, (n-1, n-1, 1). */
  lemma SaturatedLookup(t: Table, p: Rgb)
    requires IsCube(t, |t|) && |t| >= 2
    requires FlatIndex(|t|, p) >= |FlattenDiagonal(t)|
    ensures DiagonalLookup(FlattenDiagonal(t), |t|, p) == Ok(At(t, Cell(|t| - 1, |t| - 1, 1)))
  {
    DiagonalEnd(|t|);
    FlattenDiagonalAt(t);
  }

  /** From n = 3 on, a white pixel's index n^3 - 1 lies past the end of the
      diagonal flattening. */
  lemma WhitePastEnd(n: int)
    requires n >= 3
    ensures FlatIndex(n, Rgb(1.0, 1.0, 1.0)) == n * n * n - 1
    ensures FlatIndex(n, Rgb(1.0, 1.0, 1.0)) >= |FlattenDiagonal(Identity(n))|
  {
    LastOffset(n);
    DiagonalSize(n);
    FlattenDiagonalAt(Identity(n));
  }

  /** From n = 3 on, a white pixel gets (1, 1, 1/(n-1)) from the diagonal
      flat lookup of the identity table instead of the dense (1, 1, 1). */
  lemma WhiteDisagrees(n: int)
    requires n >= 3
    ensures DiagonalLookup(FlattenDiagonal(Identity(n)), n, Rgb(1.0, 1.0, 1.0))
      == Ok(Rgb(1.0, 1.0, GridValue(n, 1)))
    ensures DenseLookup(Identity(n), Rgb(1.0, 1.0, 1.0)) == Rgb(1.0, 1.0, 1.0)
    ensures GridValue(n, 1) < 1.0
  {
    var t := Identity(n);
    var p := Rgb(1.0, 1.0, 1.0);
    WhitePastEnd(n);
    SaturatedLookup(t, p);
    assert Quantize(n, p) == Cell(n - 1, n - 1, n - 1);
    assert GridValue(n, n - 1) == 1.0;
  }

  /** For n = 2 the pixel (0, 1, 1) reads offset 3 of the diagonal
      flattening, which holds cell (1, 0, 0) rather than (0, 1, 1). */
  lemma TwoDisagrees()
    ensures DiagonalLookup(FlattenDiagonal(Identity(2)), 2, Rgb(0.0, 1.0, 1.0)) == Ok(Rgb(1.0, 0.0, 0.0))
    ensures DenseLookup(Identity(2), Rgb(0.0, 1.0, 1.0)) == Rgb(0.0, 1.0, 1.0)
  {
    var t := Identity(2);
    var p := Rgb(0.0, 1.0, 1.0);
    assert Quantize(2, p) == Cell(0, 1, 1);
    assert FlatIndex(2, p) == 3;
    DiagonalTwo();
    FlattenDiagonalAt(t);
    assert DiagonalOrder(2)[3] == Cell(1, 0, 0);
  }

  /** The diagonal flat lookup disagrees with the dense lookup of the same
      identity table at every resolution n >= 2. */
  lemma DiagonalDisagrees(n: int)
    requires n >= 2
    ensures exists p :: DiagonalLookup(FlattenDiagonal(Identity(n)), n, p) != Ok(DenseLookup(Identity(n), p))
  {
    if n >= 3 {
      var p := Rgb(1.0, 1.0, 1.0);
      assert DiagonalLookup(FlattenDiagonal(Identity(n)), n, p) != Ok(DenseLookup(Identity(n), p)) by {
        WhiteDisagrees(n);
      }
    } else {
      var p := Rgb(0.0, 1.0, 1.0);
      assert DiagonalLookup(FlattenDiagonal(Identity(2)), 2, p) != Ok(DenseLookup(Identity(2), p)) by {
        TwoDisagrees();
      }
      assert n == 2;
    }
  }

  /** The traversal for n = 2 opens with the four cells of levels 0 and 1. */
  lemma DiagonalTwo()
    ensures |DiagonalOrder(2)| == 8
    ensures DiagonalOrder(2)[..4] == [Cell(0, 0, 0), Cell(0, 0, 1), Cell(0, 1, 0), Cell(1, 0, 0)]
  {
    DiagonalSize(2);
    assert LevelRun(2, 0, 0) == [Cell(0, 0, 0)];
    assert RowRun(2, 1, 0, 0) == [Cell(0, 0, 1), Cell(0, 1, 0)];
    assert RowRun(2, 1, 1, 0) == [Cell(1, 0, 0)];
    assert LevelRun(2, 1, 0) == [Cell(0, 0, 1), Cell(0, 1, 0), Cell(1, 0, 0)];
    assert DiagonalOrder(2) == LevelRun(2, 0, 0) + LevelRun(2, 1, 0) + LevelsFrom(2, 2, 4);
  }

  /** Dividing k <= y < k + 1 by a positive m. */
  lemma DivideBounds(k: real, y: real, m: real)
    requires m > 0.0 && k <= y < k + 1.0
    ensures k / m <= y / m < k / m + 1.0 / m
  {
    assert y / m - k / m == (y - k) / m;
    assert k / m + 1.0 / m - y / m == (k + 1.0 - y) / m;
  }

  /** One channel of an identity lookup: the grid value floor(c * (n-1)) / (n-1)
      of the clipped channel c, never above c and less than one grid step
      below it. */
  lemma ChannelError(n: int, x: real)
    requires n >= 2
    ensures QuantizeChannel(n, x) == (Clip(x) * (n - 1) as real).Floor
    ensures GridValue(n, QuantizeChannel(n, x)) <= Clip(x)
    ensures Clip(x) < GridValue(n, QuantizeChannel(n, x)) + 1.0 / (n - 1) as real
  {
    var k := QuantizeChannel(n, x);
    var m := (n - 1) as real;
    var c := Clip(x);
    DivideBounds(k as real, c * m, m);
    assert c * m / m == c;
  }

  /** The dense lookup of the identity table rounds every clipped channel
      down to the grid: the result is the identity entry of the pixel's cell,
      within one grid step below the clipped input, and in [0, 1]. */
  lemma IdentityLookup(n: int, p: Rgb)
    requires n >= 2
    ensures DenseLookup(Identity(n), p) == IdentityEntry(n, Quantize(n, p))
    ensures InUnit(DenseLookup(Identity(n), p))
    ensures var v, q, step := DenseLookup(Identity(n), p), ClipRgb(p), 1.0 / (n - 1) as real;
      && v.r <= q.r < v.r + step
      && v.g <= q.g < v.g + step
      && v.b <= q.b < v.b + step
  {
    ChannelError(n, p.r);
    ChannelError(n, p.g);
    ChannelError(n, p.b);
  }

  /** A pixel whose row-major index lies in the lower half of the grid
      (twice the index below n^3) is looked up without clamping: the diagonal
      flattening keeps at least half of the n^3 cells. */
  lemma LowerHalfUnclamped(t: Table, p: Rgb)
    requires IsCube(t, |t|) && |t| >= 1
    requires 2 * FlatIndex(|t|, p) < |t| * |t| * |t|
    ensures FlatIndex(|t|, p) < |FlattenDiagonal(t)|
      && SpatialLookup(FlattenDiagonal(t), |t|, p) == Ok(FlattenDiagonal(t)[FlatIndex(|t|, p)])
  {
    DiagonalSize(|t|);
    FlattenDiagonalAt(t);
  }

  /** The worked example of the spatial-layout script: at resolution
      n = 17 the pixel (0.5, 0.25, 0.75) quantises to (8, 4, 12), whose index
      2392 is in the lower half of the 4913 cells, so LowerHalfUnclamped
      applies and no clamping occurs.
      The resolution is a parameter fixed by `requires n == 17` rather than
      the literal 17: a literal resolution makes the verifier unfold the
      whole traversal. */
  lemma SpatialExample(n: int)
    requires n == 17
    ensures Quantize(n, Rgb(0.5, 0.25, 0.75)) == Cell(8, 4, 12)
    ensures FlatIndex(n, Rgb(0.5, 0.25, 0.75)) == 2392
    ensures 2 * 2392 < n * n * n == 4913
  {
    assert (n - 1) as real == 16.0;
    assert Clip(0.5) * 16.0 == 8.0 && Clip(0.25) * 16.0 == 4.0 && Clip(0.75) * 16.0 == 12.0;
    assert Quantize(n, Rgb(0.5, 0.25, 0.75)) == Cell(8, 4, 12);
  }

  /** At resolution n = 17 a white pixel's index is the last one, 4912, and
      WhiteDisagrees gives it the entry (1, 1, 1/16).
      The resolution is a parameter fixed by `requires n == 17` rather than
      the literal 17: a literal resolution makes the verifier unfold the
      whole traversal. */
  lemma SaturatedExample(n: int)
    requires n == 17
    ensures FlatIndex(n, Rgb(1.0, 1.0, 1.0)) == 4912
    ensures GridValue(n, 1) == 1.0 / 16.0
  {
    LastOffset(n);
    assert (n - 1) as real == 16.0;
  }

  /** For n >= 4, a pixel whose row-major index is 17 gets the entry of cell
      (2, 0, 1), the 18th cell of the traversal. */
  lemma Entry17(t: Table, p: Rgb)
    requires IsCube(t, |t|) && |t| >= 4 && FlatIndex(|t|, p) == 17
    ensures DiagonalLookup(FlattenDiagonal(t), |t|, p) == Ok(At(t, Cell(2, 0, 1)))
  {
    DiagonalPrefix(|t|);
    assert DiagonalOrder(|t|)[17] == DiagonalOrder(|t|)[..20][17];
    FlattenDiagonalAt(t);
  }

  /** At resolution n = 17 the pixel (0, 1/16, 0) falls in cell (0, 1, 0),
      whose row-major index is 17; MiddleLookup carries this through Entry17,
      so the diagonal lookup returns the entry of cell (2, 0, 1) instead.
      The resolution is a parameter fixed by `requires n == 17` rather than
      the literal 17: a literal resolution makes the verifier unfold the
      whole traversal. */
  lemma MiddleExample(n: int)
    requires n == 17
    ensures Quantize(n, Rgb(0.0, 1.0 / 16.0, 0.0)) == Cell(0, 1, 0)
    ensures FlatIndex(n, Rgb(0.0, 1.0 / 16.0, 0.0)) == 17
  {
    assert (n - 1) as real == 16.0;
    assert Clip(1.0 / 16.0) * 16.0 == 1.0;
    assert Quantize(n, Rgb(0.0, 1.0 / 16.0, 0.0)) == Cell(0, 1, 0);
  }

  /** The worked example carried through the lookup: at resolution 17 the
      pixel (0, 1/16, 0) falls in cell (0, 1, 0), but the diagonal flat
      lookup returns the entry of cell (2, 0, 1). */
  lemma MiddleLookup(t: Table)
    requires IsCube(t, |t|) && |t| == 17
    ensures DenseLookup(t, Rgb(0.0, 1.0 / 16.0, 0.0)) == At(t, Cell(0, 1, 0))
    ensures DiagonalLookup(FlattenDiagonal(t), |t|, Rgb(0.0, 1.0 / 16.0, 0.0)) == Ok(At(t, Cell(2, 0, 1)))
  {
    var p := Rgb(0.0, 1.0 / 16.0, 0.0);
    assert FlatIndex(|t|, p) == 17 && Quantize(|t|, p) == Cell(0, 1, 0) by {
      MiddleExample(|t|);
    }
    Entry17(t, p);
  }

  /** Looked up in the spatially local identity flattening, every pixel
      yields some identity entry, so every output channel lies in [0, 1]. */
  lemma SpatialOutputInUnit(n: int, p: Rgb)
    requires n >= 2
    ensures SpatialLookup(FlattenDiagonal(Identity(n)), n, p).Ok?
    ensures exists c :: InGrid(n, c) && SpatialLookup(FlattenDiagonal(Identity(n)), n, p).value == IdentityEntry(n, c)
    ensures InUnit(SpatialLookup(FlattenDiagonal(Identity(n)), n, p).value)
  {
    var t := Identity(n);
    DiagonalNonEmpty(n);
    FlattenDiagonalAt(t);
    var flat := FlattenDiagonal(t);
    var j := if FlatIndex(n, p) < |flat| then FlatIndex(n, p) else |flat| - 1;
    var c := DiagonalOrder(n)[j];
    assert InGrid(n, c) && flat[j] == At(t, c);
    assert SpatialLookup(flat, n, p).value == IdentityEntry(n, c);
  }
}
