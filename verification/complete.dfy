/**
 The consistent layout the diagonal flattening evidently aims at: the level
 traversal run through its last level 3N-3, so that it enumerates the whole
 grid, looked up by the position of the pixel's cell in that traversal
 rather than by the row-major offset.
 */
module Complete {
  import opened Color
  import opened Lut
  import opened RowMajor
  import opened Counting
  import opened Diagonal
  import opened Apply

  /** The level traversal over all levels 0 .. 3n-3. */
  function CompleteOrder(n: int): seq<Cell> {
    LevelsFrom(n, 0, 3 * n - 2)
  }

  /** The complete traversal enumerates the grid: it holds every grid cell
      exactly once, n^3 cells in all, in level order. */
  lemma CompleteIsEnumeration(n: int)
    requires n >= 1
    ensures forall c :: c in CompleteOrder(n) <==> InGrid(n, c)
    ensures NoRepeats(CompleteOrder(n)) && Ordered(CompleteOrder(n))
    ensures |CompleteOrder(n)| == n * n * n
  {
    var s := CompleteOrder(n);
    LevelsFromMembers(n, 0, 3 * n - 2);
    LevelsFromOrdered(n, 0, 3 * n - 2);
    assert HoldsLevels(s, n, 3 * n - 2);
    var a := OffsetItems(s, n, 3 * n - 2);
    forall k | k in Below(n * n * n)
      ensures k in a
    {
      EncodeDecode(n, k);
      assert Decode(n, k) in s;
    }
    assert a == Below(n * n * n);
    BelowSize(n * n * n);
  }

  /** Linear search: the first position of `c` in `s`, or |s| when absent. */
  function Position(s: seq<Cell>, c: Cell): (i: int)
    ensures 0 <= i <= |s|
    ensures i < |s| ==> s[i] == c
    ensures i == |s| <==> c !in s
    ensures forall j :: 0 <= j < i ==> s[j] != c
  {
    if |s| == 0 then 0
    else if s[0] == c then 0
    else 1 + Position(s[1..], c)
  }

  /** The flat table in complete traversal order. */
  function FlattenComplete(t: Table): (flat: seq<Rgb>)
    requires IsCube(t, |t|)
    ensures |flat| == |CompleteOrder(|t|)|
    ensures forall i :: 0 <= i < |flat| ==>
      var c := CompleteOrder(|t|)[i]; InGrid(|t|, c) && flat[i] == At(t, c)
  {
    LevelsFromMembers(|t|, 0, 3 * |t| - 2);
    Fetch(t, CompleteOrder(|t|))
  }

  /** The corrected flat lookup: the entry at the position of the pixel's
      cell in the complete traversal. */
  function CompleteLookup(flat: seq<Rgb>, size: int, p: Rgb): (v: Result<Rgb>)
    requires size >= 1
    ensures v.Ok? <==> Position(CompleteOrder(size), Quantize(size, p)) < |flat|
    ensures v.Ok? ==> v.value == flat[Position(CompleteOrder(size), Quantize(size, p))]
    ensures v.IndexError? ==> v.index == Position(CompleteOrder(size), Quantize(size, p))
  {
    var i := Position(CompleteOrder(size), Quantize(size, p));
    if i < |flat| then Ok(flat[i]) else IndexError(i)
  }

  /** The corrected flat lookup returns exactly the dense lookup, for every
      table and pixel. */
  lemma CompleteMatchesDense(t: Table, p: Rgb)
    requires IsCube(t, |t|) && |t| >= 1
    ensures CompleteLookup(FlattenComplete(t), |t|, p) == Ok(DenseLookup(t, p))
  {
    var n := |t|;
    CompleteIsEnumeration(n);
    var c := Quantize(n, p);
    assert c in CompleteOrder(n);
  }

  /** Batched over any inputs, the corrected lookup agrees with
      apply_3dlut_standard. */
  lemma ApplyCompleteMatchesStandard(inputs: seq<Rgb>, t: Table)
    requires IsCube(t, |t|) && |t| >= 1
    ensures ApplyEach(inputs, p => CompleteLookup(FlattenComplete(t), |t|, p)) == Ok(ApplyStandard(inputs, t))
  {
    var out := ApplyEach(inputs, p => CompleteLookup(FlattenComplete(t), |t|, p));
    forall i | 0 <= i < |inputs|
      ensures CompleteLookup(FlattenComplete(t), |t|, inputs[i]) == Ok(DenseLookup(t, inputs[i]))
    {
      CompleteMatchesDense(t, inputs[i]);
    }
    assert out.Ok?;
    assert out.value == ApplyStandard(inputs, t);
  }
}
