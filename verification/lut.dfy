/**
 The dense 3D lookup table: an N x N x N grid of RGB entries indexed by
 (r, g, b), and the identity table whose entry (r, g, b) is
 (r/(N-1), g/(N-1), b/(N-1)).
 */
module Lut {
  import opened Color

  /** A dense table, indexed table[r][g][b]. */
  type Table = seq<seq<seq<Rgb>>>

  /** True iff `t` has shape n x n x n. */
  predicate IsCube(t: Table, n: int) {
    && |t| == n
    && (forall r :: 0 <= r < n ==> |t[r]| == n)
    && (forall r, g :: 0 <= r < n && 0 <= g < n ==> |t[r][g]| == n)
  }

  /** The entry of a cube at an in-grid index. */
  function At(t: Table, c: Cell): Rgb
    requires IsCube(t, |t|) && InGrid(|t|, c)
  {
    t[c.r][c.g][c.b]
  }

  /** The identity entry at grid index c. */
  function IdentityEntry(n: int, c: Cell): (e: Rgb)
    requires n >= 2
    ensures InGrid(n, c) ==> InUnit(e)
  {
    var e := Rgb(GridValue(n, c.r), GridValue(n, c.g), GridValue(n, c.b));
    assert InGrid(n, c) ==> InUnit(e) by {
      if InGrid(n, c) {
        GridValueInUnit(n, c.r);
        GridValueInUnit(n, c.g);
        GridValueInUnit(n, c.b);
      }
    }
    e
  }

  /** The identity table of resolution n (n >= 2; n = 1 divides by zero). */
  function Identity(n: int): (t: Table)
    requires n >= 2
    ensures IsCube(t, n)
    ensures forall c :: InGrid(n, c) ==> At(t, c) == IdentityEntry(n, c)
    ensures forall c :: InGrid(n, c) ==> InUnit(At(t, c))
  {
    seq(n, r => seq(n, g => seq(n, b => IdentityEntry(n, Cell(r, g, b)))))
  }

  /** Quantising an identity entry gives back its own grid index, so the
      identity table is a fixed point of nearest-neighbour lookup. */
  lemma {:induction false} IdentityQuantizeRoundTrip(n: int, c: Cell)
    requires n >= 2 && InGrid(n, c)
    ensures Quantize(n, IdentityEntry(n, c)) == c
  {
    QuantizeGridValue(n, c.r);
    QuantizeGridValue(n, c.g);
    QuantizeGridValue(n, c.b);
  }
}
