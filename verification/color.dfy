/**
 Colour values, grid indices and the quantisation that maps the former onto
 the latter: clip every channel to [0, 1], scale it by N-1 and truncate it to
 an integer. Channels are exact reals; the float32 storage of the benchmark
 is not modelled.
 */
module Color {

  /** One pixel or one table entry: three real channels. */
  datatype Rgb = Rgb(r: real, g: real, b: real)

  /** A grid index (r, g, b) into an N x N x N table. */
  datatype Cell = Cell(r: int, g: int, b: int)

  /** True iff every coordinate of `c` lies in [0, n). */
  predicate InGrid(n: int, c: Cell) {
    0 <= c.r < n && 0 <= c.g < n && 0 <= c.b < n
  }

  /** True iff every channel of `p` lies in [0, 1]. */
  predicate InUnit(p: Rgb) {
    0.0 <= p.r <= 1.0 && 0.0 <= p.g <= 1.0 && 0.0 <= p.b <= 1.0
  }

  /** Sum of the coordinates: the "level" of a cell in the diagonal traversal. */
  function Sum(c: Cell): int {
    c.r + c.g + c.b
  }

  /** Clipping of one channel to [0, 1] (numpy's `clip(x, 0, 1)`). */
  function Clip(x: real): (y: real)
    ensures 0.0 <= y <= 1.0
    ensures 0.0 <= x <= 1.0 ==> y == x
    ensures y == x || (x < 0.0 && y == 0.0) || (x > 1.0 && y == 1.0)
  {
    if x < 0.0 then 0.0 else if x > 1.0 then 1.0 else x
  }

  /** Channel-wise clipping of a pixel. */
  function ClipRgb(p: Rgb): (q: Rgb)
    ensures InUnit(q)
    ensures InUnit(p) ==> q == p
  {
    Rgb(Clip(p.r), Clip(p.g), Clip(p.b))
  }

  /** Conversion of a real to an integer by truncation toward zero, as
      numpy's `astype(int)` does. */
  function Trunc(y: real): (k: int)
    ensures y >= 0.0 ==> 0 <= k && k as real <= y < k as real + 1.0
    ensures y < 0.0 ==> k <= 0 && k as real - 1.0 < y <= k as real
  {
    if y >= 0.0 then y.Floor else -((-y).Floor)
  }

  /** Truncation is the floor on non-negative values, and lies within one of
      its argument. */
  lemma TruncOfNonNegative(y: real)
    requires y >= 0.0
    ensures Trunc(y) == y.Floor
    ensures Trunc(y) as real <= y < Trunc(y) as real + 1.0
  {
  }

  /** Quantisation of one channel for a table of resolution n: clip to [0, 1],
      multiply by n-1, truncate. */
  function QuantizeChannel(n: int, x: real): (k: int)
    requires n >= 1
    ensures 0 <= k <= n - 1
    ensures x >= 1.0 ==> k == n - 1
    ensures x <= 0.0 ==> k == 0
    ensures k as real <= Clip(x) * (n - 1) as real < k as real + 1.0
  {
    var m := (n - 1) as real;
    assert m >= 0.0 by {
      assert n - 1 >= 0;
    }
    var y := Clip(x) * m;
    assert 0.0 <= y <= m by {
      ScaleBounds(Clip(x), m);
    }
    TruncOfNonNegative(y);
    Trunc(y)
  }

  /** For 0 <= x <= 1 and m >= 0, the product x * m lies in [0, m]. */
  lemma ScaleBounds(x: real, m: real)
    requires 0.0 <= x <= 1.0 && m >= 0.0
    ensures 0.0 <= x * m <= m
  {
    assert x * m <= 1.0 * m;
  }

  /** Quantisation of a pixel to its grid index. */
  function Quantize(n: int, p: Rgb): (c: Cell)
    requires n >= 1
    ensures InGrid(n, c)
    ensures c.r == QuantizeChannel(n, p.r)
    ensures c.g == QuantizeChannel(n, p.g)
    ensures c.b == QuantizeChannel(n, p.b)
  {
    Cell(QuantizeChannel(n, p.r), QuantizeChannel(n, p.g), QuantizeChannel(n, p.b))
  }

  /** An out-of-range input quantises exactly as its clipped version does. */
  lemma QuantizeIgnoresClip(n: int, p: Rgb)
    requires n >= 1
    ensures Quantize(n, ClipRgb(p)) == Quantize(n, p)
  {
  }

  /** Channel value of the grid coordinate k in a table of resolution n. */
  function GridValue(n: int, k: int): (v: real)
    requires n >= 2
    ensures v * (n - 1) as real == k as real
  {
    k as real / (n - 1) as real
  }

  /** Grid values of in-range coordinates lie in [0, 1]. */
  lemma GridValueInUnit(n: int, k: int)
    requires n >= 2 && 0 <= k < n
    ensures 0.0 <= GridValue(n, k) <= 1.0
  {
    var m := (n - 1) as real;
    assert GridValue(n, k) * m == k as real;
  }

  /** Quantisation inverts the grid value: the channel k/(n-1) maps back to
      grid coordinate k. */
  lemma {:induction false} QuantizeGridValue(n: int, k: int)
    requires n >= 2 && 0 <= k < n
    ensures QuantizeChannel(n, GridValue(n, k)) == k
  {
    GridValueInUnit(n, k);
    var m := (n - 1) as real;
    assert GridValue(n, k) * m == k as real;
    assert Clip(GridValue(n, k)) == GridValue(n, k);
  }
}
