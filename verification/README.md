# Nearest-neighbour 3D colour LUT: a Dafny model

This project models the core of a small benchmark of 3D colour lookup tables
(LUTs). The modelled parts are:

- **Identity table.** An N×N×N table whose cell (r, g, b) holds
  (r/(N−1), g/(N−1), b/(N−1)).
- **Quantisation.** A pixel is mapped to a grid cell: each channel is clipped
  to [0, 1], multiplied by N−1 and truncated.
- **Flattenings.** The table is flattened into a 1D sequence in two ways:
  - row-major order (C-order reshape);
  - the "spatially local" level order. Levels r+g+b = 0 .. 2N−1 are visited
    in turn; within a level r ascends, then g.
- **Lookups.**
  - a dense lookup, `table[r][g][b]`;
  - an unclamped row-major flat lookup;
  - two flat lookups that use the row-major offset r·N²+g·N+b on the
    level-ordered sequence, clamped with `min(i, len−1)` and with
    `np.clip(i, 0, len−1)`.

Channels are exact `real`s and indices are unbounded `int`s. Tables are
`seq<seq<seq<Rgb>>>` of shape N×N×N, and flat tables are `seq<Rgb>`. Python's
`IndexError` is the `IndexError` outcome of `Apply.Result`.

Modules:

- `Color`: channels, cells, clip, truncation, quantisation.
- `Lut`: tables and the identity table.
- `RowMajor`: offset, decoding, row-major flattening.
- `Counting`: cardinality helpers.
- `Diagonal`: the level traversal, its properties, and the loop-based
  generators.
- `Apply`: lookups, batch application, agreement and disagreement lemmas.
- `Complete`: the consistent layout described under Findings.

The traversal visits levels 0 .. 2N−1 (`range(2 * size)`,
benchmark_lut.py:16), so the level-ordered array ends with cell
(N−1, N−1, 1), from level 2N−1.

The main results:

- The row-major offset is a bijection from the grid onto [0, N³).
- Row-major flat lookup with the table's own size is exactly the dense
  lookup.
- The level traversal:
  - emits each cell at most once, in level order;
  - holds exactly the cells with r+g+b ≤ 2N−1;
  - is therefore at least N³/2 long, and shorter than N³ from N = 3 on.
- The clamped lookups never index out of bounds on a non-empty table, and
  the two clamps agree.
- The level-ordered lookup disagrees with the dense lookup at every N ≥ 2.

## Model

| member | source | states |
|---|---|---|
| `Color.Clip` | benchmark_lut.py:28 | The clipped channel lies in [0, 1]. It equals the input inside [0, 1] and saturates to 0 or 1 outside. |
| `Color.ClipRgb` | benchmark_lut.py:35 | Channel-wise clipping yields a pixel in [0, 1]³ and leaves an in-range pixel unchanged. |
| `Color.Trunc` | benchmark_lut.py:28 | `astype(int)` truncates toward zero. For y ≥ 0 the result is the non-negative integer k with k ≤ y < k+1. For y < 0 it is the non-positive k with k−1 < y ≤ k. |
| `Color.TruncOfNonNegative` | benchmark_lut.py:28 | `astype(int)` truncation equals the floor on the non-negative scaled channel, and lies within one below it. |
| `Color.QuantizeChannel` | benchmark_lut.py:28 | The index of a channel lies in [0, N−1]. A channel ≥ 1 maps to N−1 and one ≤ 0 maps to 0. Otherwise k ≤ clip(x)·(N−1) < k+1. |
| `Color.Quantize` | simulate_lut_spatial_layout.py:22-23 | Quantising a pixel yields a cell inside the N-grid, channel by channel. |
| `Color.QuantizeIgnoresClip` | benchmark_lut_row_major.py:20 | An out-of-range pixel quantises exactly as its clipped version does. |
| `Color.GridValue` | benchmark_lut.py:10 | The identity channel k/(N−1) is the value that scales back to k: v·(N−1) = k. |
| `Color.GridValueInUnit` | benchmark_lut.py:10 | Every identity channel k/(N−1) with 0 ≤ k < N lies in [0, 1]. |
| `Color.QuantizeGridValue` | benchmark_lut_row_major.py:10 | Quantising the identity channel k/(N−1) gives back k. |
| `Lut.IdentityEntry` | benchmark_lut.py:10 | The identity entry of an in-grid cell has every channel in [0, 1]. Its channels are the grid values of r, g and b. |
| `Lut.Identity` | benchmark_lut.py:5-11 | The identity table is an N-cube. Cell (r, g, b) holds (r/(N−1), g/(N−1), b/(N−1)), a function of its own coordinates only, with every channel in [0, 1]. |
| `Lut.IdentityQuantizeRoundTrip` | benchmark_lut_row_major.py:5-11 | Quantising the identity entry of a cell returns that cell, so the identity table is a fixed point of the lookup. |
| `RowMajor.OffsetInRange` | benchmark_lut_row_major.py:28 | For an in-grid cell, r·N²+g·N+b lies in [0, N³). |
| `RowMajor.OffsetInjective` | benchmark_lut_row_major.py:28 | Distinct in-grid cells have distinct offsets. |
| `RowMajor.DecodeOffset` | benchmark_lut_row_major.py:28 | Decoding an offset by div/mod by N recovers the cell. |
| `RowMajor.EncodeDecode` | benchmark_lut_row_major.py:28 | Every offset in [0, N³) decodes to an in-grid cell whose offset it is. Together with DecodeOffset, the offset is a bijection onto [0, N³). |
| `RowMajor.Offset` | benchmark_lut_row_major.py:28 | The index arithmetic r·size·size + g·size + b, shared by benchmark_lut.py:36 and simulate_lut_spatial_layout.py:25. It is a plain function; its meaning is pinned by `RowMajor.OffsetInRange`, `RowMajor.DecodeOffset` and `RowMajor.EncodeDecode`. |
| `RowMajor.LastOffset` | benchmark_lut.py:36 | The far corner (N−1, N−1, N−1) has offset N³−1. |
| `RowMajor.MirrorOffset` | benchmark_lut.py:36 | Reflecting a cell through the grid's centre maps its offset i to N³−1−i. |
| `RowMajor.FlattenLength` | benchmark_lut_row_major.py:13-14 | The row-major flattening of an N-cube has N³ entries. |
| `RowMajor.FlattenIsRowMajor` | benchmark_lut_row_major.py:13-14 | The flattening has N³ entries and holds `lut[r][g][b]` at offset r·N²+g·N+b. |
| `RowMajor.Flatten` | benchmark_lut_row_major.py:13-14 | `lut.reshape(-1, 3)` is the concatenation of the planes, rows and entries in C order. It is a plain function; `RowMajor.FlattenIsRowMajor` pins its length and contents. |
| `Diagonal.DiagonalMembers` | benchmark_lut.py:16-21 | The traversal holds exactly the in-grid cells whose level r+g+b is at most 2N−1. |
| `Diagonal.DiagonalOrdered` | benchmark_lut.py:16-21 | Cells appear by ascending level, then r, then g, so no cell appears twice. |
| `Diagonal.DiagonalSize` | benchmark_lut.py:16-22 | The traversal has at most N³ cells, exactly N³ only for N ≤ 2, and at least N³/2. |
| `Diagonal.DiagonalNonEmpty` | benchmark_lut.py:16-21 | For N ≥ 1 the traversal is non-empty and opens with (0,0,0). |
| `Diagonal.DiagonalStart` | benchmark_lut.py:19-21 | For N ≥ 2 the first two cells are (0,0,0) and (0,0,1). |
| `Diagonal.DiagonalPrefix` | simulate_lut_spatial_layout.py:13-18 | For N ≥ 4 the first 20 cells are the cells of levels 0 to 3, in traversal order. Entry 17 is (2,0,1). |
| `Diagonal.DiagonalEnd` | simulate_lut_spatial_layout.py:13-19 | For N ≥ 2 the last cell is (N−1, N−1, 1), the last cell of level 2N−1. |
| `Diagonal.FlattenDiagonalAt` | benchmark_lut.py:13-22 | Entry i of the level-ordered flat table is the table entry at the i-th traversal cell. There are at most N³ entries. |
| `Diagonal.EmitRow` | benchmark_lut.py:18-21 | The innermost loop keeps what was already emitted and appends exactly the entries of the row's in-range cells (r, g, level−r−g), in ascending g. |
| `Diagonal.EmitLevel` | benchmark_lut.py:17-21 | The middle loop keeps what was already emitted and appends exactly the entries of one level's in-grid cells, in ascending r and then g. |
| `Diagonal.FlattenByLevels` | benchmark_lut.py:13-22 | The triple loop yields the level-ordered flattening: entry i is the table entry at the i-th traversal cell, with at most N³ entries. |
| `Diagonal.GenerateSpatiallyLocal` | simulate_lut_spatial_layout.py:3-19 | The flattening of the identity table holds the identity entry of the i-th traversal cell at i. All channels are in [0, 1] and there are at most N³ entries. |
| `Diagonal.RowRun` | benchmark_lut.py:18-21 | The innermost loop: for g from a start value up to N−1, the cell (r, g, level−r−g) when its blue coordinate lies in [0, N). It is a plain function; `Diagonal.RowRunMembers` pins it. |
| `Diagonal.RowRunMembers` | benchmark_lut.py:18-20 | A row run holds exactly the cells with the given r and level, g at least the start value, and blue in [0, N). |
| `Diagonal.LevelRun` | benchmark_lut.py:17-21 | The middle loop: the row runs of one level, for r ascending. It is a plain function; `Diagonal.LevelRunMembers` pins it. |
| `Diagonal.LevelRunMembers` | benchmark_lut.py:17-20 | A level run holds exactly the in-grid cells of that level whose r is at least the start value. |
| `Diagonal.LevelsFrom` | benchmark_lut.py:16-21 | The outer loop: the level runs of the levels from a start level up to a bound, in order. It is a plain function; `Diagonal.LevelsFromMembers` pins it. |
| `Diagonal.LevelsFromMembers` | benchmark_lut.py:16-20 | The levels from `level` below `top` hold exactly the in-grid cells whose coordinate sum lies in [level, top). |
| `Diagonal.DiagonalOrder` | benchmark_lut.py:16 | The complete traversal, levels 0 .. 2N−1 as `range(2 * size)` gives. It is a plain function; `Diagonal.DiagonalMembers` and `Diagonal.DiagonalOrdered` pin it. |
| `Diagonal.FlattenDiagonal` | benchmark_lut.py:13-22 | The level-ordered flat table has one entry per traversal cell. Entry i is the table entry at the i-th cell of the traversal. |
| `Apply.DenseLookup` | benchmark_lut.py:28-29 | The dense lookup returns the entry of some in-grid cell. |
| `Apply.ApplyStandard` | benchmark_lut.py:24-30 | There is one result per input, in input order, each the dense lookup of its pixel. |
| `Apply.FlatIndex` | benchmark_lut_row_major.py:27-28 | The unclamped flat index of any pixel lies in [0, size³). |
| `Apply.RowMajorLookup` | benchmark_lut_row_major.py:27-29 | The unclamped lookup succeeds iff the index is below the flat length. It then returns that entry; otherwise it raises IndexError at that index. |
| `Apply.ApplyEach` | benchmark_lut_row_major.py:25-30 | A per-pixel loop succeeds iff every pixel succeeds, returning one result per input in order. Otherwise it fails with the first failing pixel's error. |
| `Apply.ApplyFlatRowMajor` | benchmark_lut_row_major.py:24-30 | The batch succeeds iff every index is below the flat length, and always does when the flat table has size³ entries. The results are the entries at the indices. |
| `Apply.DiagonalLookup` | benchmark_lut.py:35-38 | The `min`-clamped lookup fails only on an empty flat table. An index inside the table is used as is; one past the end returns the last entry. |
| `Apply.ApplyFlat` | benchmark_lut.py:32-39 | apply_3dlut_flat succeeds iff the flat table is non-empty or there are no inputs. It returns one clamped lookup per input, in order. |
| `Apply.MinClamp` | benchmark_lut.py:37 | Python's `min(i, len−1)` is at most both arguments and equals one of them. |
| `Apply.IndexFlat` | benchmark_lut.py:38 | Python indexing of a sequence. It succeeds iff −len ≤ j < len. A non-negative j reads entry j, and a negative j reads entry len+j, counting from the end. Any other j is an IndexError at j. |
| `Apply.SpatialLookup` | simulate_lut_spatial_layout.py:21-27 | The `np.clip`-clamped lookup fails only on an empty flat table, and never indexes out of bounds otherwise. |
| `Apply.ClipIndex` | simulate_lut_spatial_layout.py:26 | numpy's `clip(i, lo, hi)`. With lo ≤ hi the result lies in [lo, hi]: it is i inside the range, lo below it and hi above it. With lo > hi every value becomes hi. |
| `Apply.SpatialIsDiagonal` | simulate_lut_spatial_layout.py:25-26 | The `np.clip` lookup returns exactly what the `min` lookup returns, for every pixel and flat table. |
| `Apply.RowMajorMatchesDense` | benchmark_lut_row_major.py:16-29 | On the row-major flattening with size N, the flat lookup of every pixel equals the dense lookup. |
| `Apply.ApplyRowMajorMatchesStandard` | benchmark_lut_row_major.py:16-30 | With size equal to the table's resolution, apply_flat_lut_row_major returns exactly apply_3dlut_standard's results, for every input. |
| `Apply.RowMajorBenchmarkSize` | benchmark_lut_row_major.py:32-43 | At the benchmark's call site (size 33 passed explicitly) the flat and dense results agree. Relying on the default 65 would raise IndexError at 274624 for a white pixel. |
| `Apply.DiagonalNeverFails` | benchmark_lut.py:36-38 | On the level-ordered flattening of any non-empty cube, apply_3dlut_flat succeeds with one result per input. |
| `Apply.DiagonalMatchesAtStart` | benchmark_lut.py:36-38 | Pixels in cells (0,0,0) and (0,0,1) get the dense result from the level-ordered lookup. |
| `Apply.SaturatedLookup` | simulate_lut_spatial_layout.py:25-27 | A pixel whose index is at or past the end gets the entry of the last cell, (N−1, N−1, 1). |
| `Apply.WhitePastEnd` | benchmark_lut.py:36-37 | For N ≥ 3 a white pixel's index N³−1 lies past the end of the level-ordered table. |
| `Apply.WhiteDisagrees` | benchmark_lut.py:36-38 | For N ≥ 3 a white pixel gets (1, 1, 1/(N−1)) from the level-ordered identity table, but (1, 1, 1) from the dense lookup. |
| `Apply.TwoDisagrees` | benchmark_lut.py:19-21 | For N = 2 the pixel (0, 1, 1) gets cell (1, 0, 0)'s entry from the level-ordered table. |
| `Apply.DiagonalDisagrees` | benchmark_lut.py:32-39 | For every N ≥ 2 some pixel gets a different result from the level-ordered lookup than from the dense lookup. |
| `Apply.DiagonalTwo` | benchmark_lut.py:16-21 | For N = 2 the traversal has 8 cells and opens with (0,0,0), (0,0,1), (0,1,0), (1,0,0). |
| `Apply.ChannelError` | benchmark_lut.py:28 | A channel's index is floor(clip(x)·(N−1)). Its grid value is at most the clipped channel and less than one grid step below it. |
| `Apply.IdentityLookup` | benchmark_lut.py:24-30 | The dense identity lookup returns the identity entry of the pixel's cell. It lies in [0, 1]³ and within one grid step below the clipped pixel, channel by channel. |
| `Apply.LowerHalfUnclamped` | simulate_lut_spatial_layout.py:25-27 | A pixel whose index lies in the lower half of N³ is looked up without clamping. |
| `Apply.SpatialExample` | simulate_lut_spatial_layout.py:31-34 | At N = 17 the pixel (0.5, 0.25, 0.75) falls in cell (8, 4, 12) with index 2392, inside the lower half of 4913. |
| `Apply.SaturatedExample` | simulate_lut_spatial_layout.py:25-27 | At N = 17 a white pixel's index is 4912, and the last cell's blue value is 1/16. |
| `Apply.Entry17` | benchmark_lut.py:36-38 | For N ≥ 4 a pixel with index 17 gets the entry of cell (2, 0, 1). |
| `Apply.MiddleExample` | benchmark_lut.py:35-36 | At N = 17 the pixel (0, 1/16, 0) falls in cell (0, 1, 0) with index 17. |
| `Apply.MiddleLookup` | benchmark_lut.py:35-38 | For every table of resolution 17, the pixel (0, 1/16, 0) has dense result cell (0, 1, 0)'s entry. The diagonal flat lookup returns cell (2, 0, 1)'s entry instead. |
| `Apply.SpatialOutputInUnit` | simulate_lut_spatial_layout.py:21-27 | On the level-ordered identity table the lookup always succeeds. It returns the identity entry of some grid cell, so every channel lies in [0, 1]. |
| `Complete.CompleteIsEnumeration` | benchmark_lut.py:16-21 | Running the traversal through level 3N−3 enumerates the whole grid: every cell exactly once, N³ cells, in level order. |
| `Complete.CompleteOrder` | benchmark_lut.py:16-21 | The corrected traversal: the same loops run through level 3N−3 instead of stopping at 2N−1. It is a plain function; `Complete.CompleteIsEnumeration` pins it as an ordered enumeration of all N³ cells. |
| `Complete.FlattenComplete` | benchmark_lut.py:13-22 | The corrected flattening has one entry per cell of the corrected traversal, the table entry at that cell; by `Complete.CompleteIsEnumeration` that makes N³ entries. |
| `Complete.CompleteLookup` | benchmark_lut.py:36-38 | The corrected lookup reads the flat table at the position of the pixel's cell in the complete traversal. It succeeds iff that position lies inside the table. Otherwise it is an IndexError at that position. |
| `Complete.Position` | benchmark_lut.py:36 | The linear search returns the first position of the cell in the traversal, or the length exactly when the cell is absent. |
| `Complete.CompleteMatchesDense` | benchmark_lut.py:36-38 | Looking a pixel up by its cell's position in the complete traversal returns the dense lookup. |
| `Complete.ApplyCompleteMatchesStandard` | benchmark_lut.py:32-39 | Batched, the position-based lookup returns exactly apply_3dlut_standard's results. |

## Left out

- Timing and throughput are left out: `time.time()` and the division by the
  elapsed seconds are wall-clock I/O.
- Random test data (`np.random.rand`) is left out. Batch lemmas hold for
  every input sequence instead.
- The pandas DataFrame, `print` and the `__main__` blocks are left out; they
  only report. The example pixel of the spatial-layout script appears as
  `Apply.SpatialExample`.
- float32 storage, rounding, NaN and infinities are not modelled. Channels
  are exact reals, and truncation is modelled exactly.
- N < 2 for the identity table is left out. `r / (size - 1)` raises
  ZeroDivisionError at N = 1, so `Lut.Identity` requires N ≥ 2.
- A `size` argument below 1 in the flat lookups is left out. With size 0 the
  scaled channel is negative, and numpy would wrap the index around, so the
  lookups require size ≥ 1.
- An empty dense table is left out. It raises IndexError in
  apply_3dlut_standard, and `Apply.DenseLookup` requires at least one cell.
- numpy's array shapes and broadcasting are modelled only as nested
  sequences of triples.
- Apply.FlatIndex: indices are unbounded integers, so numpy's int64
  arithmetic in r·size·size + g·size + b (benchmark_lut_row_major.py:27-28,
  benchmark_lut.py:35-36, simulate_lut_spatial_layout.py:23-25) is not
  modelled. That arithmetic wraps around only for size above 2^21 =
  2,097,152, where the table would hold more than 2^63 entries. No table
  that fits in memory reaches that, but beyond it the range [0, size³) no
  longer describes the program.
- Apply.ApplyFlatRowMajor: for the same reason, "fails iff some index is at
  least the flat length" assumes that no int64 wrap-around occurs.
- Diagonal.DiagonalSize: proves N³/2 ≤ length < N³ for N ≥ 3, not the exact
  count N³ − N(N−1)(N−2)/6 (4233 for N = 17). The exact count needs the
  number of grid points above level 2N−1, a tetrahedral count of
  N(N−1)(N−2)/6 cells, and that counting proof is not part of this model.
  The bounds come from the injective offsets and from the reflection
  (r, g, b) ↦ (N−1−r, N−1−g, N−1−b), which maps the cells that are left out
  into the traversal.
- Apply.SpatialExample: states the quantisation, the index 2392 and the
  lower-half condition. The no-clamping conclusion comes from
  `Apply.LowerHalfUnclamped`, since stating it at the literal N = 17 makes
  the verifier unfold the whole traversal.
- Apply.SaturatedExample: states the index 4912 and the value 1/16. The
  returned entry (1, 1, 1/16) comes from `Apply.WhiteDisagrees` at N = 17,
  for the same reason.

## Findings

| source | as written | input that shows it | evidently intended | confidence | as-written member | corrected member |
|---|---|---|---|---|---|---|
| benchmark_lut.py:36-38 | The flat table is filled in level order, and only up to level 2N−1. It is read at the row-major offset r·N²+g·N+b, clamped to the last entry. The same happens at simulate_lut_spatial_layout.py:25-27. | N = 17, pixel (1, 1, 1): returns (1, 1, 1/16) instead of (1, 1, 1). Pixel (0, 1/16, 0): returns cell (2, 0, 1)'s entry instead of (0, 1, 0)'s. | The flat lookup returns the same entry as the dense lookup, using an index consistent with the layout that filled the table. | high; not executed | `Apply.DiagonalDisagrees` | `Complete.CompleteMatchesDense` |
