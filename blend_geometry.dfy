/**
 * The blend geometry behind `ProjectorUtilityController.GetAdjustedPosition`, as
 * functions of a snapshot of the tile grid, with the lemmas that say what it means.
 *
 * Tiles are stored row-major: the tile in column `c` and row `r` of a grid with
 * `cols` columns has id `c + r * cols`. The position is remapped by accumulating, on
 * each side of the grid's centre line, the blend fractions of the seams that lie
 * between the owning tile and the centre, and then compressing the position into the
 * range those margins leave free.
 */
module BlendGeometry {
  import opened UnityMath
  import opened ScreenModel

  /** A grid of `cols` x `rows` tiles, one entity per tile. */
  predicate GridShape(tiles: seq<ScreenSettingEntity>, cols: int, rows: int)
  {
    cols >= 1 && rows >= 1 && |tiles| == cols * rows
  }

  /** The index of tile number `j` on a line of tiles that starts at `base` and advances by `stride`. */
  function TileIndex(base: int, stride: int, j: int): int
  {
    base + j * stride
  }

  /** Every tile `j` in `[lo, hi)` of the line exists in a list of `n` tiles. */
  predicate LineInBounds(n: int, base: int, stride: int, lo: int, hi: int)
  {
    forall j :: lo <= j < hi ==> 0 <= TileIndex(base, stride, j) < n
  }

  /** Sum of the `e` blends of the tiles `j` in `[lo, hi)` of a line. */
  function EdgeSum(tiles: seq<ScreenSettingEntity>, e: Edge, base: int, stride: int, lo: int, hi: int): real
    requires LineInBounds(|tiles|, base, stride, lo, hi)
    decreases hi - lo
  {
    if hi <= lo then 0.0
    else EdgeSum(tiles, e, base, stride, lo, hi - 1) + Blend(tiles[TileIndex(base, stride, hi - 1)], e)
  }

  /** Peeling the first tile off a sum (the sums are built from the last tile). */
  lemma {:induction false} EdgeSumPrepend(tiles: seq<ScreenSettingEntity>, e: Edge, base: int, stride: int, lo: int, hi: int)
    requires lo < hi && LineInBounds(|tiles|, base, stride, lo, hi)
    ensures EdgeSum(tiles, e, base, stride, lo, hi)
         == Blend(tiles[TileIndex(base, stride, lo)], e) + EdgeSum(tiles, e, base, stride, lo + 1, hi)
    decreases hi - lo
  {
    if lo + 1 < hi {
      EdgeSumPrepend(tiles, e, base, stride, lo, hi - 1);
    }
  }

  /** A line whose `e` blends are all zero sums to zero. */
  lemma {:induction false} EdgeSumOfZeros(tiles: seq<ScreenSettingEntity>, e: Edge, base: int, stride: int, lo: int, hi: int)
    requires LineInBounds(|tiles|, base, stride, lo, hi)
    requires forall i :: 0 <= i < |tiles| ==> Blend(tiles[i], e) == 0.0
    ensures EdgeSum(tiles, e, base, stride, lo, hi) == 0.0
    decreases hi - lo
  {
    if lo < hi {
      EdgeSumOfZeros(tiles, e, base, stride, lo, hi - 1);
    }
  }

  /** A sum depends only on the `e` blends of the tiles on its line. */
  lemma {:induction false} EdgeSumFrame(tiles: seq<ScreenSettingEntity>, other: seq<ScreenSettingEntity>, e: Edge,
                                        base: int, stride: int, lo: int, hi: int)
    requires LineInBounds(|tiles|, base, stride, lo, hi) && LineInBounds(|other|, base, stride, lo, hi)
    requires forall j :: lo <= j < hi ==>
      Blend(tiles[TileIndex(base, stride, j)], e) == Blend(other[TileIndex(base, stride, j)], e)
    ensures EdgeSum(tiles, e, base, stride, lo, hi) == EdgeSum(other, e, base, stride, lo, hi)
    decreases hi - lo
  {
    if lo < hi {
      EdgeSumFrame(tiles, other, e, base, stride, lo, hi - 1);
    }
  }

  /** Horizontal margins use left/right blends, vertical margins top/bottom blends. */
  datatype Axis = Horizontal | Vertical

  /** The edge facing the start of the line: left for a row, top for a column. */
  function NearEdge(a: Axis): Edge
  {
    if a.Horizontal? then Left else Top
  }

  /** The edge facing the end of the line: right for a row, bottom for a column. */
  function FarEdge(a: Axis): Edge
  {
    if a.Horizontal? then Right else Bottom
  }

  /**
   * The row or column through the owning tile: tile `j` of the line has index
   * `base + j * stride`, the line has `length` tiles and the owning tile is number `pos`.
   */
  datatype Line = Line(base: int, stride: int, length: int, pos: int)

  /** The row through the owning tile: `screenID + i` is tile `currentCol + i`. */
  function RowThrough(cols: int, col: int, row: int): (l: Line)
    ensures TileIndex(l.base, l.stride, l.pos) == col + row * cols
  {
    Line(row * cols, 1, cols, col)
  }

  /** The column through the owning tile: `screenID + i * cols` is tile `currentRow + i`. */
  function ColumnThrough(cols: int, rows: int, col: int, row: int): (l: Line)
    ensures TileIndex(l.base, l.stride, l.pos) == col + row * cols
  {
    Line(col, cols, rows, row)
  }

  /** `leftOverlapCount`/`upperOverlapCount` and `rightOverlapCount`/`lowerOverlapCount`. */
  datatype OverlapCounts = OverlapCounts(before: int, after: int)

  /**
   * `FloorToInt(length / 2f) - pos` and `pos + 1 - CeilToInt(length / 2f)`: at most one
   * side of the centre line needs accumulating, and the centre tile of an odd line has
   * nothing to accumulate on either side.
   */
  function Overlaps(length: int, pos: int): (k: OverlapCounts)
    requires length >= 1
    ensures k.before == length / 2 - pos && k.after == pos + 1 - (length + 1) / 2
    ensures !(k.before > 0 && k.after > 0)
    ensures length % 2 == 1 && pos == length / 2 ==> k.before == 0 && k.after == 0
  {
    var half := length as real / 2.0;
    assert (length / 2) as real <= half < (length / 2) as real + 1.0;
    assert ((length + 1) / 2) as real - 1.0 < half <= ((length + 1) / 2) as real;
    OverlapCounts(FloorToInt(half) - pos, pos + 1 - CeilToInt(half))
  }

  /** One past the last tile whose near edge the "before" loop reads: the centre seam of an even line is skipped. */
  function BeforeNearEnd(length: int): int
  {
    (length - 1) / 2 + 1
  }

  /** Every tile the "before" loop reads exists: far edges of `[pos, length/2)`, near edges of `[pos+1, BeforeNearEnd)`. */
  predicate BeforeInBounds(n: int, l: Line)
  {
    && LineInBounds(n, l.base, l.stride, l.pos, l.length / 2)
    && LineInBounds(n, l.base, l.stride, l.pos + 1, BeforeNearEnd(l.length))
  }

  /** Every tile the "after" loop reads exists: near edges of `[(length+1)/2, pos+1)`, far edges of `[length/2, pos)`. */
  predicate AfterInBounds(n: int, l: Line)
  {
    && LineInBounds(n, l.base, l.stride, (l.length + 1) / 2, l.pos + 1)
    && LineInBounds(n, l.base, l.stride, l.length / 2, l.pos)
  }

  /**
   * The margin between the start of the line and the centre, seen from the owning tile
   * (`leftBlends`, `upperBlends`); a tile at or past the centre has none.
   */
  function BeforeMargin(tiles: seq<ScreenSettingEntity>, a: Axis, l: Line): (r: real)
    requires BeforeInBounds(|tiles|, l)
    ensures l.pos >= l.length / 2 ==> r == 0.0
  {
    EdgeSum(tiles, FarEdge(a), l.base, l.stride, l.pos, l.length / 2)
    + EdgeSum(tiles, NearEdge(a), l.base, l.stride, l.pos + 1, BeforeNearEnd(l.length))
  }

  /**
   * The margin between the centre and the end of the line, seen from the owning tile
   * (`rightBlends`, `lowerBlends`); a tile before the centre, or the centre tile of an odd
   * line, has none.
   */
  function AfterMargin(tiles: seq<ScreenSettingEntity>, a: Axis, l: Line): (r: real)
    requires AfterInBounds(|tiles|, l)
    ensures l.pos < (l.length + 1) / 2 ==> r == 0.0
  {
    EdgeSum(tiles, NearEdge(a), l.base, l.stride, (l.length + 1) / 2, l.pos + 1)
    + EdgeSum(tiles, FarEdge(a), l.base, l.stride, l.length / 2, l.pos)
  }

  /** Outcome of `GetAdjustedPosition`: a position, or the `ArgumentOutOfRangeException` of a list read. */
  datatype Remap = Position(p: Vector2) | IndexOutOfRange

  /** The column of the owning tile: `FloorToInt(x / (1 / cols))`, which is `floor(x * cols)` over the reals. */
  function OwningCol(position: Vector2, cols: int): (c: int)
    ensures c as real <= position.x * cols as real < c as real + 1.0
  {
    FloorToInt(position.x * cols as real)
  }

  /** The row of the owning tile, after the y flip of the shader's uv convention. */
  function OwningRow(position: Vector2, rows: int): (r: int)
    ensures r as real <= (1.0 - position.y) * rows as real < r as real + 1.0
  {
    FloorToInt((1.0 - position.y) * rows as real)
  }

  /** The id of the tile that owns `position` (`screenID`). */
  function OwningId(position: Vector2, cols: int, rows: int): int
  {
    OwningCol(position, cols) + OwningRow(position, rows) * cols
  }

  /** Every tile the four margin loops read on the two lines through tile `(col, row)` exists. */
  predicate MarginsInBounds(n: int, cols: int, rows: int, col: int, row: int)
  {
    && BeforeInBounds(n, RowThrough(cols, col, row)) && AfterInBounds(n, RowThrough(cols, col, row))
    && BeforeInBounds(n, ColumnThrough(cols, rows, col, row)) && AfterInBounds(n, ColumnThrough(cols, rows, col, row))
  }

  /** Everything `GetAdjustedPosition` reads on both lines through the owning tile exists, and so does the tile. */
  predicate ReadsInBounds(n: int, cols: int, rows: int, col: int, row: int)
  {
    MarginsInBounds(n, cols, rows, col, row) && 0 <= col + row * cols < n
  }

  /** `leftBlends`, `rightBlends`, `upperBlends` and `lowerBlends`. */
  datatype Margins = Margins(left: real, right: real, upper: real, lower: real)

  /**
   * The four margins of the row and the column through tile `(col, row)`. On each line at
   * most one side of the centre contributes, so at most one margin of each pair is non-zero.
   */
  function TileMargins(tiles: seq<ScreenSettingEntity>, cols: int, rows: int, col: int, row: int): (m: Margins)
    requires MarginsInBounds(|tiles|, cols, rows, col, row)
    ensures m.left == 0.0 || m.right == 0.0
    ensures m.upper == 0.0 || m.lower == 0.0
    ensures m.left == BeforeMargin(tiles, Horizontal, RowThrough(cols, col, row))
    ensures m.right == AfterMargin(tiles, Horizontal, RowThrough(cols, col, row))
    ensures m.upper == BeforeMargin(tiles, Vertical, ColumnThrough(cols, rows, col, row))
    ensures m.lower == AfterMargin(tiles, Vertical, ColumnThrough(cols, rows, col, row))
  {
    var h, v := RowThrough(cols, col, row), ColumnThrough(cols, rows, col, row);
    Margins(BeforeMargin(tiles, Horizontal, h), AfterMargin(tiles, Horizontal, h),
            BeforeMargin(tiles, Vertical, v), AfterMargin(tiles, Vertical, v))
  }

  /**
   * `LerpedInputMode`: the position `(px, py)` (y already flipped) compressed into
   * `[left, 1 - right] x [upper, 1 - lower]`; with no margins a unit-square position stays.
   */
  function Compressed(m: Margins, px: real, py: real): (q: Vector2)
    ensures m.left <= 1.0 - m.right ==> m.left <= q.x <= 1.0 - m.right
    ensures m.upper <= 1.0 - m.lower ==> m.upper <= q.y <= 1.0 - m.lower
    ensures m == Margins(0.0, 0.0, 0.0, 0.0) && 0.0 <= px <= 1.0 && 0.0 <= py <= 1.0 ==> q == Vector2(px, py)
  {
    LerpBetween(m.left, 1.0 - m.right, px);
    LerpBetween(m.upper, 1.0 - m.lower, py);
    Vector2(Lerp(m.left, 1.0 - m.right, px), Lerp(m.upper, 1.0 - m.lower, py))
  }

  /**
   * The position `(px, py)` (y already flipped) inside the margins `m`, shifted by `shift`
   * and flipped back. `lerped` selects `LerpedInputMode`: the position is then compressed
   * into `[left, 1 - right] x [upper, 1 - lower]`; otherwise the margins are added to and
   * subtracted from it.
   */
  function Reframed(m: Margins, lerped: bool, px: real, py: real, shift: Vector2): (r: Vector2)
    ensures lerped && m.left <= 1.0 - m.right ==> m.left + shift.x <= r.x <= 1.0 - m.right + shift.x
    ensures lerped && m.upper <= 1.0 - m.lower ==> m.lower - shift.y <= r.y <= 1.0 - m.upper - shift.y
    ensures !lerped ==> r.x - px == m.left - m.right + shift.x && (1.0 - r.y) - py == m.upper - m.lower + shift.y
    ensures m == Margins(0.0, 0.0, 0.0, 0.0) && shift == Zero && 0.0 <= px <= 1.0 && 0.0 <= py <= 1.0 ==>
      r == Vector2(px, 1.0 - py)
  {
    var q := if lerped then Compressed(m, px, py)
             else Vector2(px + m.left - m.right, py + m.upper - m.lower);
    var s := Add(q, shift);
    Vector2(s.x, 1.0 - s.y)
  }

  /** The remapped position once the owning tile `(col, row)` is known. */
  function RemappedAt(tiles: seq<ScreenSettingEntity>, cols: int, rows: int, lerped: bool, position: Vector2,
                      col: int, row: int): (r: Remap)
    requires GridShape(tiles, cols, rows)
    ensures col + row * cols >= cols * rows ==> r == Position(One)
    ensures r == IndexOutOfRange <==> col + row * cols < cols * rows && !ReadsInBounds(|tiles|, cols, rows, col, row)
  {
    var id := col + row * cols;
    if id >= cols * rows then Position(One)
    else if !ReadsInBounds(|tiles|, cols, rows, col, row) then IndexOutOfRange
    else Position(Reframed(TileMargins(tiles, cols, rows, col, row), lerped,
                           position.x, 1.0 - position.y, tiles[id].uvShift))
  }

  /** The remapped position: unchanged on a single screen, otherwise remapped through the owning tile. */
  function Remapped(tiles: seq<ScreenSettingEntity>, cols: int, rows: int, lerped: bool, position: Vector2): (r: Remap)
    requires GridShape(tiles, cols, rows)
    ensures cols * rows == 1 ==> r == Position(position)
    ensures cols * rows != 1 && OwningId(position, cols, rows) >= cols * rows ==> r == Position(One)
    ensures r == IndexOutOfRange ==>
      !ReadsInBounds(|tiles|, cols, rows, OwningCol(position, cols), OwningRow(position, rows))
  {
    if cols * rows == 1 then Position(position)
    else RemappedAt(tiles, cols, rows, lerped, position, OwningCol(position, cols), OwningRow(position, rows))
  }

  // ---------------------------------------------------------------------------
  // Index safety
  //
  // `MulMonotone`, `RealMulBounds` and, further down, `TileIndexInjective` are arithmetic
  // proof helpers for the lemmas about the grid.

  lemma MulMonotone(x: int, y: int, s: int)
    requires x <= y && s >= 0
    ensures x * s <= y * s
  {
    assert y * s - x * s == (y - x) * s;
  }

  lemma RealMulBounds(p: real, k: int)
    requires 0.0 <= p <= 1.0 && k >= 1
    ensures 0.0 <= p * k as real <= k as real
    ensures p < 1.0 ==> p * k as real < k as real
    ensures p > 0.0 ==> p * k as real > 0.0
  {
    MulNonNegative(p, k as real);
    MulNonNegative(1.0 - p, k as real);
    assert k as real - p * k as real == (1.0 - p) * k as real;
  }

  /** A line with a non-negative stride is in bounds when its first and last tiles are. */
  lemma LineInBoundsByEnds(n: int, base: int, stride: int, lo: int, hi: int)
    requires stride >= 0
    requires lo < hi ==> 0 <= TileIndex(base, stride, lo) && TileIndex(base, stride, hi - 1) < n
    ensures LineInBounds(n, base, stride, lo, hi)
  {
    forall j | lo <= j < hi
      ensures 0 <= TileIndex(base, stride, j) < n
    {
      MulMonotone(lo, j, stride);
      MulMonotone(j, hi - 1, stride);
    }
  }

  /** No tile index of `[lo, hi)` leaves `[0, length)`: the line's reads stay on that row or column. */
  predicate RangeWithin(lo: int, hi: int, length: int)
  {
    hi <= lo || (0 <= lo && hi <= length)
  }

  /** Every tile the two loops read lies on the line itself. */
  predicate ReadsWithinLine(l: Line)
  {
    && RangeWithin(l.pos, l.length / 2, l.length)
    && RangeWithin(l.pos + 1, BeforeNearEnd(l.length), l.length)
    && RangeWithin((l.length + 1) / 2, l.pos + 1, l.length)
    && RangeWithin(l.length / 2, l.pos, l.length)
  }

  /** The owning tile's column and row for a position in the viewport square. */
  lemma OwningTileInViewport(position: Vector2, cols: int, rows: int)
    requires cols >= 1 && rows >= 1
    requires 0.0 <= position.x <= 1.0 && 0.0 <= position.y <= 1.0
    ensures 0 <= OwningCol(position, cols) <= cols && 0 <= OwningRow(position, rows) <= rows
    ensures position.x < 1.0 ==> OwningCol(position, cols) < cols
    ensures position.y > 0.0 ==> OwningRow(position, rows) < rows
  {
    RealMulBounds(position.x, cols);
    RealMulBounds(1.0 - position.y, rows);
  }

  /**
   * Index safety: for a position in the viewport square `[0,1] x [0,1]` no list read of
   * `GetAdjustedPosition` is out of range, because either the position is saturated by the
   * sentinel or every `screenID +- k` it reads is a tile of the grid. Away from the right
   * and bottom borders (`x < 1`, `y > 0`) the horizontal reads stay in the owning row and
   * the vertical reads in the owning column.
   */
  lemma {:induction false} ViewportReadsInBounds(tiles: seq<ScreenSettingEntity>, cols: int, rows: int, position: Vector2)
    requires GridShape(tiles, cols, rows)
    requires 0.0 <= position.x <= 1.0 && 0.0 <= position.y <= 1.0
    ensures OwningId(position, cols, rows) < cols * rows ==>
      ReadsInBounds(|tiles|, cols, rows, OwningCol(position, cols), OwningRow(position, rows))
    ensures forall lerped :: Remapped(tiles, cols, rows, lerped, position) != IndexOutOfRange
    ensures position.x < 1.0 && position.y > 0.0 ==>
      && ReadsWithinLine(RowThrough(cols, OwningCol(position, cols), OwningRow(position, rows)))
      && ReadsWithinLine(ColumnThrough(cols, rows, OwningCol(position, cols), OwningRow(position, rows)))
  {
    var col, row := OwningCol(position, cols), OwningRow(position, rows);
    OwningTileInViewport(position, cols, rows);
    if col + row * cols < cols * rows {
      OwnLinesInBounds(cols, rows, col, row);
    }
  }

  /** For an owning tile `(col, row)` with `0 <= col <= cols` and an id below the tile count, every read exists. */
  lemma OwnLinesInBounds(cols: int, rows: int, col: int, row: int)
    requires cols >= 1 && rows >= 1 && 0 <= col <= cols && 0 <= row
    requires col + row * cols < cols * rows
    ensures row < rows
    ensures ReadsInBounds(cols * rows, cols, rows, col, row)
  {
    if row >= rows {
      MulMonotone(rows, row, cols);
      assert false;
    }
    RowInBounds(cols, rows, col, row);
    ColumnInBounds(cols, rows, col, row);
  }

  lemma RowInBounds(cols: int, rows: int, col: int, row: int)
    requires cols >= 1 && rows >= 1 && 0 <= col <= cols && 0 <= row < rows
    requires col + row * cols < cols * rows
    ensures BeforeInBounds(cols * rows, RowThrough(cols, col, row))
    ensures AfterInBounds(cols * rows, RowThrough(cols, col, row))
  {
    var n := cols * rows;
    MulMonotone(row + 1, rows, cols);
    assert (row + 1) * cols == row * cols + cols;
    MulMonotone(0, row, cols);
    var b := row * cols;
    LineInBoundsByEnds(n, b, 1, col, cols / 2);
    LineInBoundsByEnds(n, b, 1, col + 1, BeforeNearEnd(cols));
    LineInBoundsByEnds(n, b, 1, (cols + 1) / 2, col + 1);
    LineInBoundsByEnds(n, b, 1, cols / 2, col);
  }

  lemma ColumnInBounds(cols: int, rows: int, col: int, row: int)
    requires cols >= 1 && rows >= 1 && 0 <= col <= cols && 0 <= row < rows
    requires col + row * cols < cols * rows
    ensures BeforeInBounds(cols * rows, ColumnThrough(cols, rows, col, row))
    ensures AfterInBounds(cols * rows, ColumnThrough(cols, rows, col, row))
  {
    var n := cols * rows;
    VerticalEnds(cols, rows, col, row);
    LineInBoundsByEnds(n, col, cols, row, rows / 2);
    LineInBoundsByEnds(n, col, cols, row + 1, BeforeNearEnd(rows));
    LineInBoundsByEnds(n, col, cols, (rows + 1) / 2, row + 1);
    LineInBoundsByEnds(n, col, cols, rows / 2, row);
  }

  /** The end tiles of the four ranges of the column through the owning tile. */
  lemma VerticalEnds(cols: int, rows: int, col: int, row: int)
    requires cols >= 1 && rows >= 1 && 0 <= col <= cols && 0 <= row < rows
    requires col + row * cols < cols * rows
    ensures row < rows / 2 ==> 0 <= TileIndex(col, cols, row) && TileIndex(col, cols, rows / 2 - 1) < cols * rows
    ensures row + 1 < BeforeNearEnd(rows) ==>
      0 <= TileIndex(col, cols, row + 1) && TileIndex(col, cols, BeforeNearEnd(rows) - 1) < cols * rows
    ensures (rows + 1) / 2 < row + 1 ==>
      0 <= TileIndex(col, cols, (rows + 1) / 2) && TileIndex(col, cols, row) < cols * rows
    ensures rows / 2 < row ==> 0 <= TileIndex(col, cols, rows / 2) && TileIndex(col, cols, row - 1) < cols * rows
  {
    MulMonotone(0, row, cols);
    MulMonotone(0, rows / 2, cols);
    MulMonotone(0, (rows + 1) / 2, cols);
    if row < rows / 2 {
      // col + (rows/2 - 1) * cols <= (rows/2) * cols <= (rows - 1) * cols
      assert TileIndex(col, cols, rows / 2 - 1) == col - cols + (rows / 2) * cols;
      MulMonotone(rows / 2, rows - 1, cols);
      assert (rows - 1) * cols == rows * cols - cols;
    }
    if row + 1 < BeforeNearEnd(rows) {
      var j := BeforeNearEnd(rows) - 1;
      MulMonotone(0, row + 1, cols);
      MulMonotone(j + 1, rows - 1, cols);
      assert (j + 1) * cols == j * cols + cols;
      assert (rows - 1) * cols == rows * cols - cols;
    }
    if (rows + 1) / 2 < row + 1 {
      assert TileIndex(col, cols, row) == col + row * cols;
    }
    if rows / 2 < row {
      assert TileIndex(col, cols, row - 1) == col + row * cols - cols;
    }
  }

  /**
   * The right border, `x = 1`, on a row other than the last: the owning id is the first
   * tile of the next row, which is below the tile count, so the sentinel does not fire and
   * the "after" loop of the row reads that tile, outside the row of the position.
   */
  lemma RightBorderUsesNextRow(tiles: seq<ScreenSettingEntity>, cols: int, rows: int, position: Vector2)
    requires GridShape(tiles, cols, rows)
    requires position.x == 1.0 && 0.0 <= position.y <= 1.0
    requires OwningRow(position, rows) < rows - 1
    ensures OwningCol(position, cols) == cols
    ensures OwningId(position, cols, rows) == (OwningRow(position, rows) + 1) * cols < cols * rows
    ensures !ReadsWithinLine(RowThrough(cols, cols, OwningRow(position, rows)))
    ensures forall lerped :: Remapped(tiles, cols, rows, lerped, position) != IndexOutOfRange
  {
    var row := OwningRow(position, rows);
    OwningTileInViewport(position, cols, rows);
    assert position.x * cols as real == cols as real;
    MulMonotone(row + 2, rows, cols);
    assert (row + 2) * cols == (row + 1) * cols + cols;
    ViewportReadsInBounds(tiles, cols, rows, position);
  }

  // ---------------------------------------------------------------------------
  // Identity cases

  /**
   * With every blend and every uv shift zero, a position in the viewport (`0 <= x < 1`,
   * `0 < y <= 1`) comes back unchanged in both input modes.
   */
  lemma {:induction false} ZeroBlendsAreIdentity(tiles: seq<ScreenSettingEntity>, cols: int, rows: int, lerped: bool, position: Vector2)
    requires GridShape(tiles, cols, rows)
    requires forall i, e :: 0 <= i < |tiles| ==> Blend(tiles[i], e) == 0.0
    requires forall i :: 0 <= i < |tiles| ==> tiles[i].uvShift == Zero
    requires 0.0 <= position.x < 1.0 && 0.0 < position.y <= 1.0
    ensures Remapped(tiles, cols, rows, lerped, position) == Position(position)
  {
    if cols * rows != 1 {
      var col, row := OwningCol(position, cols), OwningRow(position, rows);
      OwningTileInViewport(position, cols, rows);
      MulMonotone(row, rows - 1, cols);
      assert (rows - 1) * cols == cols * rows - cols;
      ViewportReadsInBounds(tiles, cols, rows, position);
      var h, v := RowThrough(cols, col, row), ColumnThrough(cols, rows, col, row);
      ZeroMargins(tiles, Horizontal, h);
      ZeroMargins(tiles, Vertical, v);
      LerpBetween(0.0, 1.0, position.x);
      LerpBetween(0.0, 1.0, 1.0 - position.y);
    }
  }

  lemma ZeroMargins(tiles: seq<ScreenSettingEntity>, a: Axis, l: Line)
    requires BeforeInBounds(|tiles|, l) && AfterInBounds(|tiles|, l)
    requires forall i, e :: 0 <= i < |tiles| ==> Blend(tiles[i], e) == 0.0
    ensures BeforeMargin(tiles, a, l) == 0.0 && AfterMargin(tiles, a, l) == 0.0
  {
    EdgeSumOfZeros(tiles, FarEdge(a), l.base, l.stride, l.pos, l.length / 2);
    EdgeSumOfZeros(tiles, NearEdge(a), l.base, l.stride, l.pos + 1, BeforeNearEnd(l.length));
    EdgeSumOfZeros(tiles, NearEdge(a), l.base, l.stride, (l.length + 1) / 2, l.pos + 1);
    EdgeSumOfZeros(tiles, FarEdge(a), l.base, l.stride, l.length / 2, l.pos);
  }

  // ---------------------------------------------------------------------------
  // The shared centre seam of an even line

  /** Changing one tile's `e` blend changes a sum by the difference iff that tile is on the summed range. */
  lemma {:induction false} EdgeSumUpdate(tiles: seq<ScreenSettingEntity>, e: Edge, base: int, stride: int, lo: int, hi: int,
                                         k: int, v: real)
    requires stride >= 1 && LineInBounds(|tiles|, base, stride, lo, hi)
    requires 0 <= TileIndex(base, stride, k) < |tiles|
    ensures var i := TileIndex(base, stride, k);
      var changed := tiles[i := WithBlend(tiles[i], e, v)];
      EdgeSum(changed, e, base, stride, lo, hi)
        == EdgeSum(tiles, e, base, stride, lo, hi) + (if lo <= k < hi then v - Blend(tiles[i], e) else 0.0)
    decreases hi - lo
  {
    var i := TileIndex(base, stride, k);
    var changed := tiles[i := WithBlend(tiles[i], e, v)];
    if lo < hi {
      EdgeSumUpdate(tiles, e, base, stride, lo, hi - 1, k, v);
      if hi - 1 != k {
        TileIndexInjective(base, stride, hi - 1, k);
      }
    }
  }

  /** Proof helper: distinct steps along a stride give distinct indices. */
  lemma TileIndexInjective(base: int, stride: int, j: int, k: int)
    requires stride >= 1 && j != k
    ensures TileIndex(base, stride, j) != TileIndex(base, stride, k)
  {
    if j < k {
      MulMonotone(j + 1, k, stride);
      assert (j + 1) * stride == j * stride + stride;
    } else {
      MulMonotone(k + 1, j, stride);
      assert (k + 1) * stride == k * stride + stride;
    }
  }

  /**
   * On a line with an even number of tiles the seam between the two centre tiles
   * (`length/2 - 1` and `length/2`) enters the margins exactly once: a position before
   * the centre counts the far blend of the left/upper centre tile and ignores the near
   * blend of the right/lower one; a position after the centre counts that near blend and
   * ignores that far blend.
   */
  lemma EvenCentreSeamCountedOnce(tiles: seq<ScreenSettingEntity>, a: Axis, l: Line, v: real)
    requires l.stride >= 1 && l.length >= 2 && l.length % 2 == 0
    requires BeforeInBounds(|tiles|, l) && AfterInBounds(|tiles|, l)
    requires 0 <= TileIndex(l.base, l.stride, l.length / 2 - 1) < |tiles|
    requires 0 <= TileIndex(l.base, l.stride, l.length / 2) < |tiles|
    ensures var i := TileIndex(l.base, l.stride, l.length / 2 - 1);
      var changed := tiles[i := WithBlend(tiles[i], FarEdge(a), v)];
      && BeforeMargin(changed, a, l) == BeforeMargin(tiles, a, l)
           + (if l.pos < l.length / 2 then v - Blend(tiles[i], FarEdge(a)) else 0.0)
      && AfterMargin(changed, a, l) == AfterMargin(tiles, a, l)
    ensures var i := TileIndex(l.base, l.stride, l.length / 2);
      var changed := tiles[i := WithBlend(tiles[i], NearEdge(a), v)];
      && BeforeMargin(changed, a, l) == BeforeMargin(tiles, a, l)
      && AfterMargin(changed, a, l) == AfterMargin(tiles, a, l)
           + (if l.pos >= l.length / 2 then v - Blend(tiles[i], NearEdge(a)) else 0.0)
  {
    var m := l.length / 2;
    var b, s := l.base, l.stride;
    var i := TileIndex(b, s, m - 1);
    var far := tiles[i := WithBlend(tiles[i], FarEdge(a), v)];
    EdgeSumUpdate(tiles, FarEdge(a), b, s, l.pos, m, m - 1, v);
    EdgeSumUpdate(tiles, FarEdge(a), b, s, m, l.pos, m - 1, v);
    SumOtherEdge(tiles, i, FarEdge(a), NearEdge(a), v, b, s, l.pos + 1, BeforeNearEnd(l.length));
    SumOtherEdge(tiles, i, FarEdge(a), NearEdge(a), v, b, s, (l.length + 1) / 2, l.pos + 1);
    var k := TileIndex(b, s, m);
    var near := tiles[k := WithBlend(tiles[k], NearEdge(a), v)];
    EdgeSumUpdate(tiles, NearEdge(a), b, s, l.pos + 1, BeforeNearEnd(l.length), m, v);
    EdgeSumUpdate(tiles, NearEdge(a), b, s, (l.length + 1) / 2, l.pos + 1, m, v);
    SumOtherEdge(tiles, k, NearEdge(a), FarEdge(a), v, b, s, l.pos, m);
    SumOtherEdge(tiles, k, NearEdge(a), FarEdge(a), v, b, s, m, l.pos);
  }

  /** Writing edge `e` of a tile leaves every sum of another edge `f` unchanged. */
  lemma SumOtherEdge(tiles: seq<ScreenSettingEntity>, i: int, e: Edge, f: Edge, v: real,
                     base: int, stride: int, lo: int, hi: int)
    requires 0 <= i < |tiles| && e != f
    requires LineInBounds(|tiles|, base, stride, lo, hi)
    ensures EdgeSum(tiles[i := WithBlend(tiles[i], e, v)], f, base, stride, lo, hi) == EdgeSum(tiles, f, base, stride, lo, hi)
  {
    var changed := tiles[i := WithBlend(tiles[i], e, v)];
    forall j | lo <= j < hi
      ensures Blend(changed[TileIndex(base, stride, j)], f) == Blend(tiles[TileIndex(base, stride, j)], f)
    {
    }
    EdgeSumFrame(changed, tiles, f, base, stride, lo, hi);
  }

  // ---------------------------------------------------------------------------
  // What the masks and the uv shift change

  /** Two tile lists of the same length that agree in every blend. */
  predicate SameBlends(tiles: seq<ScreenSettingEntity>, other: seq<ScreenSettingEntity>)
  {
    |tiles| == |other| && forall i, e :: 0 <= i < |tiles| ==> Blend(tiles[i], e) == Blend(other[i], e)
  }

  /** The margins of a line read nothing but blends. */
  lemma MarginsFrame(tiles: seq<ScreenSettingEntity>, other: seq<ScreenSettingEntity>, a: Axis, l: Line)
    requires SameBlends(tiles, other)
    requires BeforeInBounds(|tiles|, l) && AfterInBounds(|tiles|, l)
    ensures BeforeMargin(tiles, a, l) == BeforeMargin(other, a, l)
    ensures AfterMargin(tiles, a, l) == AfterMargin(other, a, l)
  {
    EdgeSumFrame(tiles, other, FarEdge(a), l.base, l.stride, l.pos, l.length / 2);
    EdgeSumFrame(tiles, other, NearEdge(a), l.base, l.stride, l.pos + 1, BeforeNearEnd(l.length));
    EdgeSumFrame(tiles, other, NearEdge(a), l.base, l.stride, (l.length + 1) / 2, l.pos + 1);
    EdgeSumFrame(tiles, other, FarEdge(a), l.base, l.stride, l.length / 2, l.pos);
  }

  /**
   * `GetAdjustedPosition` reads the blends of the grid and, on more than one screen, the uv
   * shift of the owning tile, and nothing else: two lists that agree there remap the
   * position alike.
   */
  lemma RemappedFrame(tiles: seq<ScreenSettingEntity>, other: seq<ScreenSettingEntity>, cols: int, rows: int,
                      lerped: bool, position: Vector2)
    requires GridShape(tiles, cols, rows) && SameBlends(tiles, other)
    requires cols * rows != 1 && 0 <= OwningId(position, cols, rows) < |tiles| ==>
      tiles[OwningId(position, cols, rows)].uvShift == other[OwningId(position, cols, rows)].uvShift
    ensures Remapped(tiles, cols, rows, lerped, position) == Remapped(other, cols, rows, lerped, position)
  {
    var col, row := OwningCol(position, cols), OwningRow(position, rows);
    if cols * rows != 1 && col + row * cols < cols * rows && ReadsInBounds(|tiles|, cols, rows, col, row) {
      MarginsFrame(tiles, other, Horizontal, RowThrough(cols, col, row));
      MarginsFrame(tiles, other, Vertical, ColumnThrough(cols, rows, col, row));
    }
  }

  /** A write to an edge mask moves no position: the masks only reach the shader. */
  lemma EdgeMaskKeepsRemap(tiles: seq<ScreenSettingEntity>, cols: int, rows: int, lerped: bool, position: Vector2,
                           id: int, e: Edge, v: real)
    requires GridShape(tiles, cols, rows) && 0 <= id < |tiles|
    ensures Remapped(tiles[id := WithEdgeMask(tiles[id], e, v)], cols, rows, lerped, position)
         == Remapped(tiles, cols, rows, lerped, position)
  {
    var changed := tiles[id := WithEdgeMask(tiles[id], e, v)];
    assert SameBlends(changed, tiles);
    RemappedFrame(changed, tiles, cols, rows, lerped, position);
  }

  /** A write to a corner mask moves no position either. */
  lemma CornerMaskKeepsRemap(tiles: seq<ScreenSettingEntity>, cols: int, rows: int, lerped: bool, position: Vector2,
                             id: int, c: Corner, v: Vector2)
    requires GridShape(tiles, cols, rows) && 0 <= id < |tiles|
    ensures Remapped(tiles[id := WithCornerMask(tiles[id], c, v)], cols, rows, lerped, position)
         == Remapped(tiles, cols, rows, lerped, position)
  {
    var changed := tiles[id := WithCornerMask(tiles[id], c, v)];
    assert SameBlends(changed, tiles);
    RemappedFrame(changed, tiles, cols, rows, lerped, position);
  }

  /** A write to the uv shift of tile `id` leaves every position another tile owns where it was. */
  lemma UvShiftKeepsOtherTiles(tiles: seq<ScreenSettingEntity>, cols: int, rows: int, lerped: bool, position: Vector2,
                               id: int, s: Vector2)
    requires GridShape(tiles, cols, rows) && 0 <= id < |tiles|
    requires cols * rows == 1 || OwningId(position, cols, rows) != id
    ensures Remapped(tiles[id := WithUvShift(tiles[id], s)], cols, rows, lerped, position)
         == Remapped(tiles, cols, rows, lerped, position)
  {
    var changed := tiles[id := WithUvShift(tiles[id], s)];
    assert SameBlends(changed, tiles);
    RemappedFrame(changed, tiles, cols, rows, lerped, position);
  }

  /**
   * A write to the uv shift of tile `id` moves a position that tile owns by the change of
   * the shift (x as it is, y flipped back); a read that fails still fails.
   */
  lemma UvShiftMovesOwnTile(tiles: seq<ScreenSettingEntity>, cols: int, rows: int, lerped: bool, position: Vector2,
                            id: int, s: Vector2)
    requires GridShape(tiles, cols, rows) && 0 <= id < |tiles|
    requires cols * rows != 1 && OwningId(position, cols, rows) == id
    ensures var r := Remapped(tiles, cols, rows, lerped, position);
      var d := Vector2(s.x - tiles[id].uvShift.x, s.y - tiles[id].uvShift.y);
      Remapped(tiles[id := WithUvShift(tiles[id], s)], cols, rows, lerped, position)
        == if r.IndexOutOfRange? then IndexOutOfRange else Position(Vector2(r.p.x + d.x, r.p.y - d.y))
  {
    var changed := tiles[id := WithUvShift(tiles[id], s)];
    assert SameBlends(changed, tiles);
    var col, row := OwningCol(position, cols), OwningRow(position, rows);
    assert col + row * cols == id;
    if ReadsInBounds(|tiles|, cols, rows, col, row) {
      MarginsFrame(changed, tiles, Horizontal, RowThrough(cols, col, row));
      MarginsFrame(changed, tiles, Vertical, ColumnThrough(cols, rows, col, row));
      var m := TileMargins(tiles, cols, rows, col, row);
      assert TileMargins(changed, cols, rows, col, row) == m;
      ReframedShift(m, lerped, position.x, 1.0 - position.y, tiles[id].uvShift, s);
    }
  }

  /** Proof helper: a different shift moves the reframed position by the difference, y flipped. */
  lemma ReframedShift(m: Margins, lerped: bool, px: real, py: real, a: Vector2, b: Vector2)
    ensures var r := Reframed(m, lerped, px, py, a);
      Reframed(m, lerped, px, py, b) == Vector2(r.x + (b.x - a.x), r.y - (b.y - a.y))
  {
  }

  /** The centre tile of an odd line accumulates nothing on either side. */
  lemma OddCentreHasNoMargins(tiles: seq<ScreenSettingEntity>, a: Axis, l: Line)
    requires l.length >= 1 && l.length % 2 == 1 && l.pos == l.length / 2
    ensures BeforeInBounds(|tiles|, l) && AfterInBounds(|tiles|, l)
    ensures BeforeMargin(tiles, a, l) == 0.0 && AfterMargin(tiles, a, l) == 0.0
  {
  }
}
