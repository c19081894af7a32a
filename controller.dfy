/**
 * `ProjectorUtilityController`: the tile grid, its resizing, the symmetric blend edits,
 * the narrowest perimeter blends, the column and row blend sums and the remapping of a
 * viewport position through the blends.
 *
 * Each tile is a value in the `screenSettingEntities` sequence; a write to one of its
 * reactive properties replaces the tile's record. The common settings the controller
 * reads (`NumOfColProjectors`, `NumOfRowProjectors`, `Symmetry`, `LerpedInputMode`)
 * are fields of the controller.
 */
module Controller {
  import opened Wrappers
  import opened UnityMath
  import opened ScreenModel
  import opened BlendGeometry
  import opened GridEdit
  import opened Blender
  import opened MarginWalk

  /**
   * The loop of `NormalizedBlendHeight`: `i` runs from the column's first tile while
   * `i <= last`, stepping by `cols`, and adds each tile's top and bottom blends.
   */
  method ColumnLoop(tiles: seq<ScreenSettingEntity>, first: int, cols: int, rows: int, last: int) returns (tbh: real)
    requires cols >= 1 && rows >= 1 && last == first + cols * (rows - 1)
    requires LineInBounds(|tiles|, first, cols, 0, rows)
    ensures tbh == EdgeSum(tiles, Top, first, cols, 0, rows) + EdgeSum(tiles, Bottom, first, cols, 0, rows)
  {
    tbh := 0.0;
    var i := first;
    ghost var k := 0;
    assert i == TileIndex(first, cols, k) && (i <= last <==> k < rows) by {
      ColumnWalk(first, cols, rows, 0);
    }
    while i <= last
      invariant 0 <= k <= rows && i == TileIndex(first, cols, k)
      invariant i <= last <==> k < rows
      invariant tbh == EdgeSum(tiles, Top, first, cols, 0, k) + EdgeSum(tiles, Bottom, first, cols, 0, k)
      decreases rows - k
    {
      tbh := tbh + tiles[i].topBlend + tiles[i].bottomBlend;
      assert i + cols == TileIndex(first, cols, k + 1) && (i + cols <= last <==> k + 1 < rows) by {
        ColumnWalk(first, cols, rows, k);
        ColumnWalk(first, cols, rows, k + 1);
      }
      i, k := i + cols, k + 1;
    }
  }

  /** The loop of `NormalizedBlendWidth`: `i` runs over `[lo, hi)`, the tiles of one row, adding left and right blends. */
  method RowLoop(tiles: seq<ScreenSettingEntity>, start: int, cols: int, lo: int, hi: int) returns (tbw: real)
    requires cols >= 1 && lo == start && hi == start + cols
    requires LineInBounds(|tiles|, start, 1, 0, cols)
    ensures tbw == EdgeSum(tiles, Left, start, 1, 0, cols) + EdgeSum(tiles, Right, start, 1, 0, cols)
  {
    tbw := 0.0;
    for i := lo to hi
      invariant tbw == EdgeSum(tiles, Left, start, 1, 0, i - start) + EdgeSum(tiles, Right, start, 1, 0, i - start)
    {
      assert TileIndex(start, 1, i - start) == i;
      tbw := tbw + tiles[i].leftBlend + tiles[i].rightBlend;
    }
  }

  /** `MAX_COL`: the column count field accepts only smaller values. */
  const MAX_COL: int := 30

  /** `MAX_ROW`: the row count field accepts only smaller values. */
  const MAX_ROW: int := 30

  /** Index of the tile `k` steps further along a line, as the loops of `GetAdjustedPosition` compute it. */
  lemma TileIndexStep(base: int, stride: int, pos: int, k: int)
    ensures TileIndex(base, stride, pos) + k * stride == TileIndex(base, stride, pos + k)
    ensures TileIndex(base, stride, pos) - k * stride == TileIndex(base, stride, pos - k)
  {
    assert (pos + k) * stride == pos * stride + k * stride;
    assert (pos - k) * stride == pos * stride - k * stride;
  }

  /** Proof helper: `x / (1f / n)` is `x * n` in exact arithmetic. */
  lemma DivideByReciprocal(x: real, k: int)
    requires k >= 1
    ensures x / (1.0 / k as real) == x * k as real
  {
    var c := k as real;
    assert (1.0 / c) * c == 1.0;
    assert (x * c) * (1.0 / c) == x;
  }

  /**
   * `cols * rows`, the number of screens, written as repeated addition: the controller's
   * invariant then states only linear facts, and `CellsIsProduct` recovers the product
   * where a proof needs it.
   */
  function Cells(cols: int, rows: int): int
    decreases rows
  {
    if rows <= 0 then 0 else Cells(cols, rows - 1) + cols
  }

  lemma {:induction false} CellsIsProduct(cols: int, rows: int)
    requires rows >= 0
    ensures Cells(cols, rows) == cols * rows
    decreases rows
  {
    if rows > 0 {
      CellsIsProduct(cols, rows - 1);
      assert cols * rows == cols * (rows - 1) + cols;
    }
  }

  /** A grid of whole rows: the screen count is a multiple of the column count. */
  lemma CellsDivisible(cols: int, rows: int)
    requires cols >= 1 && rows >= 0
    ensures Cells(cols, rows) % cols == 0
  {
    CellsIsProduct(cols, rows);
    ModOfDecomposition(Cells(cols, rows), rows, 0, cols);
  }

  /** `FloorToInt(x / (1f / cols))` and `FloorToInt(y' / (1f / rows))` are the owning column and row. */
  lemma OwningTileByReciprocal(position: Vector2, cols: int, rows: int)
    requires cols >= 1 && rows >= 1
    ensures FloorToInt(position.x / (1.0 / cols as real)) == OwningCol(position, cols)
    ensures FloorToInt((1.0 - position.y) / (1.0 / rows as real)) == OwningRow(position, rows)
  {
    DivideByReciprocal(position.x, cols);
    DivideByReciprocal(1.0 - position.y, rows);
  }

  class ProjectorUtilityController {
    /** `CommonSettingEntity.NumOfColProjectors` and `NumOfRowProjectors`. */
    var numOfColProjectors: int
    var numOfRowProjectors: int
    /** `CommonSettingEntity.Symmetry` and `LerpedInputMode`. */
    var symmetry: bool
    var lerpedInputMode: bool
    /** `_colScreens`, `_rowScreens`, `NumOfScreen`. */
    var colScreens: int
    var rowScreens: int
    var numOfScreen: int
    /** `_screenSettingEntities`. */
    var screenSettingEntities: seq<ScreenSettingEntity>
    /** The four narrowest perimeter blends. */
    var normalizedMinUpperBlendHeight: real
    var normalizedMinLowerBlendHeight: real
    var normalizedMinLeftBlendWidth: real
    var normalizedMinRightBlendWidth: real
    /** `ProjectorUtilityBlender.Instance`. */
    const blender: ProjectorUtilityBlender

    /**
     * The grid the controller keeps between events: at least one column and row, the
     * counts in step with the common settings, whole rows of tiles, one tile per screen
     * with ids `0..n-1`.
     */
    predicate Shaped()
      reads this`numOfColProjectors, this`numOfRowProjectors, this`colScreens, this`rowScreens, this`numOfScreen
      reads this`screenSettingEntities
    {
      && colScreens >= 1 && rowScreens >= 1
      && numOfColProjectors == colScreens && numOfRowProjectors == rowScreens
      && numOfScreen == Cells(colScreens, rowScreens) && numOfScreen % colScreens == 0
      && |screenSettingEntities| == numOfScreen
      && IdsInOrder(screenSettingEntities)
    }

    /** The grid, and the shader buffer describing its tiles. */
    predicate Valid()
      reads this`numOfColProjectors, this`numOfRowProjectors, this`colScreens, this`rowScreens, this`numOfScreen
      reads this`screenSettingEntities, blender`computeBuffer
    {
      Shaped() && blender.computeBuffer == Filled(numOfScreen, screenSettingEntities)
    }

    /** One tile per cell of the `colScreens` x `rowScreens` grid. */
    predicate GridReady()
      reads this`screenSettingEntities, this`colScreens, this`rowScreens
    {
      GridShape(screenSettingEntities, colScreens, rowScreens)
    }

    /** The four narrowest values are those of the current tiles. */
    predicate NarrowestCurrent()
      reads this`screenSettingEntities, this`colScreens
      reads this`normalizedMinUpperBlendHeight, this`normalizedMinLowerBlendHeight
      reads this`normalizedMinLeftBlendWidth, this`normalizedMinRightBlendWidth
      requires colScreens >= 1
    {
      && normalizedMinLeftBlendWidth == Narrowest(screenSettingEntities, colScreens, Left)
      && normalizedMinRightBlendWidth == Narrowest(screenSettingEntities, colScreens, Right)
      && normalizedMinUpperBlendHeight == Narrowest(screenSettingEntities, colScreens, Top)
      && normalizedMinLowerBlendHeight == Narrowest(screenSettingEntities, colScreens, Bottom)
    }

    /**
     * The controller before `Start`: the common settings hold the values the settings
     * store yields (`numOfCol`, `numOfRow`, `symmetry`, `lerpedInputMode`), and the tile
     * list is empty.
     */
    constructor (numOfCol: int, numOfRow: int, symmetry: bool, lerpedInputMode: bool)
      ensures numOfColProjectors == numOfCol && numOfRowProjectors == numOfRow
      ensures this.symmetry == symmetry && this.lerpedInputMode == lerpedInputMode
      ensures screenSettingEntities == [] && fresh(blender)
    {
      blender := new ProjectorUtilityBlender();
      numOfColProjectors, numOfRowProjectors := numOfCol, numOfRow;
      this.symmetry, this.lerpedInputMode := symmetry, lerpedInputMode;
      colScreens, rowScreens, numOfScreen := 0, 0, 0;
      screenSettingEntities := [];
    }

    /**
     * `Start`: the grid is built with each new tile's values taken from `load`, and the
     * narrowest values are then overwritten with 0.
     */
    method Start(load: nat -> ScreenSettingEntity)
      requires IdsInOrder(screenSettingEntities)
      modifies this`numOfColProjectors, this`numOfRowProjectors, this`colScreens, this`rowScreens, this`numOfScreen
      modifies this`screenSettingEntities, blender`computeBuffer
      modifies this`normalizedMinUpperBlendHeight, this`normalizedMinLowerBlendHeight
      modifies this`normalizedMinLeftBlendWidth, this`normalizedMinRightBlendWidth
      ensures Valid()
      ensures colScreens == AtLeastOne(old(numOfColProjectors)) && rowScreens == AtLeastOne(old(numOfRowProjectors))
      ensures screenSettingEntities == Resized(old(screenSettingEntities), numOfScreen, load)
      ensures normalizedMinUpperBlendHeight == 0.0 && normalizedMinLowerBlendHeight == 0.0
      ensures normalizedMinLeftBlendWidth == 0.0 && normalizedMinRightBlendWidth == 0.0
    {
      BuildScreenSetting(load);
      ClearNarrowest();
    }

    /** The closing lines of `Start`: the four narrowest values are overwritten with 0. */
    method ClearNarrowest()
      modifies this`normalizedMinUpperBlendHeight, this`normalizedMinLowerBlendHeight
      modifies this`normalizedMinLeftBlendWidth, this`normalizedMinRightBlendWidth
      ensures normalizedMinUpperBlendHeight == 0.0 && normalizedMinLowerBlendHeight == 0.0
      ensures normalizedMinLeftBlendWidth == 0.0 && normalizedMinRightBlendWidth == 0.0
      ensures old(Valid()) ==> Valid()
    {
      normalizedMinUpperBlendHeight := 0.0;
      normalizedMinLowerBlendHeight := 0.0;
      normalizedMinLeftBlendWidth := 0.0;
      normalizedMinRightBlendWidth := 0.0;
    }

    /**
     * `BuildScreenSetting`: counts below 1 become 1, the tile list is grown with new
     * tiles `Count..n-1` or shrunk from the end to `n = cols * rows` tiles, and the blend
     * is updated.
     */
    method BuildScreenSetting(load: nat -> ScreenSettingEntity)
      requires IdsInOrder(screenSettingEntities)
      modifies this`numOfColProjectors, this`numOfRowProjectors, this`colScreens, this`rowScreens, this`numOfScreen
      modifies this`screenSettingEntities, blender`computeBuffer
      modifies this`normalizedMinUpperBlendHeight, this`normalizedMinLowerBlendHeight
      modifies this`normalizedMinLeftBlendWidth, this`normalizedMinRightBlendWidth
      ensures Valid() && NarrowestCurrent()
      ensures colScreens == AtLeastOne(old(numOfColProjectors)) && rowScreens == AtLeastOne(old(numOfRowProjectors))
      ensures screenSettingEntities == Resized(old(screenSettingEntities), numOfScreen, load)
    {
      ClampCounts();
      ResizeTiles(numOfScreen, load);
      UpdateBlend();
    }

    /** The opening lines of `BuildScreenSetting`: counts below 1 become 1 and `NumOfScreen` is their product. */
    method ClampCounts()
      modifies this`numOfColProjectors, this`numOfRowProjectors, this`colScreens, this`rowScreens, this`numOfScreen
      ensures colScreens == AtLeastOne(old(numOfColProjectors)) && rowScreens == AtLeastOne(old(numOfRowProjectors))
      ensures numOfColProjectors == colScreens && numOfRowProjectors == rowScreens
      ensures numOfScreen == Cells(colScreens, rowScreens) && numOfScreen % colScreens == 0 && numOfScreen >= 1
    {
      if numOfColProjectors < 1 { numOfColProjectors := 1; }
      if numOfRowProjectors < 1 { numOfRowProjectors := 1; }
      colScreens := numOfColProjectors;
      rowScreens := numOfRowProjectors;
      MulMonotone(1, rowScreens, colScreens);
      CellsIsProduct(colScreens, rowScreens);
      CellsDivisible(colScreens, rowScreens);
      numOfScreen := colScreens * rowScreens;
    }

    /**
     * The resizing loops of `BuildScreenSetting`: new tiles `Count..n-1` are appended, or
     * the last tile is removed until `n` remain.
     */
    method ResizeTiles(n: nat, load: nat -> ScreenSettingEntity)
      modifies this`screenSettingEntities
      ensures screenSettingEntities == Resized(old(screenSettingEntities), n, load)
    {
      ghost var before := screenSettingEntities;
      if n > |screenSettingEntities| {
        for i := |screenSettingEntities| to n
          invariant screenSettingEntities == Resized(before, i, load)
        {
          ResizedGrows(before, i, load);
          screenSettingEntities := screenSettingEntities + [Created(i, load(i))];
        }
      } else if n < |screenSettingEntities| {
        var i := |screenSettingEntities|;
        while i > n
          invariant n <= i <= |before| && screenSettingEntities == before[..i]
        {
          screenSettingEntities := screenSettingEntities[..|screenSettingEntities| - 1];
          i := i - 1;
        }
      }
    }

    /** `UpdateBlend`: uploads the tile records to the shader and recomputes the narrowest blends. */
    method UpdateBlend()
      requires Shaped()
      modifies blender`computeBuffer, this`normalizedMinUpperBlendHeight, this`normalizedMinLowerBlendHeight
      modifies this`normalizedMinLeftBlendWidth, this`normalizedMinRightBlendWidth
      ensures Valid() && NarrowestCurrent()
    {
      blender.SetBuffer(numOfScreen, screenSettingEntities);
      CalculateNarrowestBlend();
    }

    /**
     * `CalculateNarrowestBlend`: each value starts at 1 and visits the tiles in id order,
     * taking the blend of every border tile of its side that is not larger.
     */
    method CalculateNarrowestBlend()
      requires colScreens >= 1 && numOfScreen == |screenSettingEntities|
      modifies this`normalizedMinUpperBlendHeight, this`normalizedMinLowerBlendHeight
      modifies this`normalizedMinLeftBlendWidth, this`normalizedMinRightBlendWidth
      ensures NarrowestCurrent()
    {
      var tiles := screenSettingEntities;
      normalizedMinLeftBlendWidth, normalizedMinRightBlendWidth := 1.0, 1.0;
      normalizedMinUpperBlendHeight, normalizedMinLowerBlendHeight := 1.0, 1.0;
      for i := 0 to numOfScreen
        invariant normalizedMinLeftBlendWidth == NarrowestUpTo(tiles, colScreens, Left, i)
        invariant normalizedMinRightBlendWidth == NarrowestUpTo(tiles, colScreens, Right, i)
        invariant normalizedMinUpperBlendHeight == NarrowestUpTo(tiles, colScreens, Top, i)
        invariant normalizedMinLowerBlendHeight == NarrowestUpTo(tiles, colScreens, Bottom, i)
      {
        if i % colScreens == 0 {
          if normalizedMinLeftBlendWidth >= tiles[i].leftBlend { normalizedMinLeftBlendWidth := tiles[i].leftBlend; }
        }
        if (i + 1) % colScreens == 0 {
          if normalizedMinRightBlendWidth >= tiles[i].rightBlend { normalizedMinRightBlendWidth := tiles[i].rightBlend; }
        }
        if i < colScreens {
          if normalizedMinUpperBlendHeight >= tiles[i].topBlend { normalizedMinUpperBlendHeight := tiles[i].topBlend; }
        }
        if i >= numOfScreen - colScreens {
          if normalizedMinLowerBlendHeight >= tiles[i].bottomBlend { normalizedMinLowerBlendHeight := tiles[i].bottomBlend; }
        }
      }
    }

    /**
     * `NormalizedBlendHeight(col)`: the top plus bottom blends of every tile of column
     * `col`, counted from 1; a column number out of range reads the nearest column, and a
     * one-column grid always reads column 1.
     */
    method NormalizedBlendHeight(col: int) returns (tbh: real)
      requires GridReady()
      ensures tbh == ColumnBlendSum(screenSettingEntities, colScreens, rowScreens, ClampIndex(col, colScreens) - 1)
    {
      var tiles := screenSettingEntities;
      var cols, rows := colScreens, rowScreens;
      var c := col;
      if cols == 1 || c < 1 {
        c := 1;
      } else if c > cols {
        c := cols;
      }
      var first := c - 1;
      assert LineInBounds(|tiles|, first, cols, 0, rows) by {
        ColumnEnd(cols, rows, first);
        LineInBoundsByEnds(|tiles|, first, cols, 0, rows);
      }
      // the loop bound `col - 1 + cols * (rows - 1)`, which no iteration changes
      tbh := ColumnLoop(tiles, first, cols, rows, first + cols * (rows - 1));
      assert first == ClampIndex(col, cols) - 1;
    }

    /**
     * `NormalizedBlendWidth(row)`: the left plus right blends of every tile of row `row`,
     * counted from 1; a row number out of range reads the nearest row, and a one-row grid
     * always reads row 1.
     */
    method NormalizedBlendWidth(row: int) returns (tbw: real)
      requires GridReady()
      ensures tbw == RowBlendSum(screenSettingEntities, colScreens, rowScreens, ClampIndex(row, rowScreens) - 1)
    {
      var tiles := screenSettingEntities;
      var cols, rows := colScreens, rowScreens;
      var r := row;
      if rows == 1 || r < 1 {
        r := 1;
      } else if r > rows {
        r := rows;
      }
      var start := (r - 1) * cols;
      assert LineInBounds(|tiles|, start, 1, 0, cols) && cols * r - cols == start && cols * r == start + cols by {
        RowEnd(cols, rows, r - 1);
        LineInBoundsByEnds(|tiles|, start, 1, 0, cols);
      }
      tbw := RowLoop(tiles, start, cols, cols * r - cols, cols * r);
      assert r - 1 == ClampIndex(row, rows) - 1;
    }

    /**
     * The margin a position accumulates towards the start of `line`: the far blend of each
     * tile from the owning tile up to the centre and the near blend of the tile after it,
     * except the near blend across the centre seam of an even line. `None` is an index
     * out of range.
     */
    method AccumulateBefore(a: Axis, line: Line, screenID: int, count: int) returns (blends: Option<real>)
      requires line.length >= 1
      requires screenID == TileIndex(line.base, line.stride, line.pos)
      requires count == Overlaps(line.length, line.pos).before
      ensures blends.Some? <==> BeforeInBounds(|screenSettingEntities|, line)
      ensures blends.Some? ==> blends.value == BeforeMargin(screenSettingEntities, a, line)
    {
      var tiles := screenSettingEntities;
      var s, len, p := line.stride, line.length, line.pos;
      var acc := 0.0;
      if count > 0 {
        for i := 0 to count
          invariant BeforeWalked(|tiles|, line, i) && acc == BeforeSoFar(tiles, a, line, i)
        {
          if len % 2 != 0 || len / 2 != p + 1 + i {
            var k := screenID + (i + 1) * s;
            assert k == TileIndex(line.base, s, p + i + 1) by { TileIndexStep(line.base, s, p, i + 1); }
            if !(0 <= k < |tiles|) {
              BeforeReadOutside(|tiles|, line, i);
              return None;
            }
            acc := acc + Blend(tiles[k], NearEdge(a));
          }
          var k := screenID + i * s;
          assert k == TileIndex(line.base, s, p + i) by { TileIndexStep(line.base, s, p, i); }
          if !(0 <= k < |tiles|) {
            BeforeReadOutside(|tiles|, line, i);
            return None;
          }
          acc := acc + Blend(tiles[k], FarEdge(a));
          BeforeStep(tiles, a, line, i);
        }
      }
      BeforeComplete(tiles, a, line, count);
      return Some(acc);
    }

    /**
     * The margin a position accumulates towards the end of `line`: the near blend of each
     * tile from the owning tile back to the centre and the far blend of the tile before it,
     * except the far blend across the centre seam of an even line. `None` is an index out
     * of range.
     */
    method AccumulateAfter(a: Axis, line: Line, screenID: int, count: int) returns (blends: Option<real>)
      requires line.length >= 1
      requires screenID == TileIndex(line.base, line.stride, line.pos)
      requires count == Overlaps(line.length, line.pos).after
      ensures blends.Some? <==> AfterInBounds(|screenSettingEntities|, line)
      ensures blends.Some? ==> blends.value == AfterMargin(screenSettingEntities, a, line)
    {
      var tiles := screenSettingEntities;
      var s, len, p := line.stride, line.length, line.pos;
      var acc := 0.0;
      if count > 0 {
        for i := 0 to count
          invariant AfterWalked(|tiles|, line, i) && acc == AfterSoFar(tiles, a, line, i)
        {
          if len % 2 != 0 || len / 2 != len - p + i {
            var k := screenID - (i + 1) * s;
            assert k == TileIndex(line.base, s, p - i - 1) by { TileIndexStep(line.base, s, p, i + 1); }
            if !(0 <= k < |tiles|) {
              AfterReadOutside(|tiles|, line, i);
              return None;
            }
            acc := acc + Blend(tiles[k], FarEdge(a));
          }
          var k := screenID - i * s;
          assert k == TileIndex(line.base, s, p - i) by { TileIndexStep(line.base, s, p, i); }
          if !(0 <= k < |tiles|) {
            AfterReadOutside(|tiles|, line, i);
            return None;
          }
          acc := acc + Blend(tiles[k], NearEdge(a));
          AfterStep(tiles, a, line, i);
        }
      }
      AfterComplete(tiles, a, line, count);
      return Some(acc);
    }

    /**
     * The four margin loops of `GetAdjustedPosition` for the owning tile `(col, row)`, in
     * the source's order: left, right, upper, lower. `None` is an index out of range in
     * any of them.
     */
    method AccumulateMargins(col: int, row: int) returns (margins: Option<Margins>)
      requires colScreens >= 1 && rowScreens >= 1
      ensures margins.Some? <==> MarginsInBounds(|screenSettingEntities|, colScreens, rowScreens, col, row)
      ensures margins.Some? ==> margins.value == TileMargins(screenSettingEntities, colScreens, rowScreens, col, row)
    {
      var screenID := col + row * colScreens;
      var h := RowThrough(colScreens, col, row);
      var v := ColumnThrough(colScreens, rowScreens, col, row);
      var leftBlends := AccumulateBefore(Horizontal, h, screenID, Overlaps(colScreens, col).before);
      if leftBlends.None? { return None; }
      var rightBlends := AccumulateAfter(Horizontal, h, screenID, Overlaps(colScreens, col).after);
      if rightBlends.None? { return None; }
      var upperBlends := AccumulateBefore(Vertical, v, screenID, Overlaps(rowScreens, row).before);
      if upperBlends.None? { return None; }
      var lowerBlends := AccumulateAfter(Vertical, v, screenID, Overlaps(rowScreens, row).after);
      if lowerBlends.None? { return None; }
      return Some(Margins(leftBlends.value, rightBlends.value, upperBlends.value, lowerBlends.value));
    }

    /**
     * `GetAdjustedPosition`: the viewport position remapped through the blends of the
     * owning tile's row and column and shifted by its uv shift; `(1, 1)` when the owning
     * id is past the last tile; `IndexOutOfRange` when a list read fails.
     */
    method GetAdjustedPosition(position: Vector2) returns (result: Remap)
      requires GridReady() && numOfScreen == colScreens * rowScreens
      ensures result == Remapped(screenSettingEntities, colScreens, rowScreens, lerpedInputMode, position)
    {
      if numOfScreen == 1 {
        return Position(position);
      }
      var adjustPosition := Vector2(position.x, 1.0 - position.y);
      var currentCol := FloorToInt(adjustPosition.x / (1.0 / colScreens as real));
      var currentRow := FloorToInt(adjustPosition.y / (1.0 / rowScreens as real));
      assert currentCol == OwningCol(position, colScreens) && currentRow == OwningRow(position, rowScreens) by {
        OwningTileByReciprocal(position, colScreens, rowScreens);
      }
      var screenID := currentCol + currentRow * colScreens;
      if screenID >= colScreens * rowScreens {
        return Position(One);
      }
      var margins := AccumulateMargins(currentCol, currentRow);
      if margins.None? || !(0 <= screenID < |screenSettingEntities|) {
        return IndexOutOfRange;
      }
      var m := margins.value;
      if lerpedInputMode {
        adjustPosition := Vector2(Lerp(m.left, 1.0 - m.right, adjustPosition.x),
                                  Lerp(m.upper, 1.0 - m.lower, adjustPosition.y));
      } else {
        adjustPosition := Vector2(adjustPosition.x + m.left - m.right,
                                  adjustPosition.y + m.upper - m.lower);
      }
      adjustPosition := Add(adjustPosition, screenSettingEntities[screenID].uvShift);
      adjustPosition := Vector2(adjustPosition.x, 1.0 - adjustPosition.y);
      return Position(adjustPosition);
    }

    /**
     * A write of `v` to the blend of edge `e` of tile `id`, through the tile's reactive
     * property: an equal value is dropped; otherwise the handler mirrors the value onto the
     * neighbour across `e` when symmetry is on (whose own handler's echo back is an equal
     * value and stops there) and updates the blend.
     */
    method SetBlend(id: int, e: Edge, v: real)
      requires Valid() && 0 <= id < numOfScreen
      modifies this`screenSettingEntities, blender`computeBuffer
      modifies this`normalizedMinUpperBlendHeight, this`normalizedMinLowerBlendHeight
      modifies this`normalizedMinLeftBlendWidth, this`normalizedMinRightBlendWidth
      ensures Valid()
      ensures screenSettingEntities == EdgeEdited(old(screenSettingEntities), colScreens, symmetry, id, e, v)
      ensures Blend(old(screenSettingEntities)[id], e) == v ==>
        && normalizedMinUpperBlendHeight == old(normalizedMinUpperBlendHeight)
        && normalizedMinLowerBlendHeight == old(normalizedMinLowerBlendHeight)
        && normalizedMinLeftBlendWidth == old(normalizedMinLeftBlendWidth)
        && normalizedMinRightBlendWidth == old(normalizedMinRightBlendWidth)
        && blender.computeBuffer == old(blender.computeBuffer)
      ensures Blend(old(screenSettingEntities)[id], e) != v ==> NarrowestCurrent()
    {
      var n := numOfScreen;
      if Blend(screenSettingEntities[id], e) == v {
        return;
      }
      ghost var edited := EdgeEdited(screenSettingEntities, colScreens, symmetry, id, e, v);
      NeighbourIsAdjacent(e, id, colScreens, n);
      screenSettingEntities := screenSettingEntities[id := WithBlend(screenSettingEntities[id], e, v)];
      var mirror := Neighbour(e, id, colScreens, n);
      if symmetry && mirror.Some? {
        var j := mirror.value;
        if Blend(screenSettingEntities[j], Opposite(e)) != v {
          screenSettingEntities := screenSettingEntities[j := WithBlend(screenSettingEntities[j], Opposite(e), v)];
          // the neighbour's handler mirrors back onto tile `id`, which already holds `v`
          OppositeInvolutive(e);
          NeighbourIsAdjacent(Opposite(e), j, colScreens, n);
          if Blend(screenSettingEntities[id], Opposite(Opposite(e))) != v {
            assert false;
          }
          UpdateBlend();
        } else {
          SameBlendUnchanged(screenSettingEntities[j], Opposite(e));
        }
      }
      assert screenSettingEntities == edited;
      UpdateBlend();
    }

    /**
     * Writes tile `id`'s record `u`, which differs from the tile in its masks or uv shift
     * only, and runs `UpdateBlend`, as the mask and uv-shift subscriptions do. The
     * narrowest values do not move if they were current.
     */
    method ReplaceTile(id: int, u: ScreenSettingEntity)
      requires Valid() && 0 <= id < numOfScreen
      requires u.id == id && forall e :: Blend(u, e) == Blend(screenSettingEntities[id], e)
      modifies this`screenSettingEntities, blender`computeBuffer
      modifies this`normalizedMinUpperBlendHeight, this`normalizedMinLowerBlendHeight
      modifies this`normalizedMinLeftBlendWidth, this`normalizedMinRightBlendWidth
      ensures Valid() && NarrowestCurrent()
      ensures screenSettingEntities == old(screenSettingEntities)[id := u]
      ensures old(NarrowestCurrent()) ==>
        && normalizedMinUpperBlendHeight == old(normalizedMinUpperBlendHeight)
        && normalizedMinLowerBlendHeight == old(normalizedMinLowerBlendHeight)
        && normalizedMinLeftBlendWidth == old(normalizedMinLeftBlendWidth)
        && normalizedMinRightBlendWidth == old(normalizedMinRightBlendWidth)
    {
      ghost var before := screenSettingEntities;
      screenSettingEntities := screenSettingEntities[id := u];
      UpdateBlend();
      NarrowestOnlyReadsBorder(screenSettingEntities, before, colScreens, Left);
      NarrowestOnlyReadsBorder(screenSettingEntities, before, colScreens, Right);
      NarrowestOnlyReadsBorder(screenSettingEntities, before, colScreens, Top);
      NarrowestOnlyReadsBorder(screenSettingEntities, before, colScreens, Bottom);
    }

    /**
     * `<edge>Mask.Value = v` on tile `id`; a changed value reaches the shader through
     * `UpdateBlend`.
     */
    method SetEdgeMask(id: int, e: Edge, v: real)
      requires Valid() && 0 <= id < numOfScreen
      modifies this`screenSettingEntities, blender`computeBuffer
      modifies this`normalizedMinUpperBlendHeight, this`normalizedMinLowerBlendHeight
      modifies this`normalizedMinLeftBlendWidth, this`normalizedMinRightBlendWidth
      ensures Valid()
      ensures screenSettingEntities == old(screenSettingEntities)[id := WithEdgeMask(old(screenSettingEntities)[id], e, v)]
      ensures EdgeMask(old(screenSettingEntities)[id], e) == v ==>
        && normalizedMinUpperBlendHeight == old(normalizedMinUpperBlendHeight)
        && normalizedMinLowerBlendHeight == old(normalizedMinLowerBlendHeight)
        && normalizedMinLeftBlendWidth == old(normalizedMinLeftBlendWidth)
        && normalizedMinRightBlendWidth == old(normalizedMinRightBlendWidth)
        && blender.computeBuffer == old(blender.computeBuffer)
      ensures EdgeMask(old(screenSettingEntities)[id], e) != v ==> NarrowestCurrent()
      ensures old(NarrowestCurrent()) ==>
        && normalizedMinUpperBlendHeight == old(normalizedMinUpperBlendHeight)
        && normalizedMinLowerBlendHeight == old(normalizedMinLowerBlendHeight)
        && normalizedMinLeftBlendWidth == old(normalizedMinLeftBlendWidth)
        && normalizedMinRightBlendWidth == old(normalizedMinRightBlendWidth)
    {
      if EdgeMask(screenSettingEntities[id], e) == v {
        return;
      }
      ReplaceTile(id, WithEdgeMask(screenSettingEntities[id], e, v));
    }

    /**
     * `<corner>Mask.Value = v` on tile `id`; a changed value reaches the shader through
     * `UpdateBlend`.
     */
    method SetCornerMask(id: int, c: Corner, v: Vector2)
      requires Valid() && 0 <= id < numOfScreen
      modifies this`screenSettingEntities, blender`computeBuffer
      modifies this`normalizedMinUpperBlendHeight, this`normalizedMinLowerBlendHeight
      modifies this`normalizedMinLeftBlendWidth, this`normalizedMinRightBlendWidth
      ensures Valid()
      ensures screenSettingEntities == old(screenSettingEntities)[id := WithCornerMask(old(screenSettingEntities)[id], c, v)]
      ensures CornerMask(old(screenSettingEntities)[id], c) == v ==>
        && normalizedMinUpperBlendHeight == old(normalizedMinUpperBlendHeight)
        && normalizedMinLowerBlendHeight == old(normalizedMinLowerBlendHeight)
        && normalizedMinLeftBlendWidth == old(normalizedMinLeftBlendWidth)
        && normalizedMinRightBlendWidth == old(normalizedMinRightBlendWidth)
        && blender.computeBuffer == old(blender.computeBuffer)
      ensures CornerMask(old(screenSettingEntities)[id], c) != v ==> NarrowestCurrent()
      ensures old(NarrowestCurrent()) ==>
        && normalizedMinUpperBlendHeight == old(normalizedMinUpperBlendHeight)
        && normalizedMinLowerBlendHeight == old(normalizedMinLowerBlendHeight)
        && normalizedMinLeftBlendWidth == old(normalizedMinLeftBlendWidth)
        && normalizedMinRightBlendWidth == old(normalizedMinRightBlendWidth)
    {
      if CornerMask(screenSettingEntities[id], c) == v {
        return;
      }
      ReplaceTile(id, WithCornerMask(screenSettingEntities[id], c, v));
    }

    /**
     * `uvShift.Value = s` on tile `id`; a changed value reaches the shader through
     * `UpdateBlend` and moves the positions the tile owns (`UvShiftMovesOwnTile`).
     */
    method SetUvShift(id: int, s: Vector2)
      requires Valid() && 0 <= id < numOfScreen
      modifies this`screenSettingEntities, blender`computeBuffer
      modifies this`normalizedMinUpperBlendHeight, this`normalizedMinLowerBlendHeight
      modifies this`normalizedMinLeftBlendWidth, this`normalizedMinRightBlendWidth
      ensures Valid()
      ensures screenSettingEntities == old(screenSettingEntities)[id := WithUvShift(old(screenSettingEntities)[id], s)]
      ensures old(screenSettingEntities)[id].uvShift == s ==>
        && normalizedMinUpperBlendHeight == old(normalizedMinUpperBlendHeight)
        && normalizedMinLowerBlendHeight == old(normalizedMinLowerBlendHeight)
        && normalizedMinLeftBlendWidth == old(normalizedMinLeftBlendWidth)
        && normalizedMinRightBlendWidth == old(normalizedMinRightBlendWidth)
        && blender.computeBuffer == old(blender.computeBuffer)
      ensures old(screenSettingEntities)[id].uvShift != s ==> NarrowestCurrent()
      ensures old(NarrowestCurrent()) ==>
        && normalizedMinUpperBlendHeight == old(normalizedMinUpperBlendHeight)
        && normalizedMinLowerBlendHeight == old(normalizedMinLowerBlendHeight)
        && normalizedMinLeftBlendWidth == old(normalizedMinLeftBlendWidth)
        && normalizedMinRightBlendWidth == old(normalizedMinRightBlendWidth)
    {
      if screenSettingEntities[id].uvShift == s {
        return;
      }
      ReplaceTile(id, WithUvShift(screenSettingEntities[id], s));
    }

    /** `Symmetry.Value = on`. */
    method SetSymmetry(on: bool)
      modifies this`symmetry
      ensures symmetry == on
    {
      symmetry := on;
    }

    /** `LerpedInputMode.Value = on`. */
    method SetLerpedInputMode(on: bool)
      modifies this`lerpedInputMode
      ensures lerpedInputMode == on
    {
      lerpedInputMode := on;
    }

    /**
     * A column count typed into the common settings: only values below `MAX_COL` reach
     * `NumOfColProjectors`, and only a changed value rebuilds the grid.
     */
    method EnterNumOfCol(k: int, load: nat -> ScreenSettingEntity)
      requires Valid()
      modifies this`numOfColProjectors, this`numOfRowProjectors, this`colScreens, this`rowScreens, this`numOfScreen
      modifies this`screenSettingEntities, blender`computeBuffer
      modifies this`normalizedMinUpperBlendHeight, this`normalizedMinLowerBlendHeight
      modifies this`normalizedMinLeftBlendWidth, this`normalizedMinRightBlendWidth
      ensures Valid()
      ensures k >= MAX_COL || k == old(numOfColProjectors) ==>
        && colScreens == old(colScreens) && screenSettingEntities == old(screenSettingEntities)
        && normalizedMinUpperBlendHeight == old(normalizedMinUpperBlendHeight)
        && normalizedMinLowerBlendHeight == old(normalizedMinLowerBlendHeight)
        && normalizedMinLeftBlendWidth == old(normalizedMinLeftBlendWidth)
        && normalizedMinRightBlendWidth == old(normalizedMinRightBlendWidth)
        && blender.computeBuffer == old(blender.computeBuffer)
      ensures k < MAX_COL && k != old(numOfColProjectors) ==>
        && colScreens == AtLeastOne(k)
        && screenSettingEntities == Resized(old(screenSettingEntities), Cells(AtLeastOne(k), rowScreens), load)
        && NarrowestCurrent()
      ensures rowScreens == old(rowScreens)
    {
      if k < MAX_COL && k != numOfColProjectors {
        numOfColProjectors := k;
        BuildScreenSetting(load);
      }
    }

    /**
     * A row count typed into the common settings: only values below `MAX_ROW` reach
     * `NumOfRowProjectors`, and only a changed value rebuilds the grid.
     */
    method EnterNumOfRow(k: int, load: nat -> ScreenSettingEntity)
      requires Valid()
      modifies this`numOfColProjectors, this`numOfRowProjectors, this`colScreens, this`rowScreens, this`numOfScreen
      modifies this`screenSettingEntities, blender`computeBuffer
      modifies this`normalizedMinUpperBlendHeight, this`normalizedMinLowerBlendHeight
      modifies this`normalizedMinLeftBlendWidth, this`normalizedMinRightBlendWidth
      ensures Valid()
      ensures k >= MAX_ROW || k == old(numOfRowProjectors) ==>
        && rowScreens == old(rowScreens) && screenSettingEntities == old(screenSettingEntities)
        && normalizedMinUpperBlendHeight == old(normalizedMinUpperBlendHeight)
        && normalizedMinLowerBlendHeight == old(normalizedMinLowerBlendHeight)
        && normalizedMinLeftBlendWidth == old(normalizedMinLeftBlendWidth)
        && normalizedMinRightBlendWidth == old(normalizedMinRightBlendWidth)
        && blender.computeBuffer == old(blender.computeBuffer)
      ensures k < MAX_ROW && k != old(numOfRowProjectors) ==>
        && rowScreens == AtLeastOne(k)
        && screenSettingEntities == Resized(old(screenSettingEntities), Cells(colScreens, AtLeastOne(k)), load)
        && NarrowestCurrent()
      ensures colScreens == old(colScreens)
    {
      if k < MAX_ROW && k != numOfRowProjectors {
        numOfRowProjectors := k;
        BuildScreenSetting(load);
      }
    }
  }
}
