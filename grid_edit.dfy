/**
 * How the controller's tile list changes and what it derives from it, as functions of
 * the list: the narrowest perimeter blends, the blend sums of one column or row, a blend
 * edit with the symmetric mirror onto the neighbouring tile, and resizing to a new grid.
 */
module GridEdit {
  import opened Wrappers
  import opened ScreenModel
  import opened BlendGeometry

  /** Every tile's `ID` is its position in the list. */
  predicate IdsInOrder(tiles: seq<ScreenSettingEntity>)
  {
    forall i :: 0 <= i < |tiles| ==> tiles[i].id == i
  }

  // ---------------------------------------------------------------------------
  // Narrowest perimeter blend

  /** Tile `i` of an `n`-tile grid with `cols` columns lies on the outer border on side `e`. */
  predicate OnBorder(n: int, cols: int, e: Edge, i: int)
    requires cols >= 1
  {
    match e
    case Left => i % cols == 0
    case Right => (i + 1) % cols == 0
    case Top => i < cols
    case Bottom => i >= n - cols
  }

  /**
   * The value `CalculateNarrowestBlend` holds for side `e` after visiting the first `k`
   * tiles: it starts at 1 and takes a border tile's blend whenever that is not larger.
   */
  function NarrowestUpTo(tiles: seq<ScreenSettingEntity>, cols: int, e: Edge, k: int): real
    requires cols >= 1 && 0 <= k <= |tiles|
  {
    if k == 0 then 1.0
    else
      var m := NarrowestUpTo(tiles, cols, e, k - 1);
      if OnBorder(|tiles|, cols, e, k - 1) && m >= Blend(tiles[k - 1], e) then Blend(tiles[k - 1], e) else m
  }

  /** `NormalizedMin{Left,Right}BlendWidth`, `NormalizedMin{Upper,Lower}BlendHeight`. */
  function Narrowest(tiles: seq<ScreenSettingEntity>, cols: int, e: Edge): real
    requires cols >= 1
  {
    NarrowestUpTo(tiles, cols, e, |tiles|)
  }

  /**
   * The narrowest blend of a side is the minimum of 1 and the blends of that side's
   * border tiles: it is at most 1, at most every border tile's blend, and it is 1 or
   * some border tile's blend.
   */
  lemma {:induction false} NarrowestIsMinimum(tiles: seq<ScreenSettingEntity>, cols: int, e: Edge, k: int)
    requires cols >= 1 && 0 <= k <= |tiles|
    ensures NarrowestUpTo(tiles, cols, e, k) <= 1.0
    ensures forall i :: 0 <= i < k && OnBorder(|tiles|, cols, e, i) ==> NarrowestUpTo(tiles, cols, e, k) <= Blend(tiles[i], e)
    ensures NarrowestUpTo(tiles, cols, e, k) == 1.0
         || exists i :: 0 <= i < k && OnBorder(|tiles|, cols, e, i) && NarrowestUpTo(tiles, cols, e, k) == Blend(tiles[i], e)
  {
    if k > 0 {
      NarrowestIsMinimum(tiles, cols, e, k - 1);
      var m := NarrowestUpTo(tiles, cols, e, k - 1);
      if !(m == 1.0) {
        var i :| 0 <= i < k - 1 && OnBorder(|tiles|, cols, e, i) && m == Blend(tiles[i], e);
        assert 0 <= i < k && OnBorder(|tiles|, cols, e, i);
      }
    }
  }

  /** The narrowest blends depend only on the border tiles of that side. */
  lemma NarrowestOnlyReadsBorder(tiles: seq<ScreenSettingEntity>, other: seq<ScreenSettingEntity>, cols: int, e: Edge)
    requires cols >= 1 && |tiles| == |other|
    requires forall i :: 0 <= i < |tiles| && OnBorder(|tiles|, cols, e, i) ==> Blend(tiles[i], e) == Blend(other[i], e)
    ensures Narrowest(tiles, cols, e) == Narrowest(other, cols, e)
  {
    NarrowestIsMinimum(tiles, cols, e, |tiles|);
    NarrowestIsMinimum(other, cols, e, |other|);
  }

  // ---------------------------------------------------------------------------
  // Column and row blend sums

  /** The column or row number `NormalizedBlendHeight`/`NormalizedBlendWidth` actually read, 1-based. */
  function ClampIndex(k: int, count: int): (r: int)
    ensures count >= 1 ==> 1 <= r <= count
    ensures 1 <= k <= count ==> r == k
    ensures k < 1 ==> r == 1
    ensures count >= 1 && k > count ==> r == count
  {
    if count == 1 || k < 1 then 1 else if k > count then count else k
  }

  /** Sum of the top and bottom blends of the column whose tiles are `c, c + cols, ..., c + (rows-1) * cols`. */
  function ColumnBlendSum(tiles: seq<ScreenSettingEntity>, cols: int, rows: int, c: int): real
    requires GridShape(tiles, cols, rows) && 0 <= c < cols
  {
    LineInBoundsByEnds(|tiles|, c, cols, 0, rows);
    ColumnEnd(cols, rows, c);
    EdgeSum(tiles, Top, c, cols, 0, rows) + EdgeSum(tiles, Bottom, c, cols, 0, rows)
  }

  /** Sum of the left and right blends of the row whose tiles are `r * cols, ..., r * cols + cols - 1`. */
  function RowBlendSum(tiles: seq<ScreenSettingEntity>, cols: int, rows: int, r: int): real
    requires GridShape(tiles, cols, rows) && 0 <= r < rows
  {
    RowEnd(cols, rows, r);
    LineInBoundsByEnds(|tiles|, r * cols, 1, 0, cols);
    EdgeSum(tiles, Left, r * cols, 1, 0, cols) + EdgeSum(tiles, Right, r * cols, 1, 0, cols)
  }

  lemma ColumnEnd(cols: int, rows: int, c: int)
    requires cols >= 1 && rows >= 1 && 0 <= c < cols
    ensures 0 <= TileIndex(c, cols, 0) && TileIndex(c, cols, rows - 1) < cols * rows
  {
    assert TileIndex(c, cols, rows - 1) == c + rows * cols - cols;
  }

  /** The loop of `NormalizedBlendHeight` steps down the column by `cols` and stops after the last row. */
  lemma ColumnWalk(c: int, cols: int, rows: int, k: int)
    requires cols >= 1 && rows >= 1 && k >= 0
    ensures TileIndex(c, cols, k) + cols == TileIndex(c, cols, k + 1)
    ensures TileIndex(c, cols, k) <= c + cols * (rows - 1) <==> k < rows
  {
    assert (k + 1) * cols == k * cols + cols;
    if k < rows {
      MulMonotone(k, rows - 1, cols);
    } else {
      MulMonotone(rows, k, cols);
      assert rows * cols == (rows - 1) * cols + cols;
    }
  }

  lemma RowEnd(cols: int, rows: int, r: int)
    requires cols >= 1 && rows >= 1 && 0 <= r < rows
    ensures 0 <= TileIndex(r * cols, 1, 0) && TileIndex(r * cols, 1, cols - 1) < cols * rows
  {
    MulMonotone(0, r, cols);
    MulMonotone(r + 1, rows, cols);
    assert (r + 1) * cols == r * cols + cols;
  }

  /** With every `e` blend of the grid between 0 and 1, a sum over a line is between 0 and the number of tiles summed. */
  lemma {:induction false} EdgeSumBounds(tiles: seq<ScreenSettingEntity>, e: Edge, base: int, stride: int, lo: int, hi: int)
    requires LineInBounds(|tiles|, base, stride, lo, hi)
    requires forall i :: 0 <= i < |tiles| ==> 0.0 <= Blend(tiles[i], e) <= 1.0
    ensures 0.0 <= EdgeSum(tiles, e, base, stride, lo, hi) <= if hi <= lo then 0.0 else (hi - lo) as real
    decreases hi - lo
  {
    if lo < hi {
      EdgeSumBounds(tiles, e, base, stride, lo, hi - 1);
    }
  }

  /** With every blend of the grid between 0 and 1, a column's blend sum is between 0 and twice the number of rows. */
  lemma ColumnBlendSumBounds(tiles: seq<ScreenSettingEntity>, cols: int, rows: int, c: int)
    requires GridShape(tiles, cols, rows) && 0 <= c < cols
    requires forall i, e :: 0 <= i < |tiles| ==> 0.0 <= Blend(tiles[i], e) <= 1.0
    ensures 0.0 <= ColumnBlendSum(tiles, cols, rows, c) <= 2.0 * rows as real
  {
    LineInBoundsByEnds(|tiles|, c, cols, 0, rows);
    ColumnEnd(cols, rows, c);
    EdgeSumBounds(tiles, Top, c, cols, 0, rows);
    EdgeSumBounds(tiles, Bottom, c, cols, 0, rows);
  }

  /** With every blend of the grid between 0 and 1, a row's blend sum is between 0 and twice the number of columns. */
  lemma RowBlendSumBounds(tiles: seq<ScreenSettingEntity>, cols: int, rows: int, r: int)
    requires GridShape(tiles, cols, rows) && 0 <= r < rows
    requires forall i, e :: 0 <= i < |tiles| ==> 0.0 <= Blend(tiles[i], e) <= 1.0
    ensures 0.0 <= RowBlendSum(tiles, cols, rows, r) <= 2.0 * cols as real
  {
    RowEnd(cols, rows, r);
    LineInBoundsByEnds(|tiles|, r * cols, 1, 0, cols);
    EdgeSumBounds(tiles, Left, r * cols, 1, 0, cols);
    EdgeSumBounds(tiles, Right, r * cols, 1, 0, cols);
  }

  // ---------------------------------------------------------------------------
  // Symmetric blend edits

  /** The tile across edge `e` of tile `id`, if the grid has one there. */
  function Neighbour(e: Edge, id: int, cols: int, n: int): Option<int>
    requires cols >= 1
  {
    match e
    case Top => if id >= cols then Some(id - cols) else None
    case Bottom => if id < n - cols then Some(id + cols) else None
    case Left => if id % cols != 0 then Some(id - 1) else None
    case Right => if (id + 1) % cols != 0 then Some(id + 1) else None
  }

  /**
   * A neighbour is another tile of the grid, in the same column across a top or bottom
   * edge and in the same row across a left or right edge, and the relation is mutual: the
   * neighbour's tile across the opposite edge is the original tile. A tile has no
   * neighbour across `e` exactly when it lies on the border on side `e`.
   */
  lemma NeighbourIsAdjacent(e: Edge, id: int, cols: int, n: int)
    requires cols >= 1 && n >= 0 && n % cols == 0 && 0 <= id < n
    ensures Neighbour(e, id, cols, n).None? <==> OnBorder(n, cols, e, id)
    ensures Neighbour(e, id, cols, n).Some? ==>
      var j := Neighbour(e, id, cols, n).value;
      && 0 <= j < n && j != id
      && Neighbour(Opposite(e), j, cols, n) == Some(id)
      && (e == Top || e == Bottom ==> j % cols == id % cols)
      && (e == Left || e == Right ==> j / cols == id / cols)
  {
    match e {
      case Top => TopNeighbour(id, cols, n);
      case Bottom => BottomNeighbour(id, cols, n);
      case Left => LeftNeighbour(id, cols, n);
      case Right => RightNeighbour(id, cols, n);
    }
  }

  lemma TopNeighbour(id: int, cols: int, n: int)
    requires cols >= 1 && 0 <= id < n
    ensures id >= cols ==> (id - cols) % cols == id % cols
  {
    if id >= cols {
      ModOfDecomposition(id - cols, id / cols - 1, id % cols, cols);
    }
  }

  lemma BottomNeighbour(id: int, cols: int, n: int)
    requires cols >= 1 && 0 <= id < n
    ensures id < n - cols ==> (id + cols) % cols == id % cols
  {
    if id < n - cols {
      ModOfDecomposition(id + cols, id / cols + 1, id % cols, cols);
    }
  }

  lemma LeftNeighbour(id: int, cols: int, n: int)
    requires cols >= 1 && 0 <= id < n
    ensures id % cols != 0 ==> (id - 1) / cols == id / cols && (id - 1 + 1) % cols != 0
  {
    if id % cols != 0 {
      ModOfDecomposition(id - 1, id / cols, id % cols - 1, cols);
    }
  }

  lemma RightNeighbour(id: int, cols: int, n: int)
    requires cols >= 1 && n % cols == 0 && 0 <= id < n
    ensures (id + 1) % cols != 0 ==> id + 1 < n && (id + 1) / cols == id / cols && (id + 1) % cols != 0
  {
    var q, c := id / cols, id % cols;
    if c + 1 < cols {
      ModOfDecomposition(id + 1, q, c + 1, cols);
      var rows := n / cols;
      if q >= rows {
        MulMonotone(rows, q, cols);
        assert false;
      }
      MulMonotone(q + 1, rows, cols);
      assert (q + 1) * cols == q * cols + cols;
    } else {
      ModOfDecomposition(id + 1, q + 1, 0, cols);
    }
  }

  /** Proof helper: division with remainder is unique. */
  lemma ModOfDecomposition(x: int, q: int, c: int, cols: int)
    requires cols >= 1 && 0 <= c < cols && x == q * cols + c
    ensures x % cols == c && x / cols == q
  {
    var q', c' := x / cols, x % cols;
    var d := q - q';
    assert d * cols == q * cols - q' * cols;
    assert d * cols == c' - c;
    if d >= 1 {
      MulMonotone(1, d, cols);
    } else if d <= -1 {
      MulMonotone(d, -1, cols);
    }
  }

  /** Every shared seam carries the same blend on both sides. */
  predicate Seamless(tiles: seq<ScreenSettingEntity>, cols: int)
    requires cols >= 1
  {
    forall i, e :: 0 <= i < |tiles| && Neighbour(e, i, cols, |tiles|).Some? ==>
      0 <= Neighbour(e, i, cols, |tiles|).value < |tiles|
      && Blend(tiles[i], e) == Blend(tiles[Neighbour(e, i, cols, |tiles|).value], Opposite(e))
  }

  /**
   * The tile list after the blend of edge `e` of tile `id` is set to `v`. Writing the value
   * the edge already holds changes nothing and notifies nobody. Otherwise the edge takes the
   * value and, with symmetry on, so does the opposite edge of the neighbour across `e`; that
   * write notifies the neighbour, whose mirror back onto tile `id` writes an equal value and
   * stops there.
   */
  function EdgeEdited(tiles: seq<ScreenSettingEntity>, cols: int, symmetry: bool, id: int, e: Edge, v: real): seq<ScreenSettingEntity>
    requires cols >= 1 && |tiles| % cols == 0 && 0 <= id < |tiles|
  {
    if Blend(tiles[id], e) == v then tiles
    else
      var written := tiles[id := WithBlend(tiles[id], e, v)];
      if !symmetry || Neighbour(e, id, cols, |tiles|).None? then written
      else
        var j := Neighbour(e, id, cols, |tiles|).value;
        NeighbourIsAdjacent(e, id, cols, |tiles|);
        written[j := WithBlend(written[j], Opposite(e), v)]
  }

  /** Edge `f` of tile `i` is one that an edit of edge `e` of tile `id` writes when it changes a value. */
  predicate Written(cols: int, n: int, symmetry: bool, id: int, e: Edge, i: int, f: Edge)
    requires cols >= 1
  {
    (i == id && f == e) || (symmetry && Neighbour(e, id, cols, n) == Some(i) && f == Opposite(e))
  }

  /**
   * A blend edit that changes the value sets the edited edge and, with symmetry on, the
   * neighbour's opposite edge to `v`; every other blend of the grid keeps its value, and an
   * edit to the value the edge already holds changes nothing.
   */
  lemma EditedBlend(tiles: seq<ScreenSettingEntity>, cols: int, symmetry: bool, id: int, e: Edge, v: real, i: int, f: Edge)
    requires cols >= 1 && |tiles| % cols == 0 && 0 <= id < |tiles| && 0 <= i < |tiles|
    ensures var r := EdgeEdited(tiles, cols, symmetry, id, e, v);
      && |r| == |tiles|
      && (Blend(tiles[id], e) == v ==> r == tiles)
      && Blend(r[i], f) == if Blend(tiles[id], e) != v && Written(cols, |tiles|, symmetry, id, e, i, f) then v else Blend(tiles[i], f)
  {
    NeighbourIsAdjacent(e, id, cols, |tiles|);
  }

  /**
   * A blend edit changes no tile other than the edited one and its mirror, and in those
   * two only blends: ids, masks and uv shifts stay.
   */
  lemma EditedFrame(tiles: seq<ScreenSettingEntity>, cols: int, symmetry: bool, id: int, e: Edge, v: real)
    requires cols >= 1 && |tiles| % cols == 0 && 0 <= id < |tiles|
    ensures var r := EdgeEdited(tiles, cols, symmetry, id, e, v);
      && |r| == |tiles|
      && (forall i :: 0 <= i < |tiles| && i != id && !(symmetry && Neighbour(e, id, cols, |tiles|) == Some(i)) ==> r[i] == tiles[i])
      && (forall i :: 0 <= i < |tiles| ==> SameExceptBlends(r[i], tiles[i]))
  {
    NeighbourIsAdjacent(e, id, cols, |tiles|);
  }

  /** Two records of the same tile that differ at most in their blends. */
  predicate SameExceptBlends(t: ScreenSettingEntity, u: ScreenSettingEntity)
  {
    t == u.(topBlend := t.topBlend, bottomBlend := t.bottomBlend, leftBlend := t.leftBlend, rightBlend := t.rightBlend)
  }

  /** With symmetry on, the two sides of a seam are written together or not at all. */
  lemma WrittenOnBothSides(cols: int, n: int, id: int, e: Edge, i: int, f: Edge)
    requires cols >= 1 && n >= 0 && n % cols == 0 && 0 <= id < n && 0 <= i < n
    requires Neighbour(f, i, cols, n).Some?
    ensures var k := Neighbour(f, i, cols, n).value;
      0 <= k < n && (Written(cols, n, true, id, e, i, f) <==> Written(cols, n, true, id, e, k, Opposite(f)))
  {
    NeighbourIsAdjacent(e, id, cols, n);
    NeighbourIsAdjacent(f, i, cols, n);
    OppositeInvolutive(e);
    OppositeInvolutive(f);
  }

  /** With symmetry on, a blend edit keeps every seam of a seamless grid seamless. */
  lemma SymmetricEditKeepsSeams(tiles: seq<ScreenSettingEntity>, cols: int, id: int, e: Edge, v: real)
    requires cols >= 1 && |tiles| % cols == 0 && 0 <= id < |tiles|
    requires Seamless(tiles, cols)
    ensures Seamless(EdgeEdited(tiles, cols, true, id, e, v), cols)
  {
    var r := EdgeEdited(tiles, cols, true, id, e, v);
    var n := |tiles|;
    EditedFrame(tiles, cols, true, id, e, v);
    forall i, f | 0 <= i < n && Neighbour(f, i, cols, n).Some?
      ensures 0 <= Neighbour(f, i, cols, n).value < n
      ensures Blend(r[i], f) == Blend(r[Neighbour(f, i, cols, n).value], Opposite(f))
    {
      var k := Neighbour(f, i, cols, n).value;
      WrittenOnBothSides(cols, n, id, e, i, f);
      EditedBlend(tiles, cols, true, id, e, v, i, f);
      EditedBlend(tiles, cols, true, id, e, v, k, Opposite(f));
    }
  }

  // ---------------------------------------------------------------------------
  // Resizing the grid

  /** `if (NumOfProjectors < 1) NumOfProjectors = 1`. */
  function AtLeastOne(k: int): (r: int)
    ensures r >= 1 && r >= k
    ensures k < 1 ==> r == 1
    ensures k >= 1 ==> r == k
  {
    if k < 1 then 1 else k
  }

  /**
   * The tile list after `BuildScreenSetting` brings it to `n` tiles: surplus tiles are
   * removed from the end; each missing tile `k` is created with id `k` and the values the
   * settings store `load` yields for it.
   */
  function Resized(tiles: seq<ScreenSettingEntity>, n: nat, load: nat -> ScreenSettingEntity): (r: seq<ScreenSettingEntity>)
    ensures |r| == n
    ensures forall i :: 0 <= i < n && i < |tiles| ==> r[i] == tiles[i]
    ensures forall k :: |tiles| <= k < n ==> r[k] == Created(k, load(k))
    ensures IdsInOrder(tiles) ==> IdsInOrder(r)
  {
    if n <= |tiles| then tiles[..n]
    else tiles + seq(n - |tiles|, j requires 0 <= j => Created(|tiles| + j, load(|tiles| + j)))
  }

  /** Growing by one tile appends the tile created for the next slot. */
  lemma ResizedGrows(tiles: seq<ScreenSettingEntity>, n: nat, load: nat -> ScreenSettingEntity)
    requires |tiles| <= n
    ensures Resized(tiles, n + 1, load) == Resized(tiles, n, load) + [Created(n, load(n))]
  {
    var r, r' := Resized(tiles, n, load), Resized(tiles, n + 1, load);
    assert forall i :: 0 <= i < n + 1 ==> r'[i] == (r + [Created(n, load(n))])[i];
  }
}
