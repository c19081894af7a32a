/**
 * The step-by-step view of the four margin loops of `GetAdjustedPosition`: what has been
 * accumulated after `i` iterations, how one iteration extends it, and how the finished
 * walk meets the margins of `BlendGeometry`.
 */
module MarginWalk {
  import opened ScreenModel
  import opened BlendGeometry

  function Min(a: int, b: int): int { if a <= b then a else b }

  function Max(a: int, b: int): int { if a >= b then a else b }

  /** `len % 2 != 0 || len / 2 != pos + 1 + i`: the "before" loop reads a near blend in iteration `i`. */
  predicate BeforeGuard(len: int, pos: int, i: int)
  {
    len % 2 != 0 || len / 2 != pos + 1 + i
  }

  /** `len % 2 != 0 || len / 2 != len - pos + i`: the "after" loop reads a far blend in iteration `i`. */
  predicate AfterGuard(len: int, pos: int, i: int)
  {
    len % 2 != 0 || len / 2 != len - pos + i
  }

  /** The tiles the first `i` iterations of the "before" loop read all exist. */
  predicate BeforeWalked(n: int, l: Line, i: int)
  {
    && LineInBounds(n, l.base, l.stride, l.pos, l.pos + i)
    && LineInBounds(n, l.base, l.stride, l.pos + 1, Min(l.pos + i + 1, BeforeNearEnd(l.length)))
  }

  /** The "before" margin after `i` iterations: far blends of `[pos, pos+i)`, near blends of the tiles after them. */
  function BeforeSoFar(tiles: seq<ScreenSettingEntity>, a: Axis, l: Line, i: int): real
    requires BeforeWalked(|tiles|, l, i)
  {
    EdgeSum(tiles, FarEdge(a), l.base, l.stride, l.pos, l.pos + i)
    + EdgeSum(tiles, NearEdge(a), l.base, l.stride, l.pos + 1, Min(l.pos + i + 1, BeforeNearEnd(l.length)))
  }

  /** One iteration of the "before" loop adds the guarded near blend and the far blend. */
  lemma BeforeStep(tiles: seq<ScreenSettingEntity>, a: Axis, l: Line, i: int)
    requires l.length >= 1 && 0 <= i < Overlaps(l.length, l.pos).before
    requires BeforeWalked(|tiles|, l, i)
    requires 0 <= TileIndex(l.base, l.stride, l.pos + i) < |tiles|
    requires BeforeGuard(l.length, l.pos, i) ==> 0 <= TileIndex(l.base, l.stride, l.pos + i + 1) < |tiles|
    ensures BeforeWalked(|tiles|, l, i + 1)
    ensures BeforeSoFar(tiles, a, l, i + 1)
         == BeforeSoFar(tiles, a, l, i)
            + (if BeforeGuard(l.length, l.pos, i) then Blend(tiles[TileIndex(l.base, l.stride, l.pos + i + 1)], NearEdge(a)) else 0.0)
            + Blend(tiles[TileIndex(l.base, l.stride, l.pos + i)], FarEdge(a))
  {
    var ne := BeforeNearEnd(l.length);
    if BeforeGuard(l.length, l.pos, i) {
      assert Min(l.pos + i + 1, ne) == l.pos + i + 1 && Min(l.pos + i + 2, ne) == l.pos + i + 2;
    } else {
      assert Min(l.pos + i + 1, ne) == ne == Min(l.pos + i + 2, ne);
    }
  }

  /** A failed read in iteration `i` of the "before" loop is a tile of the "before" ranges. */
  lemma BeforeReadOutside(n: int, l: Line, i: int)
    requires l.length >= 1 && 0 <= i < Overlaps(l.length, l.pos).before
    requires !(0 <= TileIndex(l.base, l.stride, l.pos + i) < n)
          || (BeforeGuard(l.length, l.pos, i) && !(0 <= TileIndex(l.base, l.stride, l.pos + i + 1) < n))
    ensures !BeforeInBounds(n, l)
  {
  }

  /** The finished "before" walk is the "before" margin. */
  lemma BeforeComplete(tiles: seq<ScreenSettingEntity>, a: Axis, l: Line, count: int)
    requires l.length >= 1 && count == Overlaps(l.length, l.pos).before
    requires count > 0 ==> BeforeWalked(|tiles|, l, count)
    ensures BeforeInBounds(|tiles|, l)
    ensures BeforeMargin(tiles, a, l) == if count > 0 then BeforeSoFar(tiles, a, l, count) else 0.0
  {
    if count > 0 {
      assert Min(l.pos + count + 1, BeforeNearEnd(l.length)) == BeforeNearEnd(l.length);
    }
  }

  /** The tiles the first `i` iterations of the "after" loop read all exist. */
  predicate AfterWalked(n: int, l: Line, i: int)
  {
    && LineInBounds(n, l.base, l.stride, l.pos - i + 1, l.pos + 1)
    && LineInBounds(n, l.base, l.stride, Max(l.pos - i, l.length / 2), l.pos)
  }

  /** The "after" margin after `i` iterations: near blends of `(pos-i, pos]`, far blends of the tiles before them. */
  function AfterSoFar(tiles: seq<ScreenSettingEntity>, a: Axis, l: Line, i: int): real
    requires AfterWalked(|tiles|, l, i)
  {
    EdgeSum(tiles, NearEdge(a), l.base, l.stride, l.pos - i + 1, l.pos + 1)
    + EdgeSum(tiles, FarEdge(a), l.base, l.stride, Max(l.pos - i, l.length / 2), l.pos)
  }

  /** One iteration of the "after" loop adds the guarded far blend and the near blend. */
  lemma AfterStep(tiles: seq<ScreenSettingEntity>, a: Axis, l: Line, i: int)
    requires l.length >= 1 && 0 <= i < Overlaps(l.length, l.pos).after
    requires AfterWalked(|tiles|, l, i)
    requires 0 <= TileIndex(l.base, l.stride, l.pos - i) < |tiles|
    requires AfterGuard(l.length, l.pos, i) ==> 0 <= TileIndex(l.base, l.stride, l.pos - i - 1) < |tiles|
    ensures AfterWalked(|tiles|, l, i + 1)
    ensures AfterSoFar(tiles, a, l, i + 1)
         == AfterSoFar(tiles, a, l, i)
            + (if AfterGuard(l.length, l.pos, i) then Blend(tiles[TileIndex(l.base, l.stride, l.pos - i - 1)], FarEdge(a)) else 0.0)
            + Blend(tiles[TileIndex(l.base, l.stride, l.pos - i)], NearEdge(a))
  {
    var b, s, p := l.base, l.stride, l.pos;
    EdgeSumPrepend(tiles, NearEdge(a), b, s, p - i, p + 1);
    if AfterGuard(l.length, p, i) {
      assert Max(p - i, l.length / 2) == p - i && Max(p - i - 1, l.length / 2) == p - i - 1;
      EdgeSumPrepend(tiles, FarEdge(a), b, s, p - i - 1, p);
    } else {
      assert Max(p - i, l.length / 2) == l.length / 2 == Max(p - i - 1, l.length / 2);
    }
  }

  /** A failed read in iteration `i` of the "after" loop is a tile of the "after" ranges. */
  lemma AfterReadOutside(n: int, l: Line, i: int)
    requires l.length >= 1 && 0 <= i < Overlaps(l.length, l.pos).after
    requires !(0 <= TileIndex(l.base, l.stride, l.pos - i) < n)
          || (AfterGuard(l.length, l.pos, i) && !(0 <= TileIndex(l.base, l.stride, l.pos - i - 1) < n))
    ensures !AfterInBounds(n, l)
  {
  }

  /** The finished "after" walk is the "after" margin. */
  lemma AfterComplete(tiles: seq<ScreenSettingEntity>, a: Axis, l: Line, count: int)
    requires l.length >= 1 && count == Overlaps(l.length, l.pos).after
    requires count > 0 ==> AfterWalked(|tiles|, l, count)
    ensures AfterInBounds(|tiles|, l)
    ensures AfterMargin(tiles, a, l) == if count > 0 then AfterSoFar(tiles, a, l, count) else 0.0
  {
    if count > 0 {
      assert Max(l.pos - count, l.length / 2) == l.length / 2;
    }
  }
}
