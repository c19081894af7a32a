/**
 * One projector tile's settings (`ScreenSettingEntity`), as a value.
 * The reactive properties of the source become plain fields; a write to a
 * property becomes a new record in the controller's tile sequence.
 */
module ScreenModel {
  import opened UnityMath

  /** The four edges of a tile that carry a blend fraction. */
  datatype Edge = Top | Bottom | Left | Right

  /** The edge on the other side of a shared seam. */
  function Opposite(e: Edge): (o: Edge)
    ensures o != e
    ensures (e == Top || e == Bottom) <==> (o == Top || o == Bottom)
  {
    match e
    case Top => Bottom
    case Bottom => Top
    case Left => Right
    case Right => Left
  }

  /** Crossing a seam twice leads back to the same edge. */
  lemma OppositeInvolutive(e: Edge)
    ensures Opposite(Opposite(e)) == e
  {
  }

  /** `ScreenSettingEntity`: the tile id and the values of its thirteen properties. */
  datatype ScreenSettingEntity = ScreenSettingEntity(
    id: int,
    topBlend: real, bottomBlend: real, leftBlend: real, rightBlend: real,
    topMask: real, bottomMask: real, leftMask: real, rightMask: real,
    topLeftMask: Vector2, topRightMask: Vector2, bottomLeftMask: Vector2, bottomRightMask: Vector2,
    uvShift: Vector2)

  /** The blend fraction stored for edge `e` (`TopBlend.Value`, ...). */
  function Blend(t: ScreenSettingEntity, e: Edge): real
  {
    match e
    case Top => t.topBlend
    case Bottom => t.bottomBlend
    case Left => t.leftBlend
    case Right => t.rightBlend
  }

  /** The tile after `<Edge>Blend.Value = v`: only that edge changes. */
  function WithBlend(t: ScreenSettingEntity, e: Edge, v: real): (u: ScreenSettingEntity)
    ensures Blend(u, e) == v
    ensures forall f :: f != e ==> Blend(u, f) == Blend(t, f)
    ensures u.id == t.id && u.uvShift == t.uvShift
    ensures u.topMask == t.topMask && u.bottomMask == t.bottomMask
    ensures u.leftMask == t.leftMask && u.rightMask == t.rightMask
    ensures u.topLeftMask == t.topLeftMask && u.topRightMask == t.topRightMask
    ensures u.bottomLeftMask == t.bottomLeftMask && u.bottomRightMask == t.bottomRightMask
  {
    match e
    case Top => t.(topBlend := v)
    case Bottom => t.(bottomBlend := v)
    case Left => t.(leftBlend := v)
    case Right => t.(rightBlend := v)
  }

  /** Writing the value an edge already holds leaves the record as it is. */
  lemma SameBlendUnchanged(t: ScreenSettingEntity, e: Edge)
    ensures WithBlend(t, e, Blend(t, e)) == t
  {
  }

  /** The corners of a tile that carry a two-dimensional mask. */
  datatype Corner = TopLeft | TopRight | BottomLeft | BottomRight

  /** The mask along edge `e` (`topMask.Value`, ...). */
  function EdgeMask(t: ScreenSettingEntity, e: Edge): real
  {
    match e
    case Top => t.topMask
    case Bottom => t.bottomMask
    case Left => t.leftMask
    case Right => t.rightMask
  }

  /** The mask at corner `c` (`topLeftMask.Value`, ...). */
  function CornerMask(t: ScreenSettingEntity, c: Corner): Vector2
  {
    match c
    case TopLeft => t.topLeftMask
    case TopRight => t.topRightMask
    case BottomLeft => t.bottomLeftMask
    case BottomRight => t.bottomRightMask
  }

  /** The tile after `<edge>Mask.Value = v`: only that mask changes. */
  function WithEdgeMask(t: ScreenSettingEntity, e: Edge, v: real): (u: ScreenSettingEntity)
    ensures EdgeMask(u, e) == v
    ensures forall f :: f != e ==> EdgeMask(u, f) == EdgeMask(t, f)
    ensures forall c :: CornerMask(u, c) == CornerMask(t, c)
    ensures forall f :: Blend(u, f) == Blend(t, f)
    ensures u.id == t.id && u.uvShift == t.uvShift
    ensures EdgeMask(t, e) == v ==> u == t
  {
    match e
    case Top => t.(topMask := v)
    case Bottom => t.(bottomMask := v)
    case Left => t.(leftMask := v)
    case Right => t.(rightMask := v)
  }

  /** The tile after `<corner>Mask.Value = v`: only that corner's mask changes. */
  function WithCornerMask(t: ScreenSettingEntity, c: Corner, v: Vector2): (u: ScreenSettingEntity)
    ensures CornerMask(u, c) == v
    ensures forall d :: d != c ==> CornerMask(u, d) == CornerMask(t, d)
    ensures forall e :: EdgeMask(u, e) == EdgeMask(t, e)
    ensures forall e :: Blend(u, e) == Blend(t, e)
    ensures u.id == t.id && u.uvShift == t.uvShift
    ensures CornerMask(t, c) == v ==> u == t
  {
    match c
    case TopLeft => t.(topLeftMask := v)
    case TopRight => t.(topRightMask := v)
    case BottomLeft => t.(bottomLeftMask := v)
    case BottomRight => t.(bottomRightMask := v)
  }

  /** The tile after `uvShift.Value = s`: blends, masks and id keep their values. */
  function WithUvShift(t: ScreenSettingEntity, s: Vector2): (u: ScreenSettingEntity)
    ensures u.uvShift == s
    ensures forall e :: Blend(u, e) == Blend(t, e) && EdgeMask(u, e) == EdgeMask(t, e)
    ensures forall c :: CornerMask(u, c) == CornerMask(t, c)
    ensures u.id == t.id
    ensures t.uvShift == s ==> u == t
  {
    t.(uvShift := s)
  }

  /** A tile created for slot `id` from the values the settings store yields for it. */
  function Created(id: nat, stored: ScreenSettingEntity): (t: ScreenSettingEntity)
    ensures t.id == id
    ensures forall e :: Blend(t, e) == Blend(stored, e)
    ensures t.uvShift == stored.uvShift
    ensures t.topMask == stored.topMask && t.bottomMask == stored.bottomMask
    ensures t.leftMask == stored.leftMask && t.rightMask == stored.rightMask
    ensures t.topLeftMask == stored.topLeftMask && t.topRightMask == stored.topRightMask
    ensures t.bottomLeftMask == stored.bottomLeftMask && t.bottomRightMask == stored.bottomRightMask
  {
    stored.(id := id)
  }
}
