/**
 * The per-tile records `ProjectorUtilityBlender.SetBuffer` hands to the blend shader:
 * one `ProjectorUtilityBuffer` per screen, at the slot of the screen's id.
 */
module Blender {
  import opened UnityMath
  import opened ScreenModel
  import opened GridEdit

  /** `ProjectorUtilityBuffer`, the record layout the shader reads. */
  datatype ProjectorUtilityBuffer = ProjectorUtilityBuffer(
    screenID: nat,
    overlapTop: real, overlapBottom: real, overlapLeft: real, overlapRight: real,
    uvShiftX: real, uvShiftY: real,
    maskTop: real, maskBottom: real, maskLeft: real, maskRight: real,
    maskTopLeft: Vector2, maskTopRight: Vector2, maskBottomLeft: Vector2, maskBottomRight: Vector2)

  /** The default value of a fresh `ProjectorUtilityBuffer[]` slot: every field zero. */
  const EmptyBuffer: ProjectorUtilityBuffer :=
    ProjectorUtilityBuffer(0, 0.0, 0.0, 0.0, 0.0, 0.0, 0.0, 0.0, 0.0, 0.0, 0.0, Zero, Zero, Zero, Zero)

  /** Every entity's id names a slot of an `n`-slot buffer. */
  predicate IdsBelow(entities: seq<ScreenSettingEntity>, n: int)
  {
    forall k :: 0 <= k < |entities| ==> 0 <= entities[k].id < n
  }

  /**
   * The record written for one entity: the id as `screenID`, the four blends as the four
   * overlaps in the order top, bottom, left, right, the uv shift split into its components
   * and the masks copied unchanged.
   */
  function Describe(t: ScreenSettingEntity): (b: ProjectorUtilityBuffer)
    requires t.id >= 0
    ensures b.screenID == t.id
    ensures b.overlapTop == Blend(t, Top) && b.overlapBottom == Blend(t, Bottom)
    ensures b.overlapLeft == Blend(t, Left) && b.overlapRight == Blend(t, Right)
    ensures Vector2(b.uvShiftX, b.uvShiftY) == t.uvShift
    ensures b.maskTop == t.topMask && b.maskBottom == t.bottomMask
    ensures b.maskLeft == t.leftMask && b.maskRight == t.rightMask
    ensures b.maskTopLeft == t.topLeftMask && b.maskTopRight == t.topRightMask
    ensures b.maskBottomLeft == t.bottomLeftMask && b.maskBottomRight == t.bottomRightMask
  {
    ProjectorUtilityBuffer(
      t.id,
      t.topBlend, t.bottomBlend, t.leftBlend, t.rightBlend,
      t.uvShift.x, t.uvShift.y,
      t.topMask, t.bottomMask, t.leftMask, t.rightMask,
      t.topLeftMask, t.topRightMask, t.bottomLeftMask, t.bottomRightMask)
  }

  /** The buffer after the entities are written in list order, each at the slot of its id. */
  function Filled(n: nat, entities: seq<ScreenSettingEntity>): (buf: seq<ProjectorUtilityBuffer>)
    requires IdsBelow(entities, n)
    ensures |buf| == n
  {
    if |entities| == 0 then seq(n, _ => EmptyBuffer)
    else
      var last := entities[|entities| - 1];
      Filled(n, entities[..|entities| - 1])[last.id := Describe(last)]
  }

  /**
   * What each slot holds: a slot no entity names keeps the all-zero record, and a slot
   * named by an entity holds that entity's record unless a later entity names it too.
   */
  lemma {:induction false} FilledSlots(n: nat, entities: seq<ScreenSettingEntity>)
    requires IdsBelow(entities, n)
    ensures forall i :: 0 <= i < n && (forall k :: 0 <= k < |entities| ==> entities[k].id != i) ==>
      Filled(n, entities)[i] == EmptyBuffer
    ensures forall k :: 0 <= k < |entities| && (forall k' :: k < k' < |entities| ==> entities[k'].id != entities[k].id) ==>
      Filled(n, entities)[entities[k].id] == Describe(entities[k])
  {
    if |entities| > 0 {
      var init := entities[..|entities| - 1];
      FilledSlots(n, init);
      forall k | 0 <= k < |entities| - 1
        ensures init[k] == entities[k]
      {
      }
    }
  }

  /**
   * With the ids `0..n-1` in list order, slot `i` describes entity `i`: its `screenID` is
   * `i` and its fields copy entity `i`'s values.
   */
  lemma BufferInScreenOrder(entities: seq<ScreenSettingEntity>)
    requires IdsInOrder(entities)
    ensures IdsBelow(entities, |entities|)
    ensures forall i :: 0 <= i < |entities| ==>
      Filled(|entities|, entities)[i] == Describe(entities[i]) && Filled(|entities|, entities)[i].screenID == i
  {
    FilledSlots(|entities|, entities);
  }

  /** `ProjectorUtilityBlender`: holds the records last uploaded to the compute buffer. */
  class ProjectorUtilityBlender {
    var computeBuffer: seq<ProjectorUtilityBuffer>

    constructor ()
      ensures computeBuffer == []
    {
      computeBuffer := [];
    }

    /**
     * `SetBuffer`: allocates `numOfScreen` zeroed records and writes each entity at the
     * slot of its id, in list order.
     */
    method SetBuffer(numOfScreen: nat, entities: seq<ScreenSettingEntity>)
      requires IdsBelow(entities, numOfScreen)
      modifies this`computeBuffer
      ensures computeBuffer == Filled(numOfScreen, entities)
    {
      var buf := new ProjectorUtilityBuffer[numOfScreen](_ => EmptyBuffer);
      for k := 0 to |entities|
        invariant buf[..] == Filled(numOfScreen, entities[..k])
      {
        var entity := entities[k];
        assert entities[..k + 1][..k] == entities[..k];
        buf[entity.id] := Describe(entity);
      }
      assert entities[..|entities|] == entities;
      computeBuffer := buf[..];
    }
  }
}
