// The tunable parameters of the sphere controller (the SettingsSphere asset):
// the field record, its default values and the ranges its inspector attributes declare.

module Settings {

  /** A Unity LayerMask: one bit per layer, 32 layers. */
  type LayerMask = bv32

  /** `LayerMask = -1`: every bit set, every layer selected. */
  const EveryLayer: LayerMask := 0xFFFF_FFFF

  datatype SettingsSphere = SettingsSphere(
    maxSpeed: real,
    maxAcceleration: real,
    maxAirAcceleration: real,
    jumpHeight: real,
    maxAirJumps: int,
    maxGroundAngle: real,
    maxStairsAngle: real,
    maxSnapSpeed: real,
    probeDistance: real,
    probeMask: LayerMask,
    stairsMask: LayerMask)

  predicate Within(v: real, lo: real, hi: real) {
    lo <= v <= hi
  }

  /** The `[Range]` and `[Min]` attributes of the asset's fields. The editor enforces
      them on its sliders only; nothing checks them at run time. */
  predicate InDeclaredRanges(s: SettingsSphere) {
    && Within(s.maxSpeed, 0.0, 100.0)
    && Within(s.maxAcceleration, 0.0, 100.0)
    && Within(s.maxAirAcceleration, 0.0, 100.0)
    && Within(s.jumpHeight, 0.0, 10.0)
    && 0 <= s.maxAirJumps <= 5
    && Within(s.maxGroundAngle, 0.0, 90.0)
    && Within(s.maxStairsAngle, 0.0, 90.0)
    && Within(s.maxSnapSpeed, 0.0, 100.0)
    && 0.0 <= s.probeDistance
  }

  /** The field initialisers of the asset. */
  function Defaults(): (s: SettingsSphere)
    ensures InDeclaredRanges(s)
    ensures s.maxAirJumps == 0
    ensures s.maxGroundAngle <= s.maxStairsAngle
    ensures s.probeMask == EveryLayer && s.stairsMask == EveryLayer
  {
    SettingsSphere(
      maxSpeed := 10.0,
      maxAcceleration := 10.0,
      maxAirAcceleration := 1.0,
      jumpHeight := 2.0,
      maxAirJumps := 0,
      maxGroundAngle := 25.0,
      maxStairsAngle := 50.0,
      maxSnapSpeed := 100.0,
      probeDistance := 1.0,
      probeMask := EveryLayer,
      stairsMask := EveryLayer)
  }

  /** The low five bits of a layer index: C# masks the count of a shift of an `int` to them. */
  function ShiftCount(layer: int): bv5 {
    (layer % 32) as bv5
  }

  /** The mask with only bit `k` set. */
  function Bit(k: bv5): LayerMask {
    (1 as bv32) << k
  }

  /** Bit `k` of `mask` is set: shifted down to the lowest place, it is 1. */
  predicate BitSet(mask: LayerMask, k: bv5) {
    (mask >> k) & 1 == 1
  }

  /** `1 << layer`: the mask that selects the one layer. */
  function LayerBit(layer: int): LayerMask {
    Bit(ShiftCount(layer))
  }

  /** `mask` selects the layer. */
  predicate HasLayer(mask: LayerMask, layer: int) {
    BitSet(mask, ShiftCount(layer))
  }

  lemma {:induction false} MaskTestIsBitTest(mask: LayerMask, k: bv5)
    ensures mask & Bit(k) != 0 <==> BitSet(mask, k)
  {
  }

  /** The test `(mask & (1 << layer)) != 0` asks whether the mask selects the layer. */
  lemma MaskTestHasLayer(mask: LayerMask, layer: int)
    ensures mask & LayerBit(layer) != 0 <==> HasLayer(mask, layer)
  {
    MaskTestIsBitTest(mask, ShiftCount(layer));
  }

  lemma {:induction false} OneBitMasks(j: bv5, k: bv5)
    ensures BitSet(Bit(j), k) <==> j == k
  {
  }

  /** The mask of one layer selects that layer and no other. */
  lemma LayerBitSelectsOnlyItsLayer(layer: int, other: int)
    ensures HasLayer(LayerBit(layer), other) <==> ShiftCount(layer) == ShiftCount(other)
  {
    OneBitMasks(ShiftCount(layer), ShiftCount(other));
  }

  lemma {:induction false} AllOnesHasEveryBit(k: bv5)
    ensures BitSet(EveryLayer, k)
  {
  }

  /** The default masks (`-1`) select every layer. */
  lemma EveryLayerHasAllLayers(layer: int)
    ensures HasLayer(EveryLayer, layer)
  {
    AllOnesHasEveryBit(ShiftCount(layer));
  }
}
