/**
  The flattening rule that maps a (layer priority, local priority) pair onto
  the single priority of a track object's backing unit.  Every layer owns a
  band of `LayerHeight` consecutive flattened priorities; a local priority
  that does not fit into the band is clamped into its last slot.
 */
module Priority {
  import opened Wrappers

  /** Number of local-priority slots reserved per layer. */
  const LayerHeight: nat := 1000

  /** A local priority as stored after it joins a layer: in `[0, LayerHeight)`. */
  function ClampLocal(local: nat): (r: nat)
    ensures r < LayerHeight
    ensures local < LayerHeight ==> r == local
    ensures local >= LayerHeight ==> r == LayerHeight - 1
  {
    if local >= LayerHeight then LayerHeight - 1 else local
  }

  /** The flattened (backing) priority of an object with local priority
      `local` in a layer of priority `layerPriority`. */
  function Flatten(layerPriority: nat, local: nat): (r: nat)
    ensures layerPriority * LayerHeight <= r < (layerPriority + 1) * LayerHeight
  {
    layerPriority * LayerHeight + ClampLocal(local)
  }

  /** Does `flattened` fall into the band of the layer with priority `layerPriority`? */
  predicate InBand(layerPriority: nat, flattened: nat)
  {
    layerPriority * LayerHeight <= flattened < (layerPriority + 1) * LayerHeight
  }

  /** The local priority an owner must have for its track object to sit at
      `flattened`; `None` when `flattened` lies outside the layer's band. */
  function BackDerive(layerPriority: nat, flattened: nat): (r: Option<nat>)
    ensures r.Some? <==> InBand(layerPriority, flattened)
    ensures r.Some? ==> r.value < LayerHeight
  {
    if InBand(layerPriority, flattened) then Some(flattened - layerPriority * LayerHeight) else None
  }

  /** The two halves of the rule: an in-range local priority is added to the
      layer's base, an out-of-range one lands in the last slot of the band. */
  lemma FlattenCases(layerPriority: nat, local: nat)
    ensures local < LayerHeight ==> Flatten(layerPriority, local) == layerPriority * LayerHeight + local
    ensures local >= LayerHeight ==> Flatten(layerPriority, local) == (layerPriority + 1) * LayerHeight - 1
  {
  }

  /** A flattened priority decomposes back into its layer priority and its
      clamped local priority: the layer is the quotient, the slot the remainder. */
  lemma FlattenDecomposes(layerPriority: nat, local: nat)
    ensures Flatten(layerPriority, local) / LayerHeight == layerPriority
    ensures Flatten(layerPriority, local) % LayerHeight == ClampLocal(local)
  {
    var f := Flatten(layerPriority, local);
    var c := ClampLocal(local);
    assert f == layerPriority * LayerHeight + c;
    DivModUnique(f, layerPriority, c);
  }

  /** Euclidean division by `LayerHeight` has a unique quotient and remainder. */
  lemma {:induction false} DivModUnique(f: nat, q: nat, r: nat)
    requires r < LayerHeight && f == q * LayerHeight + r
    ensures f / LayerHeight == q && f % LayerHeight == r
  {
  }

  /** Over unbounded priorities, bands never collide: every object of a layer with lower priority is
      flattened strictly below every object of a layer with higher priority,
      whatever their local priorities. */
  lemma BandsOrdered(lowLayer: nat, highLayer: nat, localLow: nat, localHigh: nat)
    requires lowLayer < highLayer
    ensures Flatten(lowLayer, localLow) < Flatten(highLayer, localHigh)
  {
    assert (lowLayer + 1) * LayerHeight <= highLayer * LayerHeight;
  }

  /** Within one layer, distinct in-range local priorities stay distinct and
      keep their order once flattened. */
  lemma FlattenMonotoneInLayer(layerPriority: nat, a: nat, b: nat)
    requires a <= b
    ensures Flatten(layerPriority, a) <= Flatten(layerPriority, b)
    ensures a < b < LayerHeight ==> Flatten(layerPriority, a) < Flatten(layerPriority, b)
  {
  }

  /** Writing a flattened priority back and flattening again gives the written
      value, and back-deriving a flattened priority gives the clamped local
      priority: the two directions are inverse on the band. */
  lemma BackDeriveRoundTrip(layerPriority: nat, local: nat, flattened: nat)
    ensures BackDerive(layerPriority, Flatten(layerPriority, local)) == Some(ClampLocal(local))
    ensures BackDerive(layerPriority, flattened).Some? ==>
              Flatten(layerPriority, BackDerive(layerPriority, flattened).value) == flattened
  {
  }
}
