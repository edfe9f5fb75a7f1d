/**
 * The denning RSF tool: the road-replacement flags, the candidate-area mask that new roads
 * and other anthropogenic features remove cells from, and the 7-class denning RSF.
 */
module Denning {
  import opened Wrappers
  import Classify

  // ---------------------------------------------------------------------------------------
  // Flags

  /** A Python value compared by the flag test: a string, a boolean or an integer. */
  datatype PyValue = PyStr(s: string) | PyBool(b: bool) | PyInt(i: int)

  /** Python equality of a value with an integer (True equals 1, False equals 0, strings never). */
  predicate PyEqInt(v: PyValue, k: int) {
    match v
    case PyStr(_) => false
    case PyBool(b) => (if b then 1 else 0) == k
    case PyInt(i) => i == k
  }

  /** The flag test `v == True or v == -1 or v == "true"`. */
  predicate Requested(v: PyValue) {
    PyEqInt(v, 1) || PyEqInt(v, -1) || v == PyStr("true")
  }

  /** An argument passed on the command line is a string, so only "true" requests replacement. */
  lemma CommandLineRequest(arg: string)
    ensures Requested(PyStr(arg)) <==> arg == "true"
  {
  }

  /**
   * The road flags main sets: the user's roads replace the base roads (userRD "Y") only when
   * replacement is requested and new roads are given; otherwise userRD is "N" and the base
   * roads are used.
   */
  method RoadFlags(rplcRoads: PyValue, newRoads: string, baseRoads: string)
    returns (userRD: string, ipRoads: string)
    ensures userRD == "Y" || userRD == "N"
    ensures userRD == "Y" <==> Requested(rplcRoads) && newRoads != "#"
    ensures ipRoads == if userRD == "Y" then newRoads else baseRoads
  {
    userRD := "N";
    ipRoads := baseRoads;
    if PyEqInt(rplcRoads, 1) || PyEqInt(rplcRoads, -1) || rplcRoads == PyStr("true") {
      if newRoads != "#" {
        userRD := "Y";
        ipRoads := newRoads;
      }
    }
  }

  /** Roads are clipped only when new or decommissioned roads are given. */
  predicate ClipRoads(newRoads: string, decRoads: string) {
    newRoads != "#" || decRoads != "#"
  }

  /** New roads are appended to the clipped base roads unless they replace them. */
  predicate AppendRoads(userRD: string) {
    userRD != "Y"
  }

  /**
   * The feature classes the clipped road layer is built from before decommissioned roads are
   * removed: the clip of ipRoads when roads are clipped, then the new roads that addRoads
   * appends when new roads are given and do not replace the base roads.
   */
  function RoadSources(userRD: string, ipRoads: string, newRoads: string, decRoads: string): seq<string> {
    (if ClipRoads(newRoads, decRoads) then [ipRoads] else [])
    + (if newRoads != "#" && AppendRoads(userRD) then [newRoads] else [])
  }

  /**
   * With the flags RoadFlags sets, the road layer holds the new roads alone when they replace
   * the base roads, the base roads followed by the new ones when they are added, the base roads
   * alone when only decommissioned roads are given, and nothing when neither is given.
   */
  lemma RoadLayerSources(rplcRoads: PyValue, newRoads: string, baseRoads: string, decRoads: string,
                         userRD: string, ipRoads: string)
    requires userRD == "Y" || userRD == "N"
    requires userRD == "Y" <==> Requested(rplcRoads) && newRoads != "#"
    requires ipRoads == if userRD == "Y" then newRoads else baseRoads
    ensures RoadSources(userRD, ipRoads, newRoads, decRoads) ==
              if newRoads == "#" then (if decRoads != "#" then [baseRoads] else [])
              else if Requested(rplcRoads) then [newRoads]
              else [baseRoads, newRoads]
  {
  }

  // ---------------------------------------------------------------------------------------
  // The candidate mask

  /** Swap a rasterised footprint: RemapValue([[0, 1], [1, 0]]) with other values kept. */
  function Swap(footprint: int): int {
    Classify.RemapInt([Classify.IntRange(0, 0, 1), Classify.IntRange(1, 1, 0)], footprint)
  }

  lemma SwapValues(footprint: int)
    requires footprint == 0 || footprint == 1
    ensures Swap(footprint) == 1 - footprint
  {
    var table := [Classify.IntRange(0, 0, 1), Classify.IntRange(1, 1, 0)];
    Classify.RemapIntFirst(table, footprint, footprint);
  }

  /** A 0/1 raster of n cells. */
  predicate Binary(r: seq<int>, n: nat) {
    |r| == n && forall c | 0 <= c < n :: r[c] == 0 || r[c] == 1
  }

  /** The mask after a footprint is burned: Swap(footprint) * mask, cell by cell. */
  function MaskUpdate(mask: seq<int>, footprint: seq<int>): (r: seq<int>)
    requires |footprint| == |mask|
    ensures |r| == |mask|
  {
    seq(|mask|, c requires 0 <= c < |mask| => Swap(footprint[c]) * mask[c])
  }

  /**
   * Burning a footprint sets its cells to 0 and leaves every other cell as it was: the mask
   * stays binary, no cell goes from 0 to 1, and burning the same footprint again changes nothing.
   */
  lemma MaskUpdateEffect(mask: seq<int>, footprint: seq<int>)
    requires Binary(mask, |mask|) && Binary(footprint, |mask|)
    ensures Binary(MaskUpdate(mask, footprint), |mask|)
    ensures forall c | 0 <= c < |mask| ::
              MaskUpdate(mask, footprint)[c] == (if footprint[c] == 1 then 0 else mask[c])
    ensures forall c | 0 <= c < |mask| :: MaskUpdate(mask, footprint)[c] <= mask[c]
    ensures MaskUpdate(MaskUpdate(mask, footprint), footprint) == MaskUpdate(mask, footprint)
  {
    forall c | 0 <= c < |mask|
      ensures MaskUpdate(mask, footprint)[c] == (if footprint[c] == 1 then 0 else mask[c])
    {
      SwapValues(footprint[c]);
    }
    var once := MaskUpdate(mask, footprint);
    forall c | 0 <= c < |mask|
      ensures MaskUpdate(once, footprint)[c] == once[c]
    {
      SwapValues(footprint[c]);
    }
  }

  /** The candidate-area mask of a denning run (1 where denning is possible). */
  class Candidates {
    var mask: seq<int>

    constructor (clipped: seq<int>)
      ensures mask == clipped
    {
      mask := clipped;
    }

    /** New roads: the 60 m right-of-way footprint is removed from the mask. */
    method AddRoads(footprint: seq<int>)
      requires |footprint| == |mask|
      modifies this
      ensures mask == MaskUpdate(old(mask), footprint)
    {
      mask := MaskUpdate(mask, footprint);
    }

    /** Other anthropogenic features: their footprint is removed from the mask. */
    method RemoveHabitat(footprint: seq<int>)
      requires |footprint| == |mask|
      modifies this
      ensures mask == MaskUpdate(old(mask), footprint)
    {
      mask := MaskUpdate(mask, footprint);
    }
  }

  // ---------------------------------------------------------------------------------------
  // Denning RSF

  /** The hard-coded minimum and maximum of the raw denning RSF. */
  const RawMin: real := 0.00000000052881943268801
  const RawMax: real := 67.2001571655273

  /** (raw - min) / (max - min). */
  function Rescale(raw: real): real {
    (raw - RawMin) / (RawMax - RawMin)
  }

  /** The rescale maps the minimum to 0, the maximum to 1, and preserves strict order. */
  lemma RescaleProperties(raw: real, raw': real)
    ensures Rescale(RawMin) == 0.0 && Rescale(RawMax) == 1.0
    ensures raw < raw' ==> Rescale(raw) < Rescale(raw')
    ensures RawMin <= raw <= RawMax ==> 0.0 <= Rescale(raw) <= 1.0
  {
    var d := RawMax - RawMin;
    assert d > 0.0;
    if raw < raw' {
      assert Rescale(raw') - Rescale(raw) == (raw' - raw) / d;
    }
    if RawMin <= raw <= RawMax {
      assert Rescale(raw) <= 1.0 by {
        assert raw - RawMin <= d;
      }
    }
  }

  /** The denning breakpoints: 7 classes 0 to 6. */
  const DenBreaks: seq<real> := [0.0001, 0.007843, 0.015686, 0.023529, 0.031373, 0.043137]

  lemma DenBreaksValid()
    ensures Classify.ValidBreaks(DenBreaks)
  {
  }

  /** The denning class of a rescaled value; None where no range holds it. */
  function DenClass(v: real): Option<int> {
    Classify.RemapRange(DenBreaks, 0, v)
  }

  /** Every value in [0, 1] has a class in 0..6, and a higher value never has a lower class. */
  lemma DenClassMonotone(v: real, w: real)
    requires 0.0 <= v <= w <= 1.0
    ensures DenClass(v).Some? && DenClass(w).Some?
    ensures 0 <= DenClass(v).value <= DenClass(w).value <= 6
  {
    Classify.RemapRangeMonotone(DenBreaks, 0, v, w);
  }

  /**
   * den_rsf = class * mask at one cell. A value outside [0, 1] has no class; the engine
   * would pass it through and multiply it by the mask, which is modelled only under mask 0
   * (the product is 0) and is None under mask 1.
   */
  function DenRsf(v: real, mask: int): Option<int> {
    if DenClass(v).Some? then Some(DenClass(v).value * mask)
    else if mask == 0 then Some(0)
    else None
  }

  /** den_rsf is 0 where the mask is 0 and the class itself, in 0..6, where it is 1. */
  lemma DenRsfMasked(raw: real, mask: int)
    requires RawMin <= raw <= RawMax && (mask == 0 || mask == 1)
    ensures var d := DenRsf(Rescale(raw), mask);
            && d.Some? && 0 <= d.value <= 6
            && (mask == 0 ==> d.value == 0)
            && (mask == 1 ==> d == DenClass(Rescale(raw)))
  {
    RescaleProperties(raw, raw);
    DenClassMonotone(Rescale(raw), Rescale(raw));
  }
}
