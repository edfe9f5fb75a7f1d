/**
 * Secondary inputs derived from the edited land cover and regen layers: the forest mask,
 * the regen eraser, land cover outside regen, the six land-cover class masks and the
 * species composition of upland tree.
 */
module Secondary {
  import opened Wrappers
  import Classify

  /** Land-cover classes 1 and 2 (upland and wet tree) are forest. */
  const ForestTable: seq<Classify.IntRange> := [Classify.IntRange(1, 2, 1), Classify.IntRange(3, 10, 0)]
  /** Regen 1 becomes 0 and regen 0 becomes 1. */
  const EraseTable: seq<Classify.IntRange> := [Classify.IntRange(1, 1, 0), Classify.IntRange(0, 0, 1)]
  const NovegTable: seq<Classify.IntRange> := [Classify.IntRange(1, 5, 0), Classify.IntRange(6, 10, 1)]
  const UherbTable: seq<Classify.IntRange> :=
    [Classify.IntRange(1, 2, 0), Classify.IntRange(3, 3, 1), Classify.IntRange(4, 10, 0)]
  const WtreeTable: seq<Classify.IntRange> :=
    [Classify.IntRange(1, 1, 0), Classify.IntRange(2, 2, 1), Classify.IntRange(3, 10, 0)]
  const UtreeTable: seq<Classify.IntRange> := [Classify.IntRange(1, 1, 1), Classify.IntRange(2, 10, 0)]
  const WherbTable: seq<Classify.IntRange> :=
    [Classify.IntRange(1, 3, 0), Classify.IntRange(4, 4, 1), Classify.IntRange(5, 10, 0)]
  const ShrubTable: seq<Classify.IntRange> :=
    [Classify.IntRange(1, 4, 0), Classify.IntRange(5, 5, 1), Classify.IntRange(6, 10, 0)]

  /** The class masks of one cell, derived from land cover outside regen. */
  datatype CoverMasks = CoverMasks(erase: int, rsflcov: int, noveg: int, uherb: int, wtree: int,
                                   utree: int, wherb: int, shrub: int, scUtree: real)

  /** The secondary inputs of one cell; the class masks are derived only outside the risk-only process. */
  datatype Secondary = Secondary(forest: int, cover: Option<CoverMasks>)

  /** The class masks of a cell with land cover lcov, regen rgn and percent conifer pctcon. */
  function Masks(lcov: int, rgn: int, pctcon: real): CoverMasks {
    var erase := Classify.RemapInt(EraseTable, rgn);
    var rsflcov := erase * lcov;
    var utree := Classify.RemapInt(UtreeTable, rsflcov);
    CoverMasks(erase, rsflcov,
               Classify.RemapInt(NovegTable, rsflcov), Classify.RemapInt(UherbTable, rsflcov),
               Classify.RemapInt(WtreeTable, rsflcov), utree,
               Classify.RemapInt(WherbTable, rsflcov), Classify.RemapInt(ShrubTable, rsflcov),
               utree as real * pctcon)
  }

  /** The secondary inputs of one cell for the given process (3 is risk only). */
  function SecInputs(process: int, lcov: int, rgn: int, pctcon: real): (r: Secondary)
    ensures r.forest == Classify.RemapInt(ForestTable, lcov)
    ensures r.cover.Some? <==> process != 3
  {
    Secondary(Classify.RemapInt(ForestTable, lcov), if process != 3 then Some(Masks(lcov, rgn, pctcon)) else None)
  }

  /** The number of class masks that are set. */
  function MaskSum(m: CoverMasks): int {
    m.noveg + m.uherb + m.wtree + m.utree + m.wherb + m.shrub
  }

  /** A land-cover class of the tool's legend. */
  predicate IsCover(v: int) { 1 <= v <= 10 }

  /** Forest is exactly classes 1 and 2. */
  lemma ForestMask(lcov: int)
    requires IsCover(lcov)
    ensures Classify.RemapInt(ForestTable, lcov) == (if lcov <= 2 then 1 else 0)
  {
    if lcov <= 2 {
      Classify.RemapIntFirst(ForestTable, lcov, 0);
    } else {
      Classify.RemapIntFirst(ForestTable, lcov, 1);
    }
  }

  /** In a regen cell every class mask is 0. */
  lemma RegenCellsMasked(lcov: int, pctcon: real)
    ensures var m := Masks(lcov, 1, pctcon);
            m.rsflcov == 0 && m.noveg == 0 && m.uherb == 0 && m.wtree == 0 &&
            m.utree == 0 && m.wherb == 0 && m.shrub == 0 && m.scUtree == 0.0
  {
    Classify.RemapIntFirst(EraseTable, 1, 0);
  }

  /** The noveg table sets exactly the non-vegetated (6 to 10) cells of the legend. */
  lemma NovegMask(v: int)
    requires IsCover(v)
    ensures Classify.RemapInt(NovegTable, v) == (if v >= 6 then 1 else 0)
  {
    Classify.RemapIntFirst(NovegTable, v, if v <= 5 then 0 else 1);
  }

  /** The utree table sets exactly the upland tree (1) cells of the legend. */
  lemma UtreeMask(v: int)
    requires IsCover(v)
    ensures Classify.RemapInt(UtreeTable, v) == (if v == 1 then 1 else 0)
  {
    Classify.RemapIntFirst(UtreeTable, v, if v == 1 then 0 else 1);
  }

  /** The uherb table sets exactly the upland herb (3) cells of the legend. */
  lemma UherbMask(v: int)
    requires IsCover(v)
    ensures Classify.RemapInt(UherbTable, v) == (if v == 3 then 1 else 0)
  {
    Classify.RemapIntFirst(UherbTable, v, if v <= 2 then 0 else if v == 3 then 1 else 2);
  }

  /** The wtree table sets exactly the wet tree (2) cells of the legend. */
  lemma WtreeMask(v: int)
    requires IsCover(v)
    ensures Classify.RemapInt(WtreeTable, v) == (if v == 2 then 1 else 0)
  {
    Classify.RemapIntFirst(WtreeTable, v, if v == 1 then 0 else if v == 2 then 1 else 2);
  }

  /** The wherb table sets exactly the wet herb (4) cells of the legend. */
  lemma WherbMask(v: int)
    requires IsCover(v)
    ensures Classify.RemapInt(WherbTable, v) == (if v == 4 then 1 else 0)
  {
    Classify.RemapIntFirst(WherbTable, v, if v <= 3 then 0 else if v == 4 then 1 else 2);
  }

  /** The shrub table sets exactly the shrub (5) cells of the legend. */
  lemma ShrubMask(v: int)
    requires IsCover(v)
    ensures Classify.RemapInt(ShrubTable, v) == (if v == 5 then 1 else 0)
  {
    Classify.RemapIntFirst(ShrubTable, v, if v <= 4 then 0 else if v == 5 then 1 else 2);
  }

  /**
   * Outside regen the class masks partition the legend: each is 0 or 1, exactly one is set,
   * and it is the one of the cell's class (utree 1, wtree 2, uherb 3, wherb 4, shrub 5,
   * noveg 6 to 10). Species composition is percent conifer where the cell is upland tree.
   */
  lemma MasksPartition(lcov: int, pctcon: real)
    requires IsCover(lcov)
    ensures var m := Masks(lcov, 0, pctcon);
            && m.rsflcov == lcov
            && MaskSum(m) == 1
            && (m.utree == 1 <==> lcov == 1)
            && (m.wtree == 1 <==> lcov == 2)
            && (m.uherb == 1 <==> lcov == 3)
            && (m.wherb == 1 <==> lcov == 4)
            && (m.shrub == 1 <==> lcov == 5)
            && (m.noveg == 1 <==> lcov >= 6)
            && m.scUtree == (if lcov == 1 then pctcon else 0.0)
  {
    Classify.RemapIntFirst(EraseTable, 0, 1);
    var m := Masks(lcov, 0, pctcon);
    assert m.erase == 1;
    assert m.rsflcov == lcov;
    NovegMask(lcov);
    UtreeMask(lcov);
    UherbMask(lcov);
    WtreeMask(lcov);
    WherbMask(lcov);
    ShrubMask(lcov);
    assert m.noveg == (if lcov >= 6 then 1 else 0);
    assert m.utree == (if lcov == 1 then 1 else 0);
    assert m.uherb == (if lcov == 3 then 1 else 0);
    assert m.wtree == (if lcov == 2 then 1 else 0);
    assert m.wherb == (if lcov == 4 then 1 else 0);
    assert m.shrub == (if lcov == 5 then 1 else 0);
  }
}
