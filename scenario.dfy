/**
 * The landscape layers of the habitat-state tool and the optional scenario edits that
 * overwrite them in place: new clearings, new linear herb features, new roads, reclaimed
 * roads and forecast ageing. Each layer is a raster over the cells of the analysis area,
 * held here as a sequence indexed by cell.
 */
module Scenario {
  import opened Wrappers
  import Classify
  import Clearings

  /** The values of all edited layers at one cell. */
  datatype CellState = CellState(lcov: int, rgn: int, rgnage: int,
                                 pctcon: real, ccRgn: real, ccTrd: real)

  // ---------------------------------------------------------------------------------------
  // Priority picks

  /** The priority grid of an edit: change = code gives 1, change = 0 gives 2, other values pass through. */
  function PickOrder(change: int, code: int): int {
    Classify.RemapInt([Classify.IntRange(code, code, 1), Classify.IntRange(0, 0, 2)], change)
  }

  /** Pick: the order-th raster of the list, NoData (None) when the order is out of range. */
  function PickCell<T>(order: int, choices: seq<T>): Option<T> {
    if 1 <= order <= |choices| then Some(choices[order - 1]) else None
  }

  /** On the footprint the first raster is picked, elsewhere the second. */
  lemma PickFollowsChange<T>(change: int, code: int, onFootprint: T, elsewhere: T)
    requires code != 0
    ensures change == code ==> PickCell(PickOrder(change, code), [onFootprint, elsewhere]) == Some(onFootprint)
    ensures change == 0 ==> PickCell(PickOrder(change, code), [onFootprint, elsewhere]) == Some(elsewhere)
  {
    var table := [Classify.IntRange(code, code, 1), Classify.IntRange(0, 0, 2)];
    if change == code {
      Classify.RemapIntFirst(table, change, 0);
    } else if change == 0 {
      Classify.RemapIntFirst(table, change, 1);
    }
  }

  /** A change value that is neither the code nor 0 keeps its own value as the priority. */
  lemma PickOrderPassesThrough(change: int, code: int)
    requires change != code && change != 0
    ensures PickOrder(change, code) == change
  {
    var table := [Classify.IntRange(code, code, 1), Classify.IntRange(0, 0, 2)];
    Classify.RemapIntMiss(table, change);
  }

  /** A change raster carrying only the edit code and 0, as the rasterised footprint does. */
  predicate FootprintOnly(change: seq<int>, code: int) {
    forall c | 0 <= c < |change| :: change[c] == 0 || change[c] == code
  }

  /** The raster Pick(order, [first, second]) over a footprint-only change raster. */
  function PickLayer<T>(change: seq<int>, code: int, first: seq<T>, second: seq<T>): (r: seq<T>)
    requires code != 0 && FootprintOnly(change, code)
    requires |first| == |change| && |second| == |change|
    ensures |r| == |change|
    ensures forall c | 0 <= c < |change| ::
              PickCell(PickOrder(change[c], code), [first[c], second[c]]) == Some(r[c])
  {
    var r := seq(|change|, c requires 0 <= c < |change| =>
                   if change[c] == code then first[c] else second[c]);
    forall c | 0 <= c < |change|
      ensures PickCell(PickOrder(change[c], code), [first[c], second[c]]) == Some(r[c])
    {
      PickFollowsChange(change[c], code, first[c], second[c]);
    }
    r
  }

  function Const<T>(n: nat, v: T): (r: seq<T>)
    ensures |r| == n && forall c | 0 <= c < n :: r[c] == v
  {
    seq(n, _ => v)
  }

  // ---------------------------------------------------------------------------------------
  // Cellwise meaning of each edit

  /**
   * A right-of-way edit at one cell: on the footprint the land cover becomes the code and
   * regen and both crown closures become 0 (and percent conifer too when it is edited).
   */
  function Edited(s: CellState, change: int, code: int, withPctcon: bool): CellState {
    if change == code then
      CellState(code, 0, s.rgnage, if withPctcon then 0.0 else s.pctcon, 0.0, 0.0)
    else s
  }

  /**
   * The clearing attribute rasters at one cell: REGEN, AGE, CC and GRIDCODE are rasterised
   * separately, so each field holds the value of its own polygon, or NoData (None).
   */
  datatype Burn = Burn(rgn: Option<int>, age: Option<int>, cc: Option<real>, lcov: Option<int>)

  /** No clearing raster holds a value at the cell. */
  predicate Unburned(b: Burn) {
    b.rgn.None? && b.age.None? && b.cc.None? && b.lcov.None?
  }

  /** A Mosaic with the LAST rule: the clearing raster's value where it has one, the layer's otherwise. */
  function Mosaic<T>(burn: Option<T>, layer: T): T {
    if burn.Some? then burn.value else layer
  }

  /**
   * The clearing rasters mosaicked into one cell (last wins): regen, regen age, crown closure
   * in regen and land cover each from its own raster; the crown closure in treed is then
   * recomputed from the base crown closure where the cell is not regen.
   */
  function Cleared(s: CellState, burn: Burn, ccBase: real): CellState {
    var t := s.(lcov := Mosaic(burn.lcov, s.lcov), rgn := Mosaic(burn.rgn, s.rgn),
                rgnage := Mosaic(burn.age, s.rgnage), ccRgn := Mosaic(burn.cc, s.ccRgn));
    t.(ccTrd := if t.rgn == 0 then ccBase else 0.0)
  }

  /**
   * The crown-closure split of the clip: crown closure in treed holds the base closure where
   * the cell is not regen and 0 where it is.
   */
  predicate CrownSplit(s: CellState, ccBase: real) {
    s.ccTrd == (if s.rgn == 0 then ccBase else 0.0)
  }

  /**
   * Burning a clearing always leaves the split in place, and a cell no clearing burns onto
   * keeps every layer when the split already held there.
   */
  lemma ClearedSplit(s: CellState, burn: Burn, ccBase: real)
    ensures CrownSplit(Cleared(s, burn, ccBase), ccBase)
    ensures Unburned(burn) && CrownSplit(s, ccBase) ==> Cleared(s, burn, ccBase) == s
  {
  }

  /** The neighbourhood statistics of one cell for the match-neighbours reclaim. */
  datatype Focal = Focal(lcovMajority: Option<int>, rgnMajority: Option<int>,
                         ccRgnMean: real, ccTrdMean: real, pctconMean: real)

  /** A NoData focal majority is back-filled with the given value. */
  function Backfill(v: Option<int>, fill: int): int {
    if v.Some? then v.value else fill
  }

  /**
   * The match-neighbours reclaim at one cell: on the footprint (change = 99) each layer takes
   * its focal statistic, with NoData land cover filled as 3 and NoData regen as 0.
   */
  function Matched(s: CellState, change: int, f: Focal): CellState {
    if change == 99 then
      CellState(Backfill(f.lcovMajority, 3), Backfill(f.rgnMajority, 0), s.rgnage,
                f.pctconMean, f.ccRgnMean, f.ccTrdMean)
    else s
  }

  // ---------------------------------------------------------------------------------------
  // Forecast ageing

  /** Forecast age: block age plus the increment, with the 9999 sentinel sum reset to 0. */
  function ForecastAge(age: int, rgnage: int): (fa: int)
    ensures fa <= 9999
    ensures fa == 0 || fa == age + rgnage
    ensures age + rgnage <= 9999 ==> fa == age + rgnage
  {
    var sum := age + rgnage;
    if sum > 9999 then 0 else sum
  }

  /** Raster Boolean Or: 1 when either input is nonzero. */
  function BooleanOr(a: int, b: int): int {
    if a != 0 || b != 0 then 1 else 0
  }

  /** The regen reset as the tool evaluates it: Con(((fa > 50) | fa) == 0, 0, 1). */
  function RegenAsWritten(fa: int): int {
    if BooleanOr(if fa > 50 then 1 else 0, fa) == 0 then 0 else 1
  }

  /** The regen reset the tool describes: blocks older than 50 years, or of age 0, leave regen. */
  function RegenIntended(fa: int): int {
    if fa > 50 || fa == 0 then 0 else 1
  }

  /** As evaluated, a cell stays regen unless its forecast age is exactly 0. */
  lemma RegenAsWrittenOnlyResetsZero(fa: int)
    ensures RegenAsWritten(fa) == 0 <==> fa == 0
    ensures RegenAsWritten(fa) == 0 || RegenAsWritten(fa) == 1
  {
  }

  /** The two readings agree up to 50 years and differ on every older block, e.g. 60 years. */
  lemma RegenResetGap(fa: int)
    ensures fa <= 50 ==> RegenAsWritten(fa) == RegenIntended(fa)
    ensures fa > 50 ==> RegenAsWritten(fa) == 1 && RegenIntended(fa) == 0
  {
  }

  /** Crown closure after ageing: cc + inc * max(70 - cc, 0) * 0.0142857. */
  function Grown(cc: real, inc: real): real {
    cc + inc * (if 70.0 - cc > 0.0 then 70.0 - cc else 0.0) * 0.0142857
  }

  /** Crown closure at or above 70 is not changed by ageing. */
  lemma GrownFixedAbove70(cc: real, inc: real)
    requires cc >= 70.0
    ensures Grown(cc, inc) == cc
  {
  }

  /** An increment between 0 and 70 keeps crown closure between its old value and 70. */
  lemma GrownBounded(cc: real, inc: real)
    requires 0.0 <= cc <= 70.0 && 0.0 <= inc <= 70.0
    ensures cc <= Grown(cc, inc) <= 70.0
  {
    var room := 70.0 - cc;
    Clearings.MulNonneg(inc, room);
    Clearings.MulNonneg(70.0 - inc, room);
    assert Grown(cc, inc) == cc + (inc * room) * 0.0142857;
    assert (inc * room) * 0.0142857 <= 70.0 * room * 0.0142857;
  }

  /** Ageing by 2 to 112 years never lowers crown closure and never lifts it past 70. */
  lemma AgeingGrowsCrownClosure(cc: real, age: int)
    requires 0.0 <= cc <= 70.0 && 2 <= age <= 112
    ensures cc <= Grown(cc, Clearings.CanopyCurve(age as real)) <= 70.0
  {
    Clearings.CanopyCurvePositive(age);
    Clearings.CanopyCurveBelow70(age as real);
    GrownBounded(cc, Clearings.CanopyCurve(age as real));
  }

  /**
   * Ageing one cell by `age` years: forecast age, regen reset (as evaluated), grown crown
   * closure, treed crown closure and 90 percent conifer for blocks older than 50 years,
   * upland tree for blocks older than 30 years; crown closure in regen is kept only in regen.
   */
  function Aged(s: CellState, age: int): CellState {
    var fa := ForecastAge(age, s.rgnage);
    var rgn := RegenAsWritten(fa);
    var cc := Grown(s.ccRgn, Clearings.CanopyCurve(age as real));
    CellState(if fa > 30 then 1 else s.lcov,
              rgn,
              s.rgnage,
              if fa > 50 then 90.0 else s.pctcon,
              cc * rgn as real,
              if fa > 50 then cc else s.ccTrd)
  }

  /** After ageing, crown closure in regen is 0 wherever the cell is not regen. */
  lemma AgedRegenCrownClosure(s: CellState, age: int)
    ensures Aged(s, age).rgn == 0 ==> Aged(s, age).ccRgn == 0.0
    ensures Aged(s, age).rgn == 1 ==> Aged(s, age).ccRgn == Grown(s.ccRgn, Clearings.CanopyCurve(age as real))
  {
    RegenAsWrittenOnlyResetsZero(ForecastAge(age, s.rgnage));
  }

  /** Blocks older than 50 years revert to upland tree with 90 percent conifer. */
  lemma AgedOldBlocks(s: CellState, age: int)
    requires ForecastAge(age, s.rgnage) > 50
    ensures Aged(s, age).lcov == 1 && Aged(s, age).pctcon == 90.0
    ensures Aged(s, age).ccTrd == Grown(s.ccRgn, Clearings.CanopyCurve(age as real))
  {
  }

  // ---------------------------------------------------------------------------------------
  // Reclaimed roads

  /** Land cover code of a reclaimed-road type: "#" means Barren (7), Herb is 3, else 99 (match). */
  function ReclaimCode(recRdType: string): (lc: int)
    ensures lc == 7 <==> recRdType == "#" || recRdType == "Barren"
    ensures lc == 3 <==> recRdType == "Herb"
    ensures lc == 7 || lc == 3 || lc == 99
  {
    var t := if recRdType == "#" then "Barren" else recRdType;
    if t == "Barren" then 7 else if t == "Herb" then 3 else 99
  }

  /** A land-cover class of the tool's legend. */
  predicate IsCover(v: int) { 1 <= v <= 10 }

  /** The focal majority layer of land cover (0) or of regen (otherwise). */
  function Focals(focal: seq<Focal>, layer: nat): (r: seq<Option<int>>)
    ensures |r| == |focal|
  {
    seq(|focal|, c requires 0 <= c < |focal| =>
          if layer == 0 then focal[c].lcovMajority else focal[c].rgnMajority)
  }

  /** Con(change == 99, focal majority, layer) with NoData majorities back-filled. */
  function MatchLayer(change: seq<int>, majority: seq<Option<int>>, layer: seq<int>, fill: int): (r: seq<int>)
    requires |majority| == |change| && |layer| == |change|
    ensures |r| == |change|
  {
    seq(|change|, c requires 0 <= c < |change| =>
          if change[c] == 99 then Backfill(majority[c], fill) else layer[c])
  }

  /** The focal mean of crown closure in regen (1), in treed (2) or of percent conifer (otherwise). */
  function Mean(f: Focal, layer: nat): real {
    if layer == 1 then f.ccRgnMean else if layer == 2 then f.ccTrdMean else f.pctconMean
  }

  /** Con(change == 99, focal mean, layer). */
  function MatchMeans(change: seq<int>, focal: seq<Focal>, layer: nat, values: seq<real>): (r: seq<real>)
    requires |focal| == |change| && |values| == |change|
    ensures |r| == |change|
  {
    seq(|change|, c requires 0 <= c < |change| =>
          if change[c] == 99 then Mean(focal[c], layer) else values[c])
  }

  /** Matching neighbours keeps land cover in the legend when the focal majorities are in it. */
  lemma MatchedKeepsCover(s: CellState, change: int, f: Focal)
    requires IsCover(s.lcov)
    requires f.lcovMajority.Some? ==> IsCover(f.lcovMajority.value)
    ensures IsCover(Matched(s, change, f).lcov)
  {
  }

  // ---------------------------------------------------------------------------------------
  // The landscape

  /** The updateable layers of one run, clipped to the analysis area. */
  class Landscape {
    const size: nat
    /** Base crown closure (cc_gbz) of each cell. */
    const ccBase: seq<real>
    var lcov: seq<int>
    var rgn: seq<int>
    var rgnage: seq<int>
    var pctcon: seq<real>
    var ccRgn: seq<real>
    var ccTrd: seq<real>

    ghost predicate Valid()
      reads this
    {
      |ccBase| == size && |lcov| == size && |rgn| == size && |rgnage| == size &&
      |pctcon| == size && |ccRgn| == size && |ccTrd| == size
    }

    /** The layer values at cell c. */
    function Cell(c: nat): CellState
      reads this
      requires Valid() && c < size
    {
      CellState(lcov[c], rgn[c], rgnage[c], pctcon[c], ccRgn[c], ccTrd[c])
    }

    /**
     * Clipping the base layers to the analysis area; crown closure is split into crown
     * closure in regen (rgn = 1) and in treed areas (rgn = 0).
     */
    constructor ClipData(baseLcov: seq<int>, baseRgn: seq<int>, baseRgnage: seq<int>,
                         basePctcon: seq<real>, baseCc: seq<real>)
      requires |baseRgn| == |baseLcov| && |baseRgnage| == |baseLcov|
      requires |basePctcon| == |baseLcov| && |baseCc| == |baseLcov|
      ensures Valid() && size == |baseLcov| && ccBase == baseCc
      ensures lcov == baseLcov && rgn == baseRgn && rgnage == baseRgnage && pctcon == basePctcon
      ensures forall c | 0 <= c < size ::
                ccRgn[c] == (if rgn[c] == 1 then ccBase[c] else 0.0) &&
                ccTrd[c] == (if rgn[c] == 0 then ccBase[c] else 0.0)
      ensures forall c | 0 <= c < size :: CrownSplit(Cell(c), ccBase[c])
    {
      size := |baseLcov|;
      ccBase := baseCc;
      lcov := baseLcov;
      rgn := baseRgn;
      rgnage := baseRgnage;
      pctcon := basePctcon;
      ccRgn := seq(|baseLcov|, c requires 0 <= c < |baseLcov| =>
                     if baseRgn[c] == 1 then baseCc[c] else 0.0);
      ccTrd := seq(|baseLcov|, c requires 0 <= c < |baseLcov| =>
                     if baseRgn[c] == 0 then baseCc[c] else 0.0);
    }

    /**
     * New clearings: the attribute fields of the clipped clearing rows are calculated in
     * place, then the existing clearings are burned over regen, regen age, crown closure in
     * regen and land cover (last wins), and crown closure in treed is recomputed.
     * cover[c] names, field by field, the clearing row whose polygon each attribute raster
     * takes at cell c, if any.
     */
    method AddClearing(rows: array<Clearings.Row>, yearGiven: bool, fcst: int, cover: seq<FieldCover>)
      requires Valid() && |cover| == size
      requires forall c | 0 <= c < size :: CoverWithin(cover[c], rows.Length)
      modifies this, rows
      ensures Valid()
      ensures forall i | 0 <= i < rows.Length ::
                rows[i] == Clearings.Row(old(rows[i]).year,
                                        if yearGiven then Clearings.Attributes(old(rows[i]).year, fcst)
                                        else Clearings.DefaultAttributes())
      ensures forall c | 0 <= c < size ::
                Cell(c) == Cleared(old(Cell(c)), Burned(rows[..], cover[c]), ccBase[c])
      ensures forall c | 0 <= c < size :: CrownSplit(Cell(c), ccBase[c])
      ensures forall c | 0 <= c < size ::
                Unburned(Burned(rows[..], cover[c])) && CrownSplit(old(Cell(c)), ccBase[c]) ==>
                Cell(c) == old(Cell(c))
    {
      Clearings.CalculateFields(rows, yearGiven, fcst);
      var table := rows[..];
      var burn := seq(size, c requires 0 <= c < size => Burned(table, cover[c]));
      var rgn0, rgnage0, ccRgn0, lcov0, base := rgn, rgnage, ccRgn, lcov, ccBase;
      var rgn1 := seq(size, c requires 0 <= c < size => Mosaic(burn[c].rgn, rgn0[c]));
      rgn := rgn1;
      rgnage := seq(size, c requires 0 <= c < size => Mosaic(burn[c].age, rgnage0[c]));
      ccRgn := seq(size, c requires 0 <= c < size => Mosaic(burn[c].cc, ccRgn0[c]));
      ccTrd := seq(size, c requires 0 <= c < size => if rgn1[c] == 0 then base[c] else 0.0);
      lcov := seq(size, c requires 0 <= c < size => Mosaic(burn[c].lcov, lcov0[c]));
    }

    /**
     * A right-of-way edit (new herb features with code 3, new roads with code 7, a fixed-type
     * reclaim): the priority grid of the change raster picks, layer after layer, the change
     * code for land cover and 0 for regen, the two crown closures and, when withPctcon holds,
     * percent conifer.
     */
    method PickEdit(change: seq<int>, code: int, withPctcon: bool)
      requires Valid() && |change| == size && code != 0 && FootprintOnly(change, code)
      modifies this
      ensures Valid()
      ensures forall c | 0 <= c < size :: Cell(c) == Edited(old(Cell(c)), change[c], code, withPctcon)
    {
      var layers := if withPctcon then 5 else 4;
      for i := 0 to layers
        invariant Valid()
        invariant lcov == if i > 0 then PickLayer(change, code, change, old(lcov)) else old(lcov)
        invariant ccRgn == if i > 1 then PickLayer(change, code, Const(size, 0.0), old(ccRgn)) else old(ccRgn)
        invariant ccTrd == if i > 2 then PickLayer(change, code, Const(size, 0.0), old(ccTrd)) else old(ccTrd)
        invariant rgn == if i > 3 then PickLayer(change, code, Const(size, 0), old(rgn)) else old(rgn)
        invariant pctcon == if i > 4 then PickLayer(change, code, Const(size, 0.0), old(pctcon)) else old(pctcon)
        invariant rgnage == old(rgnage)
      {
        if i == 0 {
          lcov := PickLayer(change, code, change, lcov);
        } else if i == 1 {
          ccRgn := PickLayer(change, code, Const(size, 0.0), ccRgn);
        } else if i == 2 {
          ccTrd := PickLayer(change, code, Const(size, 0.0), ccTrd);
        } else if i == 3 {
          rgn := PickLayer(change, code, Const(size, 0), rgn);
        } else {
          pctcon := PickLayer(change, code, Const(size, 0.0), pctcon);
        }
      }
      forall c | 0 <= c < size
        ensures Cell(c) == Edited(old(Cell(c)), change[c], code, withPctcon)
      {
        PickFollowsChange(change[c], code, change[c], old(lcov)[c]);
        PickFollowsChange(change[c], code, 0.0, old(ccRgn)[c]);
        PickFollowsChange(change[c], code, 0.0, old(ccTrd)[c]);
        PickFollowsChange(change[c], code, 0, old(rgn)[c]);
        PickFollowsChange(change[c], code, 0.0, old(pctcon)[c]);
      }
    }

    /** New linear features as herb: a right-of-way edit with code 3 over all five layers. */
    method AddLnHerb(change: seq<int>)
      requires Valid() && |change| == size && FootprintOnly(change, 3)
      modifies this
      ensures Valid()
      ensures forall c | 0 <= c < size :: Cell(c) == Edited(old(Cell(c)), change[c], 3, true)
    {
      PickEdit(change, 3, true);
    }

    /** New roads: a right-of-way edit with code 7 that leaves percent conifer untouched. */
    method AddRoads(change: seq<int>)
      requires Valid() && |change| == size && FootprintOnly(change, 7)
      modifies this
      ensures Valid()
      ensures forall c | 0 <= c < size :: Cell(c) == Edited(old(Cell(c)), change[c], 7, false)
    {
      PickEdit(change, 7, false);
    }

    /**
     * Reclaimed roads. A Barren or Herb reclaim is a right-of-way edit with its code over all
     * five layers; any other type matches the footprint (change = 99) to its neighbourhood,
     * taking focal[c] for each layer with NoData majorities back-filled.
     */
    method RclmRoads(recRdType: string, change: seq<int>, focal: seq<Focal>)
      requires Valid() && |change| == size && |focal| == size
      requires ReclaimCode(recRdType) != 99 ==> FootprintOnly(change, ReclaimCode(recRdType))
      modifies this
      ensures Valid()
      ensures ReclaimCode(recRdType) != 99 ==>
                forall c | 0 <= c < size ::
                  Cell(c) == Edited(old(Cell(c)), change[c], ReclaimCode(recRdType), true)
      ensures ReclaimCode(recRdType) == 99 ==>
                forall c | 0 <= c < size :: Cell(c) == Matched(old(Cell(c)), change[c], focal[c])
    {
      var lc := ReclaimCode(recRdType);
      if lc == 99 {
        for i := 0 to 5
          invariant Valid()
          invariant lcov == if i > 0 then MatchLayer(change, Focals(focal, 0), old(lcov), 3) else old(lcov)
          invariant ccRgn == if i > 1 then MatchMeans(change, focal, 1, old(ccRgn)) else old(ccRgn)
          invariant ccTrd == if i > 2 then MatchMeans(change, focal, 2, old(ccTrd)) else old(ccTrd)
          invariant rgn == if i > 3 then MatchLayer(change, Focals(focal, 3), old(rgn), 0) else old(rgn)
          invariant pctcon == if i > 4 then MatchMeans(change, focal, 4, old(pctcon)) else old(pctcon)
          invariant rgnage == old(rgnage)
        {
          if i == 0 {
            lcov := MatchLayer(change, Focals(focal, 0), lcov, 3);
          } else if i == 1 {
            ccRgn := MatchMeans(change, focal, 1, ccRgn);
          } else if i == 2 {
            ccTrd := MatchMeans(change, focal, 2, ccTrd);
          } else if i == 3 {
            rgn := MatchLayer(change, Focals(focal, 3), rgn, 0);
          } else {
            pctcon := MatchMeans(change, focal, 4, pctcon);
          }
        }
      } else {
        PickEdit(change, lc, true);
      }
    }

    /**
     * Forecast ageing by `age` years (the forecast increment): returns the forecast ages and
     * overwrites regen, crown closure in treed, crown closure in regen, percent conifer and
     * land cover in that order.
     */
    method FAge(age: int) returns (fcstAge: seq<int>)
      requires Valid()
      modifies this
      ensures Valid()
      ensures |fcstAge| == size
      ensures forall c | 0 <= c < size ::
                fcstAge[c] == ForecastAge(age, old(rgnage)[c]) &&
                Cell(c) == Aged(old(Cell(c)), age)
    {
      var rgnage0, ccRgn0, ccTrd0, pctcon0, lcov0 := rgnage, ccRgn, ccTrd, pctcon, lcov;
      var fa := seq(size, c requires 0 <= c < size => ForecastAge(age, rgnage0[c]));
      fcstAge := fa;
      var rgn1 := seq(size, c requires 0 <= c < size => RegenAsWritten(fa[c]));
      rgn := rgn1;
      var inc := Clearings.CanopyCurve(age as real);
      var ccUpd := seq(size, c requires 0 <= c < size => Grown(ccRgn0[c], inc));
      ccTrd := seq(size, c requires 0 <= c < size => if fa[c] > 50 then ccUpd[c] else ccTrd0[c]);
      ccRgn := seq(size, c requires 0 <= c < size => ccUpd[c] * rgn1[c] as real);
      pctcon := seq(size, c requires 0 <= c < size => if fa[c] > 50 then 90.0 else pctcon0[c]);
      lcov := seq(size, c requires 0 <= c < size => if fa[c] > 30 then 1 else lcov0[c]);
    }
  }

  /**
   * The clearing row whose polygon each attribute raster takes at one cell. Polygon-to-raster
   * with MAXIMUM_COMBINED_AREA decides each field on its own, after merging the polygons that
   * share that field's value, so overlapping clearings can give the fields different rows.
   */
  datatype FieldCover = FieldCover(rgn: Option<nat>, age: Option<nat>, cc: Option<nat>, lcov: Option<nat>)

  /** Every row a field cover names is a row of the table. */
  predicate CoverWithin(f: FieldCover, n: nat) {
    (f.rgn.Some? ==> f.rgn.value < n) && (f.age.Some? ==> f.age.value < n) &&
    (f.cc.Some? ==> f.cc.value < n) && (f.lcov.Some? ==> f.lcov.value < n)
  }

  /** The same row for all four fields, as a cell covered by a single clearing gets. */
  function WholeCover(row: Option<nat>): FieldCover {
    FieldCover(row, row, row, row)
  }

  /** The named row's attributes, when that clearing exists (the _EXISTS = 1 layer). */
  function BurnedRow(table: seq<Clearings.Row>, row: Option<nat>): Option<Clearings.Clearing> {
    if row.Some? && row.value < |table| && table[row.value].attrs.present == 1
    then Some(table[row.value].attrs) else None
  }

  /** The value of each attribute raster at a cell: the named row's field, or NoData. */
  function Burned(table: seq<Clearings.Row>, cover: FieldCover): Burn {
    var r, a, k, l := BurnedRow(table, cover.rgn), BurnedRow(table, cover.age),
                      BurnedRow(table, cover.cc), BurnedRow(table, cover.lcov);
    Burn(if r.Some? then Some(r.value.regen) else None,
         if a.Some? then Some(a.value.age) else None,
         if k.Some? then Some(k.value.cc) else None,
         if l.Some? then Some(l.value.gridcode) else None)
  }

  /** All four fields of a clearing's attributes, as a cell covered by that clearing alone holds. */
  function WholeBurn(a: Clearings.Clearing): Burn {
    Burn(Some(a.regen), Some(a.age), Some(a.cc), Some(a.gridcode))
  }

  /**
   * A cell covered by one existing clearing takes all four of its fields; a cell whose row
   * does not exist (or that no row covers) is not burned.
   */
  lemma BurnedWhole(table: seq<Clearings.Row>, row: Option<nat>)
    ensures BurnedRow(table, row).Some? ==>
              Burned(table, WholeCover(row)) == WholeBurn(BurnedRow(table, row).value)
    ensures BurnedRow(table, row).None? ==> Unburned(Burned(table, WholeCover(row)))
  {
  }

  /**
   * Each layer takes its own clearing raster where that raster has a value and keeps its
   * value elsewhere; treed crown closure is 0 in regen and the base closure otherwise.
   */
  lemma ClearedFields(s: CellState, b: Burn, ccBase: real)
    ensures Cleared(s, b, ccBase).rgn == (if b.rgn.Some? then b.rgn.value else s.rgn)
    ensures Cleared(s, b, ccBase).rgnage == (if b.age.Some? then b.age.value else s.rgnage)
    ensures Cleared(s, b, ccBase).ccRgn == (if b.cc.Some? then b.cc.value else s.ccRgn)
    ensures Cleared(s, b, ccBase).lcov == (if b.lcov.Some? then b.lcov.value else s.lcov)
    ensures Cleared(s, b, ccBase).pctcon == s.pctcon
    ensures Cleared(s, b, ccBase).ccTrd == (if Cleared(s, b, ccBase).rgn == 0 then ccBase else 0.0)
  {
  }

  /** A cell burned by one clearing takes its regen, age and land cover; its treed crown closure is 0 when it is regen. */
  lemma ClearedCell(s: CellState, a: Clearings.Clearing, ccBase: real)
    ensures Cleared(s, WholeBurn(a), ccBase).rgn == a.regen
    ensures Cleared(s, WholeBurn(a), ccBase).rgnage == a.age
    ensures Cleared(s, WholeBurn(a), ccBase).lcov == a.gridcode
    ensures a.regen == 1 ==> Cleared(s, WholeBurn(a), ccBase).ccTrd == 0.0
    ensures a.regen == 0 ==> Cleared(s, WholeBurn(a), ccBase).ccTrd == ccBase
  {
  }

  /**
   * Overlapping clearings can leave a cell with fields from different rows: the regen age
   * of a barren two-year-old clearing next to the land cover of an older herb clearing, a
   * pair that no single clearing's attributes hold.
   */
  lemma MixedFieldsExample()
    ensures var table := [Clearings.Row(2016, Clearings.Attributes(2016, 2018)),
                          Clearings.Row(2008, Clearings.Attributes(2008, 2018))];
            var b := Burned(table, FieldCover(Some(0), Some(0), Some(0), Some(1)));
            b.age == Some(2) && b.lcov == Some(3) && b.lcov.value != Clearings.GridCode(b.age.value)
  {
    assert Clearings.GridCode(10) == 3;
  }
}
