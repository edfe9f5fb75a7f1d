/**
 * The outputs of the habitat-state tool: seasonal RSF classes, the maximum RSF with habitat
 * deletions, the three-tier RSF class, the risk classes, the sink/source class and the habitat
 * state that combines them.
 */
module Habitat {
  import opened Wrappers
  import Classify
  import RsfTables
  import Scenario

  // ---------------------------------------------------------------------------------------
  // RSF

  /** The 10-class value of a masked seasonal RSF value in [0, 1]: classes 1 to 10. */
  function SeasonClass(m: RsfTables.RsfModel, v: real): (k: int)
    requires RsfTables.WellFormed(m) && 0.0 <= v <= 1.0
    ensures 1 <= k <= 10
    ensures Classify.RemapRange(m.breaks, 1, v) == Some(k)
  {
    Classify.RemapRangeMonotone(m.breaks, 1, v, v);
    Classify.RemapRange(m.breaks, 1, v).value
  }

  /** One season's class raster: the 10-class value of every cell. */
  function SeasonRaster(m: RsfTables.RsfModel, values: seq<real>): (r: seq<int>)
    requires RsfTables.WellFormed(m) && forall c | 0 <= c < |values| :: 0.0 <= values[c] <= 1.0
    ensures |r| == |values|
    ensures forall c | 0 <= c < |values| :: r[c] == SeasonClass(m, values[c])
  {
    seq(|values|, c requires 0 <= c < |values| => SeasonClass(m, values[c]))
  }

  /** A higher RSF value never falls into a lower class. */
  lemma SeasonClassMonotone(m: RsfTables.RsfModel, v: real, w: real)
    requires RsfTables.WellFormed(m) && 0.0 <= v <= w <= 1.0
    ensures SeasonClass(m, v) <= SeasonClass(m, w)
  {
    Classify.RemapRangeMonotone(m.breaks, 1, v, w);
  }

  /** CellStatistics MAXIMUM of the three seasonal classes. */
  function Max3(a: int, b: int, c: int): (r: int)
    ensures r >= a && r >= b && r >= c
    ensures r == a || r == b || r == c
  {
    if a >= b && a >= c then a else if b >= c then b else c
  }

  /**
   * Habitat deletion at one cell: the deletion raster (1 on removals, 0 elsewhere) is
   * reclassified to the priority [[1, 2], [0, 1]] and Pick(order, [rsf_max, 0]) is taken.
   */
  function Deleted(deletion: int, rsfMax: int): (r: int)
    requires deletion == 0 || deletion == 1
    ensures r == if deletion == 1 then 0 else rsfMax
  {
    var table := [Classify.IntRange(1, 1, 2), Classify.IntRange(0, 0, 1)];
    var order := Classify.RemapInt(table, deletion);
    Classify.RemapIntFirst(table, deletion, if deletion == 1 then 0 else 1);
    Scenario.PickCell(order, [rsfMax, 0]).value
  }

  /** The three RSF tiers: 1-4 non-critical (0), 5-7 secondary (1), 8-10 primary (2). */
  const TierTable: seq<Classify.IntRange> :=
    [Classify.IntRange(1, 4, 0), Classify.IntRange(5, 7, 1), Classify.IntRange(8, 10, 2)]

  function Tier(k: int): int {
    Classify.RemapInt(TierTable, k)
  }

  /** The tier of each class; a deleted cell (class 0) keeps 0. */
  lemma TierValues(k: int)
    requires 0 <= k <= 10
    ensures Tier(k) == (if k <= 4 then 0 else if k <= 7 then 1 else 2)
  {
    if k == 0 {
      Classify.RemapIntMiss(TierTable, k);
    } else {
      Classify.RemapIntFirst(TierTable, k, if k <= 4 then 0 else if k <= 7 then 1 else 2);
    }
  }

  /** The tier never decreases with the RSF class. */
  lemma TierMonotone(k: int, l: int)
    requires 0 <= k <= l <= 10
    ensures 0 <= Tier(k) <= Tier(l) <= 2
  {
    TierValues(k);
    TierValues(l);
  }

  /** The RSF outputs: three seasonal class rasters, rsf_max after deletions, rsf_class. */
  datatype RsfOutputs = RsfOutputs(seasonal: seq<seq<int>>, rsfMax: seq<int>, rsfClass: seq<int>)

  /** Masked seasonal RSF values: three rasters of n cells, each value in [0, 1]. */
  predicate SeasonalInputs(rsfRng: seq<seq<real>>, n: nat) {
    |rsfRng| == 3 &&
    forall s | 0 <= s < 3 :: |rsfRng[s]| == n && forall c | 0 <= c < n :: 0.0 <= rsfRng[s][c] <= 1.0
  }

  /** A deletion raster of n cells with 1 on removals and 0 elsewhere. */
  predicate DeletionRaster(deletion: seq<int>, n: nat) {
    |deletion| == n && forall c | 0 <= c < n :: deletion[c] == 0 || deletion[c] == 1
  }

  /**
   * calRSF: for seasons 1 to 3 the unit's model classifies the masked RSF into 10 classes;
   * rsf_max is the cellwise maximum, zeroed where a habitat deletion is given, and rsf_class
   * is its tier. An unknown population unit fails before any output is written.
   */
  method CalRsf(unit: string, rsfRng: seq<seq<real>>, n: nat, deletion: Option<seq<int>>)
    returns (r: Result<RsfOutputs>)
    requires SeasonalInputs(rsfRng, n)
    requires deletion.Some? ==> DeletionRaster(deletion.value, n)
    ensures r.Failure? <==> !RsfTables.IsUnit(unit)
    ensures r.Success? ==>
              var o := r.value;
              && |o.seasonal| == 3 && |o.rsfMax| == n && |o.rsfClass| == n
              && (forall s | 0 <= s < 3 :: |o.seasonal[s]| == n)
              && (forall s, c | 0 <= s < 3 && 0 <= c < n ::
                    o.seasonal[s][c] == SeasonClass(RsfTables.Model(unit, s + 1).value, rsfRng[s][c]))
              && (forall c | 0 <= c < n ::
                    o.rsfMax[c] == (if deletion.Some? && deletion.value[c] == 1 then 0
                                    else Max3(o.seasonal[0][c], o.seasonal[1][c], o.seasonal[2][c])))
              && (forall c | 0 <= c < n :: o.rsfClass[c] == Tier(o.rsfMax[c]))
  {
    var classified := ClassifySeasons(unit, rsfRng, n);
    if classified.Failure? {
      return Failure(classified.error);
    }
    var seasonal := classified.value;
    var rsfMax, rsfClass := CombineSeasons(seasonal, n, deletion);
    r := Success(RsfOutputs(seasonal, rsfMax, rsfClass));
  }

  /**
   * The season loop of calRSF: while season < 4 the unit's model for the season classifies the
   * season's masked RSF; an unknown unit fails at the first season.
   */
  method ClassifySeasons(unit: string, rsfRng: seq<seq<real>>, n: nat) returns (r: Result<seq<seq<int>>>)
    requires SeasonalInputs(rsfRng, n)
    ensures r.Failure? <==> !RsfTables.IsUnit(unit)
    ensures r.Success? ==>
              |r.value| == 3 &&
              forall s | 0 <= s < 3 :: r.value[s] == SeasonRaster(RsfTables.Model(unit, s + 1).value, rsfRng[s])
  {
    var seasonal: seq<seq<int>> := [];
    var season := 1;
    while season < 4
      invariant 1 <= season <= 4 && |seasonal| == season - 1
      invariant season > 1 ==> RsfTables.IsUnit(unit)
      invariant forall s | 0 <= s < season - 1 ::
                  seasonal[s] == SeasonRaster(RsfTables.Model(unit, s + 1).value, rsfRng[s])
    {
      var model := RsfTables.Model(unit, season);
      if model.None? {
        return Failure("no RSF model for population unit " + unit);
      }
      seasonal := seasonal + [SeasonRaster(model.value, rsfRng[season - 1])];
      season := season + 1;
    }
    r := Success(seasonal);
  }

  /** rsf_max as the cellwise maximum of the seasons, zeroed on deletions, and rsf_class as its tier. */
  method CombineSeasons(seasonal: seq<seq<int>>, n: nat, deletion: Option<seq<int>>)
    returns (rsfMax: seq<int>, rsfClass: seq<int>)
    requires |seasonal| == 3 && forall s | 0 <= s < 3 :: |seasonal[s]| == n
    requires deletion.Some? ==> DeletionRaster(deletion.value, n)
    ensures |rsfMax| == n && |rsfClass| == n
    ensures forall c | 0 <= c < n ::
              rsfMax[c] == (if deletion.Some? && deletion.value[c] == 1 then 0
                            else Max3(seasonal[0][c], seasonal[1][c], seasonal[2][c]))
    ensures forall c | 0 <= c < n :: rsfClass[c] == Tier(rsfMax[c])
  {
    rsfMax := seq(n, c requires 0 <= c < n => Max3(seasonal[0][c], seasonal[1][c], seasonal[2][c]));
    if deletion.Some? {
      var del := deletion.value;
      var before := rsfMax;
      rsfMax := seq(n, c requires 0 <= c < n => Deleted(del[c], before[c]));
    }
    var after := rsfMax;
    rsfClass := seq(n, c requires 0 <= c < n => Tier(after[c]));
  }

  /** rsf_max lies in 1..10 where nothing is deleted, is 0 where a deletion is, and bounds every season. */
  lemma RsfMaxBounds(m1: RsfTables.RsfModel, m2: RsfTables.RsfModel, m3: RsfTables.RsfModel,
                     v1: real, v2: real, v3: real, deletion: int)
    requires RsfTables.WellFormed(m1) && RsfTables.WellFormed(m2) && RsfTables.WellFormed(m3)
    requires 0.0 <= v1 <= 1.0 && 0.0 <= v2 <= 1.0 && 0.0 <= v3 <= 1.0
    requires deletion == 0 || deletion == 1
    ensures var k := Deleted(deletion, Max3(SeasonClass(m1, v1), SeasonClass(m2, v2), SeasonClass(m3, v3)));
            && (deletion == 1 ==> k == 0)
            && (deletion == 0 ==> 1 <= k <= 10 && k >= SeasonClass(m1, v1) && k >= SeasonClass(m2, v2)
                                  && k >= SeasonClass(m3, v3))
            && 0 <= Tier(k) <= 2
  {
    var k := Deleted(deletion, Max3(SeasonClass(m1, v1), SeasonClass(m2, v2), SeasonClass(m3, v3)));
    TierValues(k);
  }

  // ---------------------------------------------------------------------------------------
  // Risk and habitat states

  /** Risk breakpoints: classes 0 to 10 on [0, 0.01), [0.01, 0.1), [0.1, 0.2), ..., [0.9, 1]. */
  const RiskBreaks: seq<real> := [0.01, 0.1, 0.2, 0.3, 0.4, 0.5, 0.6, 0.7, 0.8, 0.9]

  /** The risk class of a rescaled risk value in [0, 1]: classes 0 to 10. */
  function RiskClass(v: real): (k: int)
    requires 0.0 <= v <= 1.0
    ensures 0 <= k <= 10
    ensures Classify.RemapRange(RiskBreaks, 0, v) == Some(k)
  {
    Classify.RemapRangeMonotone(RiskBreaks, 0, v, v);
    Classify.RemapRange(RiskBreaks, 0, v).value
  }

  /** Higher risk values never get a lower class; the extremes are class 0 and class 10. */
  lemma RiskClassMonotone(v: real, w: real)
    requires 0.0 <= v <= w <= 1.0
    ensures RiskClass(v) <= RiskClass(w)
  {
    Classify.RemapRangeMonotone(RiskBreaks, 0, v, w);
  }

  /** Risk classes 0-5 are sinks of low mortality (1) and 6-10 are sources (-1). */
  const SinkSourceTable: seq<Classify.IntRange> := [Classify.IntRange(0, 5, 1), Classify.IntRange(6, 10, -1)]

  function SinkSource(k: int): int {
    Classify.RemapInt(SinkSourceTable, k)
  }

  lemma SinkSourceValues(k: int)
    requires 0 <= k <= 10
    ensures SinkSource(k) == (if k <= 5 then 1 else -1)
  {
    Classify.RemapIntFirst(SinkSourceTable, k, if k <= 5 then 0 else 1);
  }

  /** The habitat state of a cell: risk class times RSF class. */
  function HabState(riskClass: int, rsfClass: int): int {
    riskClass * rsfClass
  }

  /**
   * From rescaled risk and rsf_max to habitat state: the state lies in -2..2, is positive
   * exactly on low-risk cells of secondary or primary habitat, negative exactly on high-risk
   * ones, and 0 on non-critical habitat.
   */
  lemma HabStateRange(risk: real, rsfMax: int)
    requires 0.0 <= risk <= 1.0 && 0 <= rsfMax <= 10
    ensures var h := HabState(SinkSource(RiskClass(risk)), Tier(rsfMax));
            && -2 <= h <= 2
            && (h > 0 <==> RiskClass(risk) <= 5 && rsfMax >= 5)
            && (h < 0 <==> RiskClass(risk) >= 6 && rsfMax >= 5)
            && (h == 0 <==> rsfMax <= 4)
  {
    SinkSourceValues(RiskClass(risk));
    TierValues(rsfMax);
  }
}
