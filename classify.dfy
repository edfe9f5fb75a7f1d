/**
 * The engine's reclassification tables, as the tools write them.
 *
 * Integer tables (land-cover masks, RSF tiers, risk sink/source) list inclusive ranges
 * [lo, hi] -> out. Real tables (seasonal RSF, risk, denning) list ranges
 * [[0, bp1, c], [bp1, bp2, c + 1], ..., [bpn, 1, c + n]]; this model fixes the convention that
 * a range holds its lower bound and not its upper one, except the last range, which holds 1
 * (the engine's own rule may differ at exactly the breakpoints).
 * Both kinds are applied with the "DATA" option: a value that no range holds is not
 * reclassified. For integer tables RemapInt keeps such a value; for real tables RemapRange
 * gives None outside [0, 1], so the pass-through value of a real table is not modelled.
 */
module Classify {
  import opened Wrappers

  /** A row [lo, hi, out] of an integer reclassification table. */
  datatype IntRange = IntRange(lo: int, hi: int, out: int)

  predicate HoldsInt(row: IntRange, v: int) {
    row.lo <= v <= row.hi
  }

  /** Integer reclassification: the first row holding v gives the new value; v is kept otherwise. */
  function RemapInt(table: seq<IntRange>, v: int): int {
    if table == [] then v
    else if HoldsInt(table[0], v) then table[0].out
    else RemapInt(table[1..], v)
  }

  /** The first row holding v decides the value. */
  lemma {:induction false} RemapIntFirst(table: seq<IntRange>, v: int, k: nat)
    requires k < |table| && HoldsInt(table[k], v)
    requires forall j | 0 <= j < k :: !HoldsInt(table[j], v)
    ensures RemapInt(table, v) == table[k].out
  {
    if k > 0 {
      assert !HoldsInt(table[0], v);
      RemapIntFirst(table[1..], v, k - 1);
    }
  }

  /** A value that no row holds is kept. */
  lemma {:induction false} RemapIntMiss(table: seq<IntRange>, v: int)
    requires forall j | 0 <= j < |table| :: !HoldsInt(table[j], v)
    ensures RemapInt(table, v) == v
  {
    if table != [] {
      assert !HoldsInt(table[0], v);
      RemapIntMiss(table[1..], v);
    }
  }

  /** A row [lo, hi, out] of a real reclassification table. */
  datatype RealRange = RealRange(lo: real, hi: real, out: int)

  /** Does the row hold v? Only the last row of a table holds its upper bound. */
  predicate Holds(row: RealRange, v: real, last: bool) {
    row.lo <= v && (v < row.hi || (last && v <= row.hi))
  }

  /** The class of the first row, from index j on, that holds v; None if no row does. */
  function LookupFrom(table: seq<RealRange>, v: real, j: nat): Option<int>
    decreases |table| - j
  {
    if j >= |table| then None
    else if Holds(table[j], v, j == |table| - 1) then Some(table[j].out)
    else LookupFrom(table, v, j + 1)
  }

  /**
   * The table [[0, bp1, base], [bp1, bp2, base + 1], ..., [bpn, 1, base + n]] that the tools
   * build from n breakpoints.
   */
  function Table(bps: seq<real>, base: int): (t: seq<RealRange>)
    ensures |t| == |bps| + 1
  {
    seq(|bps| + 1, k requires 0 <= k <= |bps| =>
      RealRange(if k == 0 then 0.0 else bps[k - 1], if k == |bps| then 1.0 else bps[k], base + k))
  }

  /** Reclassifying a value by the breakpoint table (None: no range holds it). */
  function RemapRange(bps: seq<real>, base: int, v: real): Option<int> {
    LookupFrom(Table(bps, base), v, 0)
  }

  /** Breakpoints are strictly increasing and lie strictly inside (0, 1). */
  predicate ValidBreaks(bps: seq<real>) {
    && (forall i | 0 < i < |bps| :: bps[i - 1] < bps[i])
    && (forall i | 0 <= i < |bps| :: 0.0 < bps[i] < 1.0)
  }

  /** Reference definition of a class: how many breakpoints lie at or below v. */
  function CountAtMost(bps: seq<real>, v: real): (n: nat)
    ensures n <= |bps|
  {
    if bps == [] then 0 else (if bps[0] <= v then 1 else 0) + CountAtMost(bps[1..], v)
  }

  /** With increasing breakpoints, the count splits them into those at or below v and those above. */
  lemma {:induction false} CountSplits(bps: seq<real>, v: real)
    requires forall i | 0 < i < |bps| :: bps[i - 1] < bps[i]
    ensures forall i | 0 <= i < CountAtMost(bps, v) :: bps[i] <= v
    ensures forall i | CountAtMost(bps, v) <= i < |bps| :: v < bps[i]
  {
    if bps != [] {
      var tail := bps[1..];
      assert forall i | 0 < i < |tail| :: tail[i - 1] < tail[i] by {
        forall i | 0 < i < |tail| ensures tail[i - 1] < tail[i] {
          assert tail[i - 1] == bps[i] && tail[i] == bps[i + 1];
        }
      }
      CountSplits(tail, v);
      var k' := CountAtMost(tail, v);
      if bps[0] <= v {
        forall i | 0 < i < 1 + k' ensures bps[i] <= v { assert bps[i] == tail[i - 1]; }
        forall i | 1 + k' <= i < |bps| ensures v < bps[i] { assert bps[i] == tail[i - 1]; }
      } else {
        forall i | 0 < i < |bps| ensures v < bps[i] { assert bps[i] == tail[i - 1]; }
      }
    }
  }

  /** More breakpoints lie at or below a larger value. */
  lemma {:induction false} CountMonotone(bps: seq<real>, v: real, w: real)
    requires v <= w
    ensures CountAtMost(bps, v) <= CountAtMost(bps, w)
  {
    if bps != [] {
      CountMonotone(bps[1..], v, w);
    }
  }

  lemma {:induction false} LookupMiss(table: seq<RealRange>, v: real, j: nat)
    requires forall i | j <= i < |table| :: !Holds(table[i], v, i == |table| - 1)
    ensures LookupFrom(table, v, j) == None
    decreases |table| - j
  {
    if j < |table| {
      LookupMiss(table, v, j + 1);
    }
  }

  lemma {:induction false} LookupHit(table: seq<RealRange>, v: real, j: nat, k: nat)
    requires j <= k < |table|
    requires forall i | j <= i < k :: !Holds(table[i], v, i == |table| - 1)
    requires Holds(table[k], v, k == |table| - 1)
    ensures LookupFrom(table, v, j) == Some(table[k].out)
    decreases k - j
  {
    if j < k {
      LookupHit(table, v, j + 1, k);
    }
  }

  /**
   * The breakpoint table partitions [0, 1]: a value in [0, 1] lands in the class counted by
   * the breakpoints at or below it, and a value outside [0, 1] is left unclassified.
   */
  lemma RemapRangeCounts(bps: seq<real>, base: int, v: real)
    requires ValidBreaks(bps)
    ensures RemapRange(bps, base, v) ==
              if 0.0 <= v <= 1.0 then Some(base + CountAtMost(bps, v)) else None
  {
    var t := Table(bps, base);
    var n := |bps|;
    if 0.0 <= v <= 1.0 {
      var k := CountAtMost(bps, v);
      CountSplits(bps, v);
      assert forall i | 0 <= i < k :: !Holds(t[i], v, i == n) by {
        forall i | 0 <= i < k ensures !Holds(t[i], v, i == n) {
          assert t[i].hi == bps[i];
        }
      }
      assert Holds(t[k], v, k == n);
      LookupHit(t, v, 0, k);
    } else {
      forall i | 0 <= i <= n ensures !Holds(t[i], v, i == n) {
        if v < 0.0 {
          assert t[i].lo >= 0.0;
        } else {
          assert i < n ==> t[i].hi == bps[i];
        }
      }
      LookupMiss(t, v, 0);
    }
  }

  /** A value in [0, 1] gets a class in base .. base + n, and a larger value never a smaller class. */
  lemma RemapRangeMonotone(bps: seq<real>, base: int, v: real, w: real)
    requires ValidBreaks(bps)
    requires 0.0 <= v <= w <= 1.0
    ensures RemapRange(bps, base, v).Some? && RemapRange(bps, base, w).Some?
    ensures base <= RemapRange(bps, base, v).value <= RemapRange(bps, base, w).value <= base + |bps|
  {
    RemapRangeCounts(bps, base, v);
    RemapRangeCounts(bps, base, w);
    CountMonotone(bps, v, w);
  }
}
