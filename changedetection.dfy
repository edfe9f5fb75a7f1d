/**
 * The change-detection tool, which compares a reference run and a scenario run of the
 * habitat-state tool: it parses the user's layer selection, picks the mask raster of each pair,
 * builds the change raster, bins the per-class areas of both runs and reports the percent change
 * per class and in total.
 */
module ChangeDetection {
  import opened Wrappers
  import Rounding

  // ---------------------------------------------------------------------------------------
  // Step 1: the layer selection

  /** str.split(sep): the pieces between the separators, one more piece than separators. */
  function Split(s: string, sep: char): (parts: seq<string>)
    ensures |parts| >= 1
    ensures forall i | 0 <= i < |parts| :: sep !in parts[i]
  {
    if s == [] then [[]]
    else
      var rest := Split(s[1..], sep);
      if s[0] == sep then [[]] + rest
      else
        assert sep !in [s[0]] + rest[0];
        [[s[0]] + rest[0]] + rest[1..]
  }

  /** sep.join(parts). */
  function Join(parts: seq<string>, sep: char): string
    requires |parts| >= 1
  {
    if |parts| == 1 then parts[0] else parts[0] + [sep] + Join(parts[1..], sep)
  }

  /** Joining the pieces of a split gives back the selection string. */
  lemma {:induction false} JoinSplit(s: string, sep: char)
    ensures Join(Split(s, sep), sep) == s
  {
    if s != [] {
      JoinSplit(s[1..], sep);
      var rest := Split(s[1..], sep);
      if s[0] == sep {
        assert ([[]] + rest)[1..] == rest;
        assert s == [] + [sep] + s[1..];
      } else {
        var parts := [[s[0]] + rest[0]] + rest[1..];
        if |rest| == 1 {
          assert s == [s[0]] + s[1..];
        } else {
          assert parts[1..] == rest[1..];
          assert Join(rest, sep) == rest[0] + [sep] + Join(rest[1..], sep);
          assert s == [s[0]] + s[1..];
        }
      }
    }
  }

  /** Splitting a piece without separators in front of a tail extends the tail's first piece. */
  lemma {:induction false} SplitPiece(a: string, tail: string, sep: char)
    requires sep !in a
    ensures Split(a + tail, sep) == [a + Split(tail, sep)[0]] + Split(tail, sep)[1..]
  {
    var st := Split(tail, sep);
    if a == [] {
      assert a + tail == tail;
      assert [] + st[0] == st[0];
      assert st == [st[0]] + st[1..];
    } else {
      assert (a + tail)[1..] == a[1..] + tail;
      SplitPiece(a[1..], tail, sep);
      assert [a[0]] + (a[1..] + Split(tail, sep)[0]) == a + Split(tail, sep)[0];
    }
  }

  /** Splitting a join of separator-free pieces gives back the pieces. */
  lemma {:induction false} SplitJoin(parts: seq<string>, sep: char)
    requires |parts| >= 1
    requires forall i | 0 <= i < |parts| :: sep !in parts[i]
    ensures Split(Join(parts, sep), sep) == parts
  {
    if |parts| == 1 {
      SplitPiece(parts[0], [], sep);
      assert parts[0] + [] == parts[0];
    } else {
      var tail := Join(parts[1..], sep);
      SplitJoin(parts[1..], sep);
      var st := [sep] + tail;
      assert st[0] == sep && st[1..] == tail;
      assert Split(st, sep) == [[]] + parts[1..];
      assert parts[0] + [sep] + tail == parts[0] + st;
      SplitPiece(parts[0], st, sep);
      assert parts[0] + [] == parts[0];
      assert parts == [parts[0]] + parts[1..];
    }
  }

  /** The raster name and the plot name of a selection label; None for an unknown label. */
  function Label(item: string): Option<(string, string)> {
    if item == "'Habitat State'" then Some(("hab_state", "Habitat States"))
    else if item == "Risk" then Some(("risk", "Risk"))
    else if item == "'RSF Max'" then Some(("rsf_max", "RSF Max"))
    else if item == "'RSF Season 1'" then Some(("rsf_s1", "RSF Season 1"))
    else if item == "'RSF Season 2'" then Some(("rsf_s2", "RSF Season 2"))
    else if item == "'RSF Season 3'" then Some(("rsf_s3", "RSF Season 3"))
    else None
  }

  /** The labelled layers of a list of items, in their order, with unknown items dropped. */
  function Selected(items: seq<string>): seq<(string, string)> {
    if items == [] then []
    else
      Selected(items[..|items| - 1]) +
      (match Label(items[|items| - 1]) case Some(p) => [p] case None => [])
  }

  /** A layer is selected exactly when some item carries its label. */
  lemma {:induction false} SelectedLabels(items: seq<string>)
    ensures forall p :: p in Selected(items) <==> exists i | 0 <= i < |items| :: Label(items[i]) == Some(p)
  {
    if items != [] {
      var init := items[..|items| - 1];
      SelectedLabels(init);
      forall p ensures p in Selected(items) <==> exists i | 0 <= i < |items| :: Label(items[i]) == Some(p) {
        if p in Selected(items) {
          if p in Selected(init) {
            var i :| 0 <= i < |init| && Label(init[i]) == Some(p);
            assert items[i] == init[i];
          } else {
            assert Label(items[|items| - 1]) == Some(p);
          }
        }
        if exists i | 0 <= i < |items| :: Label(items[i]) == Some(p) {
          var i :| 0 <= i < |items| && Label(items[i]) == Some(p);
          if i < |items| - 1 {
            assert init[i] == items[i];
          }
        }
      }
    }
  }

  /** The selection keeps the order of the items: selecting from a concatenation concatenates. */
  lemma {:induction false} SelectedAppend(a: seq<string>, b: seq<string>)
    ensures Selected(a + b) == Selected(a) + Selected(b)
    decreases |b|
  {
    if b == [] {
      assert a + b == a;
    } else {
      var b' := b[..|b| - 1];
      assert (a + b)[..|a + b| - 1] == a + b';
      assert (a + b)[|a + b| - 1] == b[|b| - 1];
      SelectedAppend(a, b');
    }
  }

  /**
   * Step 1: the selection string is split on ';' and each known label appends its raster name
   * and its plot name, so the two lists stay aligned.
   */
  method SelectLayers(userHabStates: string) returns (names: seq<string>, plotNames: seq<string>)
    ensures |names| == |plotNames| == |Selected(Split(userHabStates, ';'))|
    ensures forall i | 0 <= i < |names| ::
              (names[i], plotNames[i]) == Selected(Split(userHabStates, ';'))[i]
  {
    var items := Split(userHabStates, ';');
    names := [];
    plotNames := [];
    var k := 0;
    while k < |items|
      invariant 0 <= k <= |items|
      invariant |names| == |plotNames| == |Selected(items[..k])|
      invariant forall i | 0 <= i < |names| :: (names[i], plotNames[i]) == Selected(items[..k])[i]
    {
      var item := items[k];
      assert items[..k + 1][..k] == items[..k];
      if item == "'Habitat State'" {
        names := names + ["hab_state"];
        plotNames := plotNames + ["Habitat States"];
      } else if item == "Risk" {
        names := names + ["risk"];
        plotNames := plotNames + ["Risk"];
      } else if item == "'RSF Max'" {
        names := names + ["rsf_max"];
        plotNames := plotNames + ["RSF Max"];
      } else if item == "'RSF Season 1'" {
        names := names + ["rsf_s1"];
        plotNames := plotNames + ["RSF Season 1"];
      } else if item == "'RSF Season 2'" {
        names := names + ["rsf_s2"];
        plotNames := plotNames + ["RSF Season 2"];
      } else if item == "'RSF Season 3'" {
        names := names + ["rsf_s3"];
        plotNames := plotNames + ["RSF Season 3"];
      }
      k := k + 1;
    }
    assert items[..k] == items;
  }

  // ---------------------------------------------------------------------------------------
  // Step 4: the mask of each pair

  /** Which raster of a reference/scenario pair serves as the mask. */
  datatype Side = Reference | Scenario

  function CellsOf(side: Side, refCells: nat, scnCells: nat): nat {
    if side == Reference then refCells else scnCells
  }

  /** The raster with fewer cells (rows times columns) is the mask; on a tie, the reference. */
  function MaskSide(refCells: nat, scnCells: nat): (side: Side)
    ensures CellsOf(side, refCells, scnCells) <= refCells
    ensures CellsOf(side, refCells, scnCells) <= scnCells
    ensures refCells == scnCells ==> side == Reference
  {
    if scnCells < refCells then Scenario else Reference
  }

  /** Step 4: one mask per pair of the zipped lists, in order. */
  method ChooseMasks(refCells: seq<nat>, scnCells: seq<nat>) returns (masks: seq<Side>)
    ensures |masks| == if |refCells| <= |scnCells| then |refCells| else |scnCells|
    ensures forall i | 0 <= i < |masks| :: masks[i] == MaskSide(refCells[i], scnCells[i])
    ensures forall i | 0 <= i < |masks| ::
              CellsOf(masks[i], refCells[i], scnCells[i]) <= refCells[i] &&
              CellsOf(masks[i], refCells[i], scnCells[i]) <= scnCells[i]
  {
    masks := [];
    var i := 0;
    while i < |refCells| && i < |scnCells|
      invariant 0 <= i <= |refCells| && i <= |scnCells| && |masks| == i
      invariant forall j | 0 <= j < i :: masks[j] == MaskSide(refCells[j], scnCells[j])
    {
      if scnCells[i] < refCells[i] {
        masks := masks + [Scenario];
      } else if scnCells[i] > refCells[i] {
        masks := masks + [Reference];
      } else {
        masks := masks + [Reference];
      }
      i := i + 1;
    }
  }

  // ---------------------------------------------------------------------------------------
  // Step 6: the change raster

  /**
   * The change at one cell, None (NoData) where there is none: ref - scn on the risk layer and
   * (ref - scn) * -1 on every other layer.
   */
  function Change(plotName: string, ref: int, scn: int): (d: Option<int>) {
    var diff := if plotName == "Risk" then ref - scn else (ref - scn) * -1;
    if diff == 0 then None else Some(diff)
  }

  /**
   * A cell is NoData exactly where the runs agree; elsewhere a positive change means a higher
   * scenario value, except on the risk layer, where it means a lower scenario risk.
   */
  lemma ChangeSign(plotName: string, ref: int, scn: int)
    ensures Change(plotName, ref, scn).None? <==> ref == scn
    ensures Change(plotName, ref, scn).Some? ==>
              (Change(plotName, ref, scn).value > 0 <==>
                 (if plotName == "Risk" then scn < ref else scn > ref))
    ensures Change(plotName, ref, scn).Some? ==>
              (if plotName == "Risk" then -Change(plotName, ref, scn).value else Change(plotName, ref, scn).value)
                == scn - ref
  {
  }

  /** A row of a raster's value attribute table. */
  datatype VatRow = VatRow(value: int, count: nat)

  /** The exact area of count cells in km2. */
  function Exact(count: nat, cellSize: real): (a: real)
    ensures a >= 0.0
  {
    assert cellSize * cellSize >= 0.0;
    count as real * (cellSize * cellSize) * 0.000001
  }

  /** The area of count cells in km2, round(count * cell size^2 * 1e-6, 2). */
  function Area(count: nat, cellSize: real): (a: real)
    ensures a >= 0.0
    ensures -0.005 <= a - Exact(count, cellSize) <= 0.005
  {
    var exact := Exact(count, cellSize);
    Rounding.RoundHundredths(exact);
    Rounding.Round(exact, 2)
  }

  /** sum(s): the total of a list of areas. */
  function Sum(s: seq<real>): real {
    if s == [] then 0.0 else Sum(s[..|s| - 1]) + s[|s| - 1]
  }

  lemma {:induction false} SumNonneg(s: seq<real>)
    requires forall i | 0 <= i < |s| :: s[i] >= 0.0
    ensures Sum(s) >= 0.0
  {
    if s != [] {
      SumNonneg(s[..|s| - 1]);
    }
  }

  /** The area of each row of a table, in row order. */
  function RowAreas(rows: seq<VatRow>, cellSize: real): (areas: seq<real>)
    ensures |areas| == |rows|
    ensures forall i | 0 <= i < |rows| :: areas[i] == Area(rows[i].count, cellSize)
  {
    seq(|rows|, i requires 0 <= i < |rows| => Area(rows[i].count, cellSize))
  }

  /** The changed area of each row of the change raster's table; [0] when it has no rows. */
  method ChangedAreas(rows: seq<VatRow>, cellSize: real) returns (areas: seq<real>)
    ensures rows == [] ==> areas == [0.0]
    ensures rows != [] ==> areas == RowAreas(rows, cellSize)
    ensures Sum(areas) >= 0.0
  {
    areas := [];
    var k := 0;
    while k < |rows|
      invariant 0 <= k <= |rows| && |areas| == k
      invariant forall i | 0 <= i < k :: areas[i] == Area(rows[i].count, cellSize)
    {
      areas := areas + [Area(rows[k].count, cellSize)];
      k := k + 1;
    }
    if rows == [] {
      areas := areas + [0.0];
    } else {
      assert areas == RowAreas(rows, cellSize);
    }
    SumNonneg(areas);
  }

  /** The exact changed area of a table of rows, before rounding. */
  function ExactArea(rows: seq<VatRow>, cellSize: real): real {
    if rows == [] then 0.0
    else ExactArea(rows[..|rows| - 1], cellSize) + Exact(rows[|rows| - 1].count, cellSize)
  }

  /** Each row's rounding loses at most half a hundredth of a km2 of the exact total. */
  lemma {:induction false} ChangedAreaError(rows: seq<VatRow>, cellSize: real)
    ensures -0.005 * |rows| as real <= Sum(RowAreas(rows, cellSize)) - ExactArea(rows, cellSize) <= 0.005 * |rows| as real
  {
    if rows != [] {
      var n := |rows| - 1;
      ChangedAreaError(rows[..n], cellSize);
      RowAreasPrefix(rows, cellSize);
    }
  }

  /** The areas of all rows but the last are the areas of the shorter table. */
  lemma RowAreasPrefix(rows: seq<VatRow>, cellSize: real)
    requires rows != []
    ensures var n := |rows| - 1;
            Sum(RowAreas(rows, cellSize)) == Sum(RowAreas(rows[..n], cellSize)) + Area(rows[n].count, cellSize)
  {
    var n := |rows| - 1;
    assert RowAreas(rows, cellSize)[..n] == RowAreas(rows[..n], cellSize);
  }

  // ---------------------------------------------------------------------------------------
  // Step 6: per-class areas

  /** The three kinds of layer the report bins differently, named by their plot names. */
  datatype Kind = HabStates | RiskLayer | RsfLayer

  function KindOf(plotName: string): Kind {
    if plotName == "Habitat States" then HabStates
    else if plotName == "Risk" then RiskLayer
    else RsfLayer
  }

  /** The class values of each bin list, in bin order. */
  function BinValues(kind: Kind): (vs: seq<int>)
    ensures |vs| == match kind case HabStates => 5 case RiskLayer => 11 case RsfLayer => 10
  {
    match kind
    case HabStates => [-2, -1, 0, 1, 2]
    case RiskLayer => [0, 1, 2, 3, 4, 5, 6, 7, 8, 9, 10]
    case RsfLayer => [1, 2, 3, 4, 5, 6, 7, 8, 9, 10]
  }

  /** Each bin list is strictly increasing, so no value has two bins. */
  lemma BinValuesIncreasing(kind: Kind)
    ensures forall i, j | 0 <= i < j < |BinValues(kind)| :: BinValues(kind)[i] < BinValues(kind)[j]
  {
  }

  /** list.index(v): the first position of v, None where the list does not hold v. */
  function IndexOf(s: seq<int>, v: int): (i: Option<nat>)
    ensures i.Some? ==> i.value < |s| && s[i.value] == v
    ensures i.None? <==> v !in s
  {
    if s == [] then None
    else if s[0] == v then Some(0)
    else match IndexOf(s[1..], v)
      case Some(j) => Some(j + 1)
      case None => None
  }

  /** The position in the bin list that a table value's area goes to. */
  function BinIndexOf(kind: Kind, v: int): Option<nat> {
    IndexOf(BinValues(kind), if kind == RsfLayer && v == 0 then 1 else v)
  }

  /** A table value the report can bin: one of the bin values, or RSF class 0. */
  predicate Binnable(kind: Kind, v: int) {
    v in BinValues(kind) || (kind == RsfLayer && v == 0)
  }

  /** Does the area of value v belong in bin b? RSF class 0 is reported with class 1. */
  predicate InBin(kind: Kind, v: int, b: nat)
    requires b < |BinValues(kind)|
  {
    v == BinValues(kind)[b] || (kind == RsfLayer && v == 0 && BinValues(kind)[b] == 1)
  }

  /** Reference definition: the total area of the rows whose value belongs in bin b. */
  function AreaIn(kind: Kind, rows: seq<VatRow>, cellSize: real, b: nat): real
    requires b < |BinValues(kind)|
  {
    if rows == [] then 0.0
    else
      var last := rows[|rows| - 1];
      AreaIn(kind, rows[..|rows| - 1], cellSize, b) + (if InBin(kind, last.value, b) then Area(last.count, cellSize) else 0.0)
  }

  function Bins(kind: Kind, rows: seq<VatRow>, cellSize: real): (bins: seq<real>)
    ensures |bins| == |BinValues(kind)|
  {
    seq(|BinValues(kind)|, b requires 0 <= b < |BinValues(kind)| => AreaIn(kind, rows, cellSize, b))
  }

  /** Every row of a table has a value the report can bin. */
  predicate AllBinnable(kind: Kind, rows: seq<VatRow>) {
    forall i | 0 <= i < |rows| :: Binnable(kind, rows[i].value)
  }

  /**
   * The per-class areas of one run: each table row's area is added into the bin of its value.
   * A value outside the bin list raises (ValueError), and so does an empty table.
   */
  method BinAreas(kind: Kind, rows: seq<VatRow>, cellSize: real) returns (r: Result<seq<real>>)
    ensures r.Failure? <==> rows == [] || !AllBinnable(kind, rows)
    ensures r.Success? ==> r.value == Bins(kind, rows, cellSize)
  {
    var bins := seq(|BinValues(kind)|, b => 0.0);
    var k := 0;
    BinStart(kind, rows, cellSize);
    while k < |rows|
      invariant 0 <= k <= |rows|
      invariant AllBinnable(kind, rows[..k])
      invariant bins == Bins(kind, rows[..k], cellSize)
    {
      var next := AddRow(kind, rows, cellSize, k, bins);
      if next.None? {
        return Failure("ValueError: class value not in the bin list");
      }
      bins := next.value;
      k := k + 1;
    }
    assert rows[..k] == rows;
    if rows == [] {
      return Failure("NameError: empty value table");
    }
    r := Success(bins);
  }

  /**
   * One pass of the cursor loop: the area of row k is added into the bin at its value's index;
   * a value outside the bin list raises (None).
   */
  method AddRow(kind: Kind, rows: seq<VatRow>, cellSize: real, k: nat, bins: seq<real>)
    returns (next: Option<seq<real>>)
    requires k < |rows| && AllBinnable(kind, rows[..k])
    requires bins == Bins(kind, rows[..k], cellSize)
    ensures next.None? <==> !Binnable(kind, rows[k].value)
    ensures next.None? ==> !AllBinnable(kind, rows)
    ensures next.Some? ==> AllBinnable(kind, rows[..k + 1]) && next.value == Bins(kind, rows[..k + 1], cellSize)
  {
    var index := BinIndexOf(kind, rows[k].value);
    if index.None? {
      BinMiss(kind, rows, k);
      return None;
    }
    var idx := index.value;
    BinStep(kind, rows, cellSize, k, idx);
    next := Some(bins[idx := bins[idx] + Area(rows[k].count, cellSize)]);
  }

  /** Before any row, every bin is empty. */
  lemma BinStart(kind: Kind, rows: seq<VatRow>, cellSize: real)
    ensures AllBinnable(kind, rows[..0])
    ensures seq(|BinValues(kind)|, b => 0.0) == Bins(kind, rows[..0], cellSize)
  {
    assert rows[..0] == [];
  }

  /** A value the bin list does not hold (other than RSF class 0) cannot be binned. */
  lemma BinMiss(kind: Kind, rows: seq<VatRow>, k: nat)
    requires k < |rows|
    requires BinIndexOf(kind, rows[k].value).None?
    ensures !AllBinnable(kind, rows)
  {
    assert !Binnable(kind, rows[k].value);
  }

  /** One step of the binning loop: the next row's area goes into the bin at its value's index. */
  lemma BinStep(kind: Kind, rows: seq<VatRow>, cellSize: real, k: nat, idx: nat)
    requires k < |rows| && AllBinnable(kind, rows[..k])
    requires BinIndexOf(kind, rows[k].value) == Some(idx)
    ensures AllBinnable(kind, rows[..k + 1])
    ensures var bins := Bins(kind, rows[..k], cellSize);
            bins[idx := bins[idx] + Area(rows[k].count, cellSize)] == Bins(kind, rows[..k + 1], cellSize)
  {
    BinIndex(kind, rows[k].value, idx);
    BinnableStep(kind, rows, k);
    BinsExtend(kind, rows, cellSize, k, idx);
  }

  lemma BinnableStep(kind: Kind, rows: seq<VatRow>, k: nat)
    requires k < |rows| && AllBinnable(kind, rows[..k]) && Binnable(kind, rows[k].value)
    ensures AllBinnable(kind, rows[..k + 1])
  {
    forall i | 0 <= i < k + 1 ensures Binnable(kind, rows[i].value) {
      if i < k {
        assert rows[i] == rows[..k][i];
      }
    }
    assert forall i | 0 <= i < k + 1 :: rows[..k + 1][i] == rows[i];
  }

  lemma BinsExtend(kind: Kind, rows: seq<VatRow>, cellSize: real, k: nat, idx: nat)
    requires k < |rows| && idx < |BinValues(kind)|
    requires forall b | 0 <= b < |BinValues(kind)| :: InBin(kind, rows[k].value, b) <==> b == idx
    ensures var bins := Bins(kind, rows[..k], cellSize);
            bins[idx := bins[idx] + Area(rows[k].count, cellSize)] == Bins(kind, rows[..k + 1], cellSize)
  {
    AreaInStep(kind, rows, cellSize, k);
    var bins := Bins(kind, rows[..k], cellSize);
    var bins' := bins[idx := bins[idx] + Area(rows[k].count, cellSize)];
    forall b | 0 <= b < |bins| ensures bins'[b] == Bins(kind, rows[..k + 1], cellSize)[b] {
      assert InBin(kind, rows[k].value, b) <==> b == idx;
    }
  }

  /** Extending a table by its next row adds that row's area to the bins its value belongs in. */
  lemma AreaInStep(kind: Kind, rows: seq<VatRow>, cellSize: real, k: nat)
    requires k < |rows|
    ensures forall b | 0 <= b < |BinValues(kind)| ::
              AreaIn(kind, rows[..k + 1], cellSize, b) ==
                AreaIn(kind, rows[..k], cellSize, b) +
                (if InBin(kind, rows[k].value, b) then Area(rows[k].count, cellSize) else 0.0)
  {
    assert rows[..k + 1][..k] == rows[..k];
  }

  /** The value's position in the bin list is the one bin its area belongs in. */
  lemma BinIndex(kind: Kind, v: int, idx: nat)
    requires BinIndexOf(kind, v) == Some(idx)
    ensures Binnable(kind, v)
    ensures forall b | 0 <= b < |BinValues(kind)| :: InBin(kind, v, b) <==> b == idx
  {
    var values := BinValues(kind);
    BinValuesIncreasing(kind);
    forall b | 0 <= b < |values| ensures InBin(kind, v, b) <==> b == idx {
      assert values[b] == values[idx] ==> b == idx;
    }
  }

  /** A value the report can bin has a position in the bin list. */
  lemma BinnableIndex(kind: Kind, v: int)
    requires Binnable(kind, v)
    ensures BinIndexOf(kind, v).Some?
  {
    assert (if kind == RsfLayer && v == 0 then 1 else v) in BinValues(kind);
  }

  /** Adding d to one entry adds d to the sum. */
  lemma {:induction false} SumAddAt(s: seq<real>, t: seq<real>, b: nat, d: real)
    requires |s| == |t| && b < |s|
    requires t[b] == s[b] + d
    requires forall i | 0 <= i < |s| && i != b :: t[i] == s[i]
    ensures Sum(t) == Sum(s) + d
  {
    var n := |s| - 1;
    if b == n {
      assert t[..n] == s[..n];
    } else {
      SumAddAt(s[..n], t[..n], b, d);
    }
  }

  /** Binning loses no area and adds none: the bins sum to the areas of all rows. */
  lemma {:induction false} BinsTotal(kind: Kind, rows: seq<VatRow>, cellSize: real)
    requires AllBinnable(kind, rows)
    ensures Sum(Bins(kind, rows, cellSize)) == Sum(RowAreas(rows, cellSize))
  {
    if rows == [] {
      ZerosSum(Bins(kind, rows, cellSize));
    } else {
      var n := |rows| - 1;
      assert AllBinnable(kind, rows[..n]) by {
        forall i | 0 <= i < n ensures Binnable(kind, rows[..n][i].value) {
          assert rows[..n][i] == rows[i];
        }
      }
      BinsTotal(kind, rows[..n], cellSize);
      RowAreasPrefix(rows, cellSize);
      BinsLastRow(kind, rows, cellSize);
    }
  }

  /** The last row of a table adds its area to the total of the bins. */
  lemma BinsLastRow(kind: Kind, rows: seq<VatRow>, cellSize: real)
    requires rows != [] && Binnable(kind, rows[|rows| - 1].value)
    ensures var n := |rows| - 1;
            Sum(Bins(kind, rows, cellSize)) == Sum(Bins(kind, rows[..n], cellSize)) + Area(rows[n].count, cellSize)
  {
    var n := |rows| - 1;
    var last := rows[n];
    BinnableIndex(kind, last.value);
    var idx := BinIndexOf(kind, last.value).value;
    BinIndex(kind, last.value, idx);
    var before := Bins(kind, rows[..n], cellSize);
    var after := Bins(kind, rows, cellSize);
    var d := Area(last.count, cellSize);
    forall b | 0 <= b < |after| ensures after[b] == if b == idx then before[b] + d else before[b] {
      assert after[b] == AreaIn(kind, rows, cellSize, b);
      assert before[b] == AreaIn(kind, rows[..n], cellSize, b);
      assert InBin(kind, last.value, b) <==> b == idx;
    }
    SumAddAt(before, after, idx, d);
  }


  lemma {:induction false} ZerosSum(s: seq<real>)
    requires forall i | 0 <= i < |s| :: s[i] == 0.0
    ensures Sum(s) == 0.0
  {
    if s != [] {
      ZerosSum(s[..|s| - 1]);
    }
  }

  // ---------------------------------------------------------------------------------------
  // Step 6: percent change

  /**
   * The percent change of one bin: 0 when both areas are 0, 100 when only the scenario has
   * area, round((scn - ref) / ref * 100, 1) otherwise; None where that divides by zero.
   */
  function PctChange(ref: real, scn: real): Option<real> {
    if ref == 0.0 && scn == 0.0 then Some(0.0)
    else if ref == 0.0 && scn > 0.0 then Some(100.0)
    else if ref == 0.0 then None
    else Some(Rounding.Round((scn - ref) / ref * 100.0, 1))
  }

  /**
   * For areas (never negative) the percent change is defined; with a reference area, it has
   * the sign of the change and never falls below -100.
   */
  lemma PctChangeOfAreas(ref: real, scn: real)
    requires ref >= 0.0 && scn >= 0.0
    ensures PctChange(ref, scn).Some?
    ensures ref > 0.0 && scn >= ref ==> PctChange(ref, scn).value >= 0.0
    ensures ref > 0.0 && scn <= ref ==> PctChange(ref, scn).value <= 0.0
    ensures -100.0 <= PctChange(ref, scn).value <= 100.0 || (ref > 0.0 && scn > ref)
    ensures scn == ref ==> PctChange(ref, scn) == Some(0.0)
  {
    if ref > 0.0 {
      var x := (scn - ref) / ref * 100.0;
      ChangeRatio(ref, scn);
      Rounding.RoundMonotone(-100.0, x, 1);
      RoundHundred();
      if scn == ref {
        assert Rounding.Round(x, 1) == 0.0;
      }
    }
  }

  /** The unrounded percent change of a nonnegative area from a positive one. */
  lemma ChangeRatio(ref: real, scn: real)
    requires ref > 0.0 && scn >= 0.0
    ensures var x := (scn - ref) / ref * 100.0;
            && x >= -100.0
            && (scn >= ref ==> x >= 0.0)
            && (scn <= ref ==> x <= 0.0)
            && (scn == ref ==> x == 0.0)
  {
    var q := (scn - ref) / ref;
    assert q * ref == scn - ref;
    assert q >= -1.0;
    if scn <= ref {
      assert q <= 0.0;
    }
  }

  /** round(-100, 1) is -100 and round(0, 1) is 0. */
  lemma RoundHundred()
    ensures Rounding.Round(-100.0, 1) == -100.0
    ensures Rounding.Round(0.0, 1) == 0.0
  {
    Rounding.RoundOdd(100.0, 1);
    assert Rounding.Scale(1) == 10.0;
    assert (100.0 * 10.0 + 0.5).Floor == 1000;
  }


  /** A doubling is +100 percent and a fall from 9 km2 to 5.4 km2 is -40 percent. */
  lemma PctChangeExamples()
    ensures PctChange(2.0, 4.0) == Some(100.0)
    ensures PctChange(9.0, 5.4) == Some(-40.0)
    ensures PctChange(0.0, 3.0) == Some(100.0)
  {
    assert Rounding.Scale(1) == 10.0;
    assert (4.0 - 2.0) / 2.0 * 100.0 == 100.0;
    assert (100.0 * 10.0 + 0.5).Floor == 1000;
    assert (5.4 - 9.0) / 9.0 * 100.0 == -40.0;
    assert (40.0 * 10.0 + 0.5).Floor == 400;
  }

  /** The percent change of each pair of the zipped bin lists; a division by zero raises. */
  method PercentChanges(refBins: seq<real>, scnBins: seq<real>) returns (r: Result<seq<real>>)
    ensures var n := if |refBins| <= |scnBins| then |refBins| else |scnBins|;
            && (r.Success? <==> forall i | 0 <= i < n :: PctChange(refBins[i], scnBins[i]).Some?)
            && (r.Success? ==>
                  && |r.value| == n
                  && forall i | 0 <= i < n :: Some(r.value[i]) == PctChange(refBins[i], scnBins[i]))
  {
    var n := if |refBins| <= |scnBins| then |refBins| else |scnBins|;
    var pctChange: seq<real> := [];
    var i := 0;
    while i < n
      invariant 0 <= i <= n && |pctChange| == i
      invariant forall j | 0 <= j < i :: Some(pctChange[j]) == PctChange(refBins[j], scnBins[j])
    {
      var refArea := refBins[i];
      var scnroArea := scnBins[i];
      if refArea == 0.0 && scnroArea == 0.0 {
        pctChange := pctChange + [0.0];
      } else if refArea == 0.0 && scnroArea > 0.0 {
        pctChange := pctChange + [100.0];
      } else if refArea == 0.0 {
        return Failure("ZeroDivisionError");
      } else {
        pctChange := pctChange + [Rounding.Round((scnroArea - refArea) / refArea * 100.0, 1)];
      }
      i := i + 1;
    }
    r := Success(pctChange);
  }

  // ---------------------------------------------------------------------------------------
  // Step 6: totals

  /** The figures of the report's text box. */
  datatype Totals = Totals(totalArea: real, changedArea: real, totalPctChange: real)

  /**
   * The total area (sum of the scenario bins), the changed area and the total percent change.
   * With no changed area both are reported as 0 and the total area is not rounded; otherwise
   * all three are rounded to one decimal, and a zero total area raises.
   */
  method ReportTotals(changedAreas: seq<real>, scnBins: seq<real>) returns (r: Option<Totals>)
    ensures r.None? <==> Sum(changedAreas) != 0.0 && Sum(scnBins) == 0.0
    ensures Sum(changedAreas) == 0.0 ==> r == Some(Totals(Sum(scnBins), 0.0, 0.0))
    ensures r.Some? ==>
              && -0.05 <= r.value.totalArea - Sum(scnBins) <= 0.05
              && -0.05 <= r.value.changedArea - Sum(changedAreas) <= 0.05
    ensures r.Some? && Sum(changedAreas) != 0.0 ==>
              && r.value.totalPctChange == Rounding.Round(Sum(changedAreas) / Sum(scnBins) * 100.0, 1)
              && -0.05 <= r.value.totalPctChange - Sum(changedAreas) / Sum(scnBins) * 100.0 <= 0.05
              && r.value.changedArea == Rounding.Round(Sum(changedAreas), 1)
              && r.value.totalArea == Rounding.Round(Sum(scnBins), 1)
    ensures r.Some? && 0.0 <= Sum(changedAreas) <= Sum(scnBins) ==>
              0.0 <= r.value.totalPctChange <= 100.0
  {
    var totalArea := Sum(scnBins);
    var changed := Sum(changedAreas);
    var totalPctChange: real;
    if changed == 0.0 {
      totalPctChange := 0.0;
      changed := 0.0;
    } else {
      if totalArea == 0.0 {
        return None;
      }
      totalPctChange := Rounding.Round(changed / totalArea * 100.0, 1);
      TotalPctBounds(changed, totalArea);
      Rounding.RoundTenths(changed / totalArea * 100.0);
      Rounding.RoundTenths(changed);
      Rounding.RoundTenths(totalArea);
      changed := Rounding.Round(changed, 1);
      totalArea := Rounding.Round(totalArea, 1);
    }
    r := Some(Totals(totalArea, changed, totalPctChange));
  }

  /** A changed area within the total is between 0 and 100 percent of it after rounding. */
  lemma TotalPctBounds(changed: real, total: real)
    requires total != 0.0
    ensures 0.0 <= changed <= total ==> 0.0 <= Rounding.Round(changed / total * 100.0, 1) <= 100.0
  {
    if 0.0 <= changed <= total {
      var x := changed / total * 100.0;
      assert changed / total <= 1.0;
      assert 0.0 <= x <= 100.0;
      Rounding.RoundMonotone(x, 100.0, 1);
      assert Rounding.Round(100.0, 1) == 100.0 by {
        assert Rounding.Scale(1) == 10.0;
        assert (100.0 * 10.0 + 0.5).Floor == 1000;
      }
    }
  }
}
