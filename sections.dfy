/**
 * The section plan of a habitat-state run: which optional scenario edits and which outputs
 * run for the given arguments, and in what order.
 */
module Sections {

  /** The run options the section gates read. "#" marks an optional input left out. */
  datatype Args = Args(newClearing: string, newHerb: string, newRoads: string, recRoads: string,
                       process: int, fcstyr: int, delivYr: int)

  /** The sections whose running depends on the arguments, in the order main calls them. */
  datatype Section = AddClearing | AddLnHerb | AddRoads | RclmRoads | FAge
                   | SecInputs | CalRsf | CalRisk | CalHState

  /** The position of each section in main. */
  function Rank(s: Section): nat {
    match s
    case AddClearing => 0
    case AddLnHerb => 1
    case AddRoads => 2
    case RclmRoads => 3
    case FAge => 4
    case SecInputs => 5
    case CalRsf => 6
    case CalRisk => 7
    case CalHState => 8
  }

  /** The gate of each section. */
  predicate Runs(a: Args, s: Section) {
    match s
    case AddClearing => a.newClearing != "#"
    case AddLnHerb => a.newHerb != "#"
    case AddRoads => a.newRoads != "#"
    case RclmRoads => a.recRoads != "#" && (a.process == 1 || a.process == 3)
    case FAge => a.fcstyr != a.delivYr && a.fcstyr - a.delivYr > 1
    case SecInputs => true
    case CalRsf => a.process == 1 || a.process == 2
    case CalRisk => a.process == 1 || a.process == 3
    case CalHState => a.process == 1
  }

  /** All gated sections in the order main reaches them. */
  const Order: seq<Section> :=
    [AddClearing, AddLnHerb, AddRoads, RclmRoads, FAge, SecInputs, CalRsf, CalRisk, CalHState]

  predicate Increasing(xs: seq<Section>) {
    forall i, j | 0 <= i < j < |xs| :: Rank(xs[i]) < Rank(xs[j])
  }

  /** The sections of xs whose gates pass, in the order of xs. */
  function Select(a: Args, xs: seq<Section>): (p: seq<Section>)
    ensures forall s :: s in p <==> s in xs && Runs(a, s)
    ensures Increasing(xs) ==> Increasing(p)
  {
    if xs == [] then []
    else
      var rest := Select(a, xs[1..]);
      assert Increasing(xs) ==> Increasing([xs[0]] + rest) by {
        if Increasing(xs) {
          HeadBelowTail(xs);
          ConsIncreasing(xs[0], rest);
        }
      }
      if Runs(a, xs[0]) then [xs[0]] + rest else rest
  }

  /** In an increasing list the head ranks below every later section, and the tail is increasing. */
  lemma HeadBelowTail(xs: seq<Section>)
    requires xs != [] && Increasing(xs)
    ensures Increasing(xs[1..])
    ensures forall s | s in xs[1..] :: Rank(xs[0]) < Rank(s)
  {
    var tail := xs[1..];
    forall i, j | 0 <= i < j < |tail| ensures Rank(tail[i]) < Rank(tail[j]) {
      assert tail[i] == xs[i + 1] && tail[j] == xs[j + 1];
    }
    forall s | s in tail ensures Rank(xs[0]) < Rank(s) {
      var j :| 0 <= j < |tail| && tail[j] == s;
      assert xs[j + 1] == s;
    }
  }

  /** A section ranked below every section of an increasing list can be put in front of it. */
  lemma ConsIncreasing(x: Section, rest: seq<Section>)
    requires Increasing(rest) && forall s | s in rest :: Rank(x) < Rank(s)
    ensures Increasing([x] + rest)
  {
    var p := [x] + rest;
    forall i, j | 0 <= i < j < |p| ensures Rank(p[i]) < Rank(p[j]) {
      assert p[j] == rest[j - 1];
      if i > 0 {
        assert p[i] == rest[i - 1];
      }
    }
  }

  /** Order lists every section once, at its rank. */
  lemma OrderRanks()
    ensures forall i | 0 <= i < |Order| :: Rank(Order[i]) == i
    ensures Increasing(Order)
    ensures forall s: Section :: s in Order
  {
    forall s: Section ensures s in Order {
      assert Order[Rank(s)] == s;
    }
  }

  /** The sections main runs, in the order it runs them. */
  function Plan(a: Args): (p: seq<Section>)
    ensures forall s :: s in p <==> Runs(a, s)
    ensures Increasing(p)
  {
    OrderRanks();
    Select(a, Order)
  }

  /** Ageing runs exactly when the forecast year is more than one year past the base inputs. */
  lemma AgeingGate(a: Args)
    ensures FAge in Plan(a) <==> a.fcstyr - a.delivYr > 1
  {
  }

  /** The habitat state is produced only in a full run, which also produces both its inputs. */
  lemma HabitatStateNeedsInputs(a: Args)
    ensures CalHState in Plan(a) ==> CalRsf in Plan(a) && CalRisk in Plan(a)
    ensures CalHState in Plan(a) <==> a.process == 1
  {
  }

  /** The RSF-only run (process 2) never reclaims roads and produces neither risk nor state. */
  lemma RsfOnlyPlan(a: Args)
    requires a.process == 2
    ensures RclmRoads !in Plan(a) && CalRisk !in Plan(a) && CalHState !in Plan(a) && CalRsf in Plan(a)
  {
  }

  /** The base layers clipped to the analysis area: the four land layers only for process 2. */
  function ClipLayers(process: int): (layers: seq<nat>)
    ensures process == 2 ==> layers == [0, 1, 2, 3]
    ensures process != 2 ==> |layers| == 7 && forall i | 0 <= i < 7 :: layers[i] == i
  {
    if process == 2 then [0, 1, 2, 3] else seq(7, i => i)
  }

  /**
   * The clip provides what each planned section reads: the four land layers (0 .. 3) are
   * always clipped, the three negative-decay layers (4 .. 6) exactly when the run is not
   * RSF-only, and so whenever the risk section, which reads them, is planned.
   */
  lemma ClipLayersForPlan(a: Args)
    ensures forall l | 0 <= l < 4 :: l in ClipLayers(a.process)
    ensures 4 in ClipLayers(a.process) <==> a.process != 2
    ensures CalRisk in Plan(a) ==> forall l | 4 <= l < 7 :: l in ClipLayers(a.process)
  {
    var layers := ClipLayers(a.process);
    if a.process != 2 {
      assert layers[0] == 0 && layers[1] == 1 && layers[2] == 2 && layers[3] == 3;
      assert layers[4] == 4 && layers[5] == 5 && layers[6] == 6;
    }
  }
}
