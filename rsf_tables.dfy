/**
 * The seasonal RSF model constants of the habitat-state tool: for each population unit and
 * season (1 to 3) the sixteen linear-predictor coefficients c1 .. c16 and the nine class
 * breakpoints bp1 .. bp9. The Chinchaga unit is disabled in the tool and is absent here.
 */
module RsfTables {
  import opened Wrappers
  import Classify

  /** Coefficients c1 .. c16 and breakpoints bp1 .. bp9 of one seasonal RSF model. */
  datatype RsfModel = RsfModel(coef: seq<real>, breaks: seq<real>)

  /** The population units the tool has models for. */
  predicate IsUnit(unit: string) {
    || unit == "Yellowhead"
    || unit == "Grande Cache"
    || unit == "Clearwater"
    || unit == "Livingstone-Castle"
    || unit == "Swan Hills"
  }

  /** A well-formed model: sixteen coefficients and nine valid breakpoints. */
  predicate WellFormed(m: RsfModel) {
    |m.coef| == 16 && |m.breaks| == 9 && Classify.ValidBreaks(m.breaks)
  }

  /** Nine breakpoints rising strictly from above 0 to below 1. */
  predicate Rising(b: seq<real>)
    requires |b| == 9
  {
    0.0 < b[0] < b[1] < b[2] < b[3] < b[4] < b[5] < b[6] < b[7] < b[8] < 1.0
  }

  /** Nine rising breakpoints are valid class breakpoints. */
  lemma NineBreaks(b: seq<real>)
    requires |b| == 9 && Rising(b)
    ensures Classify.ValidBreaks(b)
  {
  }

  /**
   * The model selected for a population unit and season; None where the tool's chain of
   * cases leaves the coefficients unbound (an unknown unit, a season outside 1 .. 3).
   */
  function Model(unit: string, season: int): (m: Option<RsfModel>)
    ensures m.Some? <==> IsUnit(unit) && 1 <= season <= 3
    ensures m.Some? ==> WellFormed(m.value)
  {
    if !(1 <= season <= 3) then None
    else if unit == "Yellowhead" then Some(Yellowhead(season))
    else if unit == "Grande Cache" then Some(GrandeCache(season))
    else if unit == "Clearwater" then Some(Clearwater(season))
    else if unit == "Livingstone-Castle" then Some(LivingstoneCastle(season))
    else if unit == "Swan Hills" then Some(SwanHills(season))
    else None
  }

  /** The Yellowhead models, seasons 1 to 3. */
  function Yellowhead(season: int): (m: RsfModel)
    requires 1 <= season <= 3
    ensures WellFormed(m)
  {
    var m :=
      if season == 1 then
        RsfModel([-0.091, -0.265, -0.275, 0.513, 0.503, 0.342, -0.008, -0.001,
                  0.001, -0.00006, -1.950, 0.509, -0.246, -0.768, -4.130, -0.00572],
                 [0.051496, 0.072563, 0.088948, 0.107674, 0.135763,
                  0.170874, 0.205985, 0.241096, 0.304296])
      else if season == 2 then
        RsfModel([-0.111, -0.214, -0.530, -0.333, 0.497, -0.015, -0.012, -0.01,
                  -0.001, -0.00029, -1.347, -0.008, -0.581, -1.308, -4.104, -0.00703],
                 [0.034278, 0.048969, 0.062027, 0.076718, 0.091408,
                  0.109363, 0.132215, 0.161597, 0.204036])
      else
        RsfModel([-0.025, -0.182, -0.421, -0.487, 0.398, 0.054, -0.011, -0.01,
                  -0.001, -0.00055, -1.407, -0.008, -0.547, -1.315, -4.171, -0.00717],
                 [0.028076, 0.040554, 0.053032, 0.065510, 0.079548,
                  0.096706, 0.116983, 0.143499, 0.184053]);
    NineBreaks(m.breaks);
    m
  }

  /** The Grande Cache models, seasons 1 to 3. */
  function GrandeCache(season: int): (m: RsfModel)
    requires 1 <= season <= 3
    ensures WellFormed(m)
  {
    var m :=
      if season == 1 then
        RsfModel([-1.468, -1.528, -1.622, -5.159, 1.224, -3.955, -0.015, -0.002,
                  -0.005, 0.00005, -0.772, -0.619, -0.973, 0.083, -0.746, -0.00445],
                 [0.011980, 0.035939, 0.044924, 0.059898, 0.077868,
                  0.092842, 0.107817, 0.131776, 0.161725])
      else if season == 2 then
        RsfModel([-1.135, -2.188, -2.745, -5.762, 0.713, 0.823, -0.02, -0.003,
                  -0.014, 0.00088, -1.629, -1.687, -0.286, 1.035, -2.809, -0.01261],
                 [0.010309, 0.017181, 0.024053, 0.030926, 0.041234,
                  0.051543, 0.068724, 0.092777, 0.151192])
      else
        RsfModel([-0.148, -2.374, -3.342, -4.305, -1.864, -3.468, -0.029, -0.018,
                  -0.01, 0.00208, -1.5, -1.473, -0.957, -1.439, -1.69, -0.00997],
                 [0.017764, 0.031975, 0.042634, 0.056845, 0.071056,
                  0.08882, 0.110137, 0.142112, 0.206062]);
    NineBreaks(m.breaks);
    m
  }

  /** The Clearwater models, seasons 1 to 3. */
  function Clearwater(season: int): (m: RsfModel)
    requires 1 <= season <= 3
    ensures WellFormed(m)
  {
    var m :=
      if season == 1 then
        RsfModel([-10.574, -4.233, 4.11, -10.125, 4.539, 0.221, -0.038, -0.137,
                  0.057, 0.0006, -2.371, 0.0, -1.277, -0.273, -2.784, -0.00042],
                 [0.505993, 0.606419, 0.641182, 0.795683, 0.880659,
                  0.915422, 0.938597, 0.961773, 0.977223])
      else if season == 2 then
        RsfModel([-1.616, -2.266, -3.148, -8.017, -2.523, -2.283, -0.008, 0.01,
                  -0.024, 0.0009, -1.942, 0.0, -0.55, -4.0853, -3.847, -0.00476],
                 [0.01589, 0.02270, 0.03178, 0.04086, 0.04994,
                  0.05902, 0.07037, 0.08172, 0.09761])
      else
        RsfModel([-4.347, -2.061, -2.782, -2.139, -3.619, -3.297, -0.014, 0.012,
                  -0.027, 0.00043, -3.359, 0.0, -0.837, -3.838, -2.707, -0.00009],
                 [0.00174, 0.00522, 0.008701, 0.013921, 0.019141,
                  0.026102, 0.034803, 0.045244, 0.071346]);
    NineBreaks(m.breaks);
    m
  }

  /** The Livingstone-Castle models, seasons 1 to 3. */
  function LivingstoneCastle(season: int): (m: RsfModel)
    requires 1 <= season <= 3
    ensures WellFormed(m)
  {
    var m :=
      if season == 1 then
        RsfModel([-10.0, -1.945, -0.651, -10.0, -0.133, -1.648, -0.009, 0.035,
                  -0.007, 0.00053, -0.087, 0.0, -1.566, -1.463, -1.304, 0.00619],
                 [0.109723, 0.152947, 0.199496, 0.242720, 0.275969,
                  0.302569, 0.325843, 0.355767, 0.392342])
      else if season == 2 then
        RsfModel([-10.0, -5.792, -1.289, -10.0, -1.24, -1.382, -0.016, 0.064,
                  -0.013, 0.0009, 0.345, 0.0, -2.301, -1.042, -3.178, -0.00357],
                 [0.060329, 0.097675, 0.120658, 0.137894, 0.155131,
                  0.175241, 0.203969, 0.238442, 0.290153])
      else
        RsfModel([-10.0, -5.544, -1.064, -10.0, -0.916, 1.127, -0.009, 0.004,
                  -0.015, -0.00008, -0.875, 0.0, -3.518, 2.385, -4.005, -0.01061],
                 [0.023971, 0.038952, 0.047941, 0.05693, 0.06916,
                  0.083897, 0.107868, 0.137831, 0.182776]);
    NineBreaks(m.breaks);
    m
  }

  /** The Swan Hills models, seasons 1 to 3. */
  function SwanHills(season: int): (m: RsfModel)
    requires 1 <= season <= 3
    ensures WellFormed(m)
  {
    var m :=
      if season == 1 then
        RsfModel([-1.279, 3.455, -1.098, -1.807, 4.1, 2.682, -0.008, -0.05,
                  -0.006, 0.00083, -2.069, 0.473, -4.601, -5.81, 2.406, -0.00381],
                 [0.020635, 0.038691, 0.056747, 0.072224, 0.087700,
                  0.105756, 0.134130, 0.196036, 0.286315])
      else if season == 2 then
        RsfModel([-1.123, -1.439, -2.948, -3.415, -1.708, -3.141, -0.027, -0.017,
                  -0.014, 0.00104, -1.058, 0.18, -2.655, -0.272, -2.748, -0.02172],
                 [0.003485, 0.006971, 0.010456, 0.013941, 0.017436,
                  0.022654, 0.029625, 0.040081, 0.057507])
      else
        RsfModel([-0.177, -0.393, -1.307, -1.594, -1.643, -1.669, -0.034, -0.023,
                  0.0001, -0.00014, -1.59, -1.635, 0.653, -1.021, 1.503, -0.00864],
                 [0.002367, 0.004734, 0.007101, 0.010651, 0.014202,
                  0.020119, 0.028404, 0.040238, 0.061541]);
    NineBreaks(m.breaks);
    m
  }

}
