/**
 * Attributes of a new vegetation clearing (harvest block, well pad), computed per row of the
 * clipped clearing layer from its clearing year, the base year of the inputs and the forecast
 * year.
 */
module Clearings {

  /** The year the base inputs describe. */
  const BaseYear: int := 2018

  function Abs(x: int): nat { if x < 0 then -x else x }

  /** The crown-closure-versus-age curve, -3.0977 + 2.4784 a - 0.0218 a^2. */
  function CanopyCurve(a: real): real {
    -3.0977 + 2.4784 * a - 0.0218 * a * a
  }

  /** The attributes written into one clearing row. */
  datatype Clearing = Clearing(age: int, regen: int, cc: real, gridcode: int, present: int)

  /** Crown closure of a clearing of the given age: the curve at |age|, never below 0. */
  function ClearingCC(age: int): (cc: real)
    ensures cc >= 0.0
    ensures cc >= CanopyCurve(Abs(age) as real)
    ensures cc == 0.0 || cc == CanopyCurve(Abs(age) as real)
  {
    var curve := CanopyCurve(Abs(age) as real);
    if curve < 0.0 then 0.0 else curve
  }

  /** Land-cover class of a clearing of the given age: barren (7), herb or shrub (3), treed (1). */
  function GridCode(age: int): (code: int)
    ensures code == 7 || code == 3 || code == 1
    ensures code == 7 <==> age <= 3
    ensures code == 3 <==> 3 < age <= 30
    ensures code == 1 <==> age > 30
  {
    if age <= 3 then 7        // barren
    else if age <= 17 then 3  // upland herb
    else if age <= 30 then 3  // shrub
    else 1                    // upland tree
  }

  /** The attributes of a clearing made in `year`, seen from the forecast year `fcst`. */
  function Attributes(year: int, fcst: int): (c: Clearing)
    ensures c.age == BaseYear - year
    ensures c.regen == 1 <==> 0 <= fcst - year <= 50
    ensures c.regen == 0 || c.regen == 1
    ensures c.present == 1 <==> fcst >= year
    ensures c.present == 0 || c.present == 1
    ensures c.regen == 1 ==> c.present == 1
    ensures c.cc >= 0.0 && c.cc == ClearingCC(BaseYear - year)
    ensures c.gridcode == GridCode(BaseYear - year)
  {
    var age := BaseYear - year;
    Clearing(age,
             if 0 <= fcst - year <= 50 then 1 else 0,
             ClearingCC(age),
             GridCode(age),
             if fcst - year >= 0 then 1 else 0)
  }

  /** The attributes every row gets when no clearing-year field is named. */
  function DefaultAttributes(): (c: Clearing)
    ensures c.regen == 1 && c.present == 1 && c.cc == 0.0 && c.gridcode == 7 && c.age == 0
  {
    Clearing(0, 1, 0.0, 7, 1)
  }

  /**
   * The default is a clearing made in the base year, for any forecast year up to 50 years
   * after it.
   */
  lemma DefaultIsBaseYearClearing(fcst: int)
    requires BaseYear <= fcst <= BaseYear + 50
    ensures DefaultAttributes() == Attributes(BaseYear, fcst)
  {
    assert CanopyCurve(0.0) < 0.0;
  }

  /**
   * The canopy curve is positive for every whole age from 2 to 112 years, and negative
   * again at 113.
   */
  lemma CanopyCurvePositive(a: int)
    requires 2 <= a <= 112
    ensures CanopyCurve(a as real) > 0.0
  {
    var x := a as real;
    MulNonneg(x - 2.0, 112.0 - x);
    assert CanopyCurve(x) == 0.0218 * ((x - 2.0) * (112.0 - x)) + (1.7855 - 0.0068 * x);
  }

  /** The canopy curve never exceeds 70, the closure at which the tools stop growing it. */
  lemma CanopyCurveBelow70(a: real)
    ensures CanopyCurve(a) < 70.0
  {
    var c := 6196.0 / 109.0;  // the age at which the curve peaks
    assert CanopyCurve(a) == -3.0977 + 0.0218 * c * c - 0.0218 * ((a - c) * (a - c));
  }

  lemma MulNonneg(p: real, q: real)
    requires p >= 0.0 && q >= 0.0
    ensures p * q >= 0.0
  {
  }

  /** A table row: the clearing-year field value and the five attribute fields. */
  datatype Row = Row(year: int, attrs: Clearing)

  /**
   * The update-cursor pass over the clipped clearing rows. With a clearing-year field each
   * row gets Attributes(year, fcst); without one every row gets the default attributes.
   */
  method CalculateFields(rows: array<Row>, yearGiven: bool, fcst: int)
    modifies rows
    ensures forall i | 0 <= i < rows.Length ::
              rows[i] == Row(old(rows[i]).year,
                             if yearGiven then Attributes(old(rows[i]).year, fcst)
                             else DefaultAttributes())
  {
    var i := 0;
    while i < rows.Length
      invariant 0 <= i <= rows.Length
      invariant forall k | 0 <= k < i ::
                  rows[k] == Row(old(rows[k]).year,
                                 if yearGiven then Attributes(old(rows[k]).year, fcst)
                                 else DefaultAttributes())
      invariant forall k | i <= k < rows.Length :: rows[k] == old(rows[k])
    {
      var year := rows[i].year;
      var attrs := if yearGiven then Attributes(year, fcst) else DefaultAttributes();
      rows[i] := Row(year, attrs);
      i := i + 1;
    }
  }
}
