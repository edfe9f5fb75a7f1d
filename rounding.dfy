/**
 * Python 2's built-in round(x, places), as the change-detection report uses it:
 * the value is scaled by 10^places and rounded half away from zero.
 * The binary floating-point representation error of the interpreter is not modelled.
 */
module Rounding {

  /** 10 raised to `places`. */
  function Scale(places: nat): (s: real)
    ensures s >= 1.0
  {
    if places == 0 then 1.0 else 10.0 * Scale(places - 1)
  }

  /** Rounding to the nearest multiple of 1/s, halves away from zero. */
  function RoundAt(x: real, s: real): (r: real)
    requires s >= 1.0
    ensures x >= 0.0 ==> r >= 0.0
    ensures x <= 0.0 ==> r <= 0.0
  {
    if x >= 0.0 then ((x * s + 0.5).Floor as real) / s
    else -((((-x) * s + 0.5).Floor as real) / s)
  }

  /** round(x, places). */
  function Round(x: real, places: nat): (r: real)
    ensures x >= 0.0 ==> r >= 0.0
    ensures x <= 0.0 ==> r <= 0.0
  {
    RoundAt(x, Scale(places))
  }

  /** Rounding is symmetric about zero. */
  lemma RoundOdd(x: real, places: nat)
    ensures Round(-x, places) == -Round(x, places)
  {
    if x == 0.0 {
      assert -x == x;
    }
  }

  /** round(x, 1) lies within 0.05 of x. */
  lemma RoundTenths(x: real)
    ensures -0.05 <= Round(x, 1) - x <= 0.05
  {
    assert Scale(1) == 10.0;
    RoundAtError(x, 10.0);
  }

  /** round(x, 2) lies within 0.005 of x. */
  lemma RoundHundredths(x: real)
    ensures -0.005 <= Round(x, 2) - x <= 0.005
  {
    assert Scale(2) == 100.0;
    RoundAtError(x, 100.0);
  }

  /** Rounding to multiples of 1/s moves x by at most half a unit 1/s. */
  lemma RoundAtError(x: real, s: real)
    requires s >= 1.0
    ensures -0.5 <= (RoundAt(x, s) - x) * s <= 0.5
  {
    var r := RoundAt(x, s);
    if x >= 0.0 {
      var f := (x * s + 0.5).Floor as real;
      assert r == f / s;
      assert r * s == f;
      assert f <= x * s + 0.5 < f + 1.0;
    } else {
      var f := ((-x) * s + 0.5).Floor as real;
      assert r == -(f / s);
      assert r * s == -f;
      assert f <= (-x) * s + 0.5 < f + 1.0;
    }
    assert (r - x) * s == r * s - x * s;
  }

  /** Rounding never reverses the order of two values. */
  lemma RoundMonotone(x: real, y: real, places: nat)
    requires x <= y
    ensures Round(x, places) <= Round(y, places)
  {
    var s := Scale(places);
    assert Round(x, places) == RoundAt(x, s) && Round(y, places) == RoundAt(y, s);
    if 0.0 <= x {
      RoundAtMonotone(x, y, s);
    } else if y < 0.0 {
      RoundAtMonotone(-y, -x, s);
      assert RoundAt(x, s) == -RoundAt(-x, s) && RoundAt(y, s) == -RoundAt(-y, s);
    } else {
      assert RoundAt(x, s) <= 0.0 <= RoundAt(y, s);
    }
  }

  lemma RoundAtMonotone(x: real, y: real, s: real)
    requires 0.0 <= x <= y && s >= 1.0
    ensures RoundAt(x, s) <= RoundAt(y, s)
  {
    ScaleMonotone(x, y, s);
    var a := x * s + 0.5;
    var b := y * s + 0.5;
    assert a <= b;
    FloorMonotone(a, b);
    DivMonotone(a.Floor as real, b.Floor as real, s);
  }

  lemma ScaleMonotone(x: real, y: real, s: real)
    requires x <= y && s >= 0.0
    ensures x * s <= y * s
  {
    assert y * s - x * s == (y - x) * s;
  }

  lemma FloorMonotone(a: real, b: real)
    requires a <= b
    ensures a.Floor <= b.Floor
  {
    assert a.Floor as real <= a && b < b.Floor as real + 1.0;
  }

  lemma DivMonotone(a: real, b: real, s: real)
    requires a <= b && s > 0.0
    ensures a / s <= b / s
  {
    assert b / s - a / s == (b - a) / s;
  }
}
