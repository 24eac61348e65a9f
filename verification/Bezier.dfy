/** Cubic Bezier easing, over real numbers: bisection for the curve parameter, then evaluation. */
module Bezier {
  import opened Prelude

  const EPSILON: real := 1.0 / 4503599627370496.0

  /** Half the width of the last bisection interval. */
  const PRECISION: real := 1.0 / 4294967296.0

  /** One coordinate of a cubic Bezier curve from 0 to 1 with control values p1 and p2. */
  function Coordinate(p1: real, p2: real, t: real): real {
    var omt := 1.0 - t;
    3.0 * omt * omt * t * p1 + 3.0 * omt * t * t * p2 + t * t * t
  }

  predicate Unit(r: real) {
    0.0 <= r <= 1.0
  }

  /** Dividing the polygon of 0, the control values and 1 by t, and the polygons this gives, down to one point. */
  function Divided(p1: real, p2: real, t: real): real {
    var a, b, c := t * p1, (1.0 - t) * p1 + t * p2, (1.0 - t) * p2 + t;
    var ab, bc := (1.0 - t) * a + t * b, (1.0 - t) * b + t * c;
    (1.0 - t) * ab + t * bc
  }

  lemma RepeatedDivision(p: real, q: real, t: real)
    ensures
      3.0 * (1.0 - t) * (1.0 - t) * t * p + 3.0 * (1.0 - t) * t * t * q + t * t * t ==
      (1.0 - t) * ((1.0 - t) * (t * p) + t * ((1.0 - t) * p + t * q)) +
      t * ((1.0 - t) * ((1.0 - t) * p + t * q) + t * ((1.0 - t) * q + t))
  {
  }

  /** A coordinate is what repeated division of its polygon gives. */
  lemma DividesPolygon(p1: real, p2: real, t: real)
    ensures Coordinate(p1, p2, t) == Divided(p1, p2, t)
  {
    RepeatedDivision(p1, p2, t);
  }

  // Divided differences of a coordinate.

  function Times(a: real, b: real): real {
    a * b
  }

  function Squared(t: real): real {
    Times(t, t)
  }

  function Quadratic(a: real, b: real): real {
    a * a + a * b + b * b
  }

  /** The slope of the chord from a to b. */
  function Chord(p1: real, p2: real, a: real, b: real): real {
    p1 * (3.0 - 6.0 * (a + b) + 3.0 * Quadratic(a, b)) + p2 * (3.0 * (a + b) - 3.0 * Quadratic(a, b)) + Quadratic(a, b)
  }

  lemma Expanded(p1: real, p2: real, t: real)
    ensures Coordinate(p1, p2, t) ==
      p1 * (3.0 * t - 6.0 * (t * t) + 3.0 * (t * t * t)) + p2 * (3.0 * (t * t) - 3.0 * (t * t * t)) + t * t * t
  {
  }

  lemma ChordLaw(p1: real, p2: real, a: real, b: real)
    ensures Coordinate(p1, p2, b) - Coordinate(p1, p2, a) == (b - a) * Chord(p1, p2, a, b)
  {
    Expanded(p1, p2, a);
    Expanded(p1, p2, b);
    var d := b - a;
    assert b * b - a * a == d * (a + b);
    assert b * b * b - a * a * a == d * Quadratic(a, b);
    var s, q := a + b, Quadratic(a, b);
    assert d * Chord(p1, p2, a, b) ==
      p1 * (3.0 * d - 6.0 * (d * s) + 3.0 * (d * q)) + p2 * (3.0 * (d * s) - 3.0 * (d * q)) + d * q;
  }

  lemma UnitProduct(a: real, b: real)
    requires 0.0 <= a && Unit(b)
    ensures 0.0 <= a * b <= a
  {
    assert a * (1.0 - b) == a - a * b;
  }

  lemma SquareNonNegative(t: real)
    ensures Squared(t) >= 0.0
  {
  }

  // A chord slope interpolates between four corners, each from the squared length of the chord to 3.

  lemma Corner00(a: real, b: real)
    requires Unit(a) && Unit(b)
    ensures Squared(b - a) <= Quadratic(a, b) <= 3.0
  {
    UnitProduct(a, a);
    UnitProduct(b, b);
    UnitProduct(a, b);
    assert Quadratic(a, b) - Squared(b - a) == 3.0 * (a * b);
  }

  lemma Corner01(a: real, b: real)
    requires Unit(a) && Unit(b)
    ensures Squared(b - a) <= 3.0 * (a + b) - 2.0 * Quadratic(a, b) <= 3.0
  {
    var s := a + b;
    Corner00(a, b);
    Corner00(1.0 - a, 1.0 - b);
    UnitProduct(a, 1.0 - a);
    UnitProduct(b, 1.0 - b);
    assert 3.0 * s - 2.0 * Quadratic(a, b) - Squared(b - a) == 3.0 * (a * (1.0 - a)) + 3.0 * (b * (1.0 - b));
    assert 3.0 - (3.0 * s - 2.0 * Quadratic(a, b)) == Quadratic(a, b) + Quadratic(1.0 - a, 1.0 - b);
  }

  lemma Corner10(a: real, b: real)
    requires Unit(a) && Unit(b)
    ensures Squared(b - a) <= 3.0 - 6.0 * (a + b) + 4.0 * Quadratic(a, b) <= 3.0
  {
    var s := a + b;
    Corner01(a, b);
    SquareNonNegative(s - 1.0);
    SquareNonNegative(b - a);
    assert 3.0 - (3.0 - 6.0 * s + 4.0 * Quadratic(a, b)) == 2.0 * (3.0 * s - 2.0 * Quadratic(a, b));
    assert 3.0 - 6.0 * s + 4.0 * Quadratic(a, b) == 3.0 * Squared(s - 1.0) + Squared(b - a);
  }

  lemma Corner11(a: real, b: real)
    requires Unit(a) && Unit(b)
    ensures Squared(b - a) <= 3.0 - 3.0 * (a + b) + Quadratic(a, b) <= 3.0
  {
    Corner00(1.0 - a, 1.0 - b);
    assert Quadratic(1.0 - a, 1.0 - b) == 3.0 - 3.0 * (a + b) + Quadratic(a, b);
    assert Squared((1.0 - b) - (1.0 - a)) == Squared(b - a);
  }

  function Mix(p: real, low: real, high: real): real {
    low + p * (high - low)
  }

  lemma PartOf(p: real, d: real)
    requires Unit(p)
    ensures if d >= 0.0 then 0.0 <= p * d <= d else d <= p * d <= 0.0
  {
    if d >= 0.0 {
      UnitProduct(d, p);
    } else {
      UnitProduct(-d, p);
    }
  }

  lemma StepBetween(low: real, d: real, part: real, from: real, to: real)
    requires from <= low <= to && from <= low + d <= to
    requires if d >= 0.0 then 0.0 <= part <= d else d <= part <= 0.0
    ensures from <= low + part <= to
  {
  }

  lemma MixBetween(p: real, low: real, high: real, from: real, to: real)
    requires Unit(p) && from <= low <= to && from <= high <= to
    ensures from <= Mix(p, low, high) <= to
  {
    var d := high - low;
    PartOf(p, d);
    StepBetween(low, d, p * d, from, to);
    assert Mix(p, low, high) == low + p * d;
  }

  lemma MixOfFour(p1: real, p2: real, a: real, b: real, c: real, d: real, from: real, to: real)
    requires Unit(p1) && Unit(p2) && from <= a <= to && from <= b <= to && from <= c <= to && from <= d <= to
    ensures from <= Mix(p2, Mix(p1, a, b), Mix(p1, c, d)) <= to
  {
    MixBetween(p1, a, b, from, to);
    MixBetween(p1, c, d, from, to);
    MixBetween(p2, Mix(p1, a, b), Mix(p1, c, d), from, to);
  }

  lemma ChordIsMix(p1: real, p2: real, s: real, q: real)
    ensures
      Mix(p2, Mix(p1, q, 3.0 - 6.0 * s + 4.0 * q), Mix(p1, 3.0 * s - 2.0 * q, 3.0 - 3.0 * s + q)) ==
      p1 * (3.0 - 6.0 * s + 3.0 * q) + p2 * (3.0 * s - 3.0 * q) + q
  {
  }

  lemma MixBounds(p1: real, p2: real, s: real, q: real, least: real)
    requires Unit(p1) && Unit(p2)
    requires least <= q <= 3.0 && least <= 3.0 * s - 2.0 * q <= 3.0
    requires least <= 3.0 - 6.0 * s + 4.0 * q <= 3.0 && least <= 3.0 - 3.0 * s + q <= 3.0
    ensures least <= p1 * (3.0 - 6.0 * s + 3.0 * q) + p2 * (3.0 * s - 3.0 * q) + q <= 3.0
  {
    MixOfFour(p1, p2, q, 3.0 - 6.0 * s + 4.0 * q, 3.0 * s - 2.0 * q, 3.0 - 3.0 * s + q, least, 3.0);
    ChordIsMix(p1, p2, s, q);
  }

  /** With control values in [0, 1] no chord is steeper than 3 or flatter than its squared length. */
  lemma ChordBounds(p1: real, p2: real, a: real, b: real)
    requires Unit(p1) && Unit(p2) && Unit(a) && Unit(b)
    ensures Squared(b - a) <= Chord(p1, p2, a, b) <= 3.0
  {
    Corner00(a, b);
    Corner01(a, b);
    Corner10(a, b);
    Corner11(a, b);
    MixBounds(p1, p2, a + b, Quadratic(a, b), Squared(b - a));
  }

  /** Going d along a chord from `from` to `to`. */
  lemma AlongChord(from: real, to: real, d: real, chord: real)
    requires to - from == d * chord && 0.0 <= d && 0.0 <= chord <= 3.0
    ensures 0.0 <= to - from <= 3.0 * d
    ensures d > 0.0 && chord > 0.0 ==> from < to
  {
    assert 3.0 * d == d * chord + d * (3.0 - chord);
  }

  lemma SquarePositive(d: real)
    requires d > 0.0
    ensures Squared(d) > 0.0
  {
    TimesPositive(d, d);
  }

  lemma TimesPositive(a: real, b: real)
    requires a > 0.0 && b > 0.0
    ensures Times(a, b) > 0.0
  {
  }

  lemma ChordAbove(p1: real, p2: real, a: real, b: real, least: real)
    requires Unit(p1) && Unit(p2) && Unit(a) && Unit(b) && 0.0 < least == Squared(b - a)
    ensures Chord(p1, p2, a, b) > 0.0
  {
    ChordBounds(p1, p2, a, b);
  }

  lemma ChordPositive(p1: real, p2: real, a: real, b: real)
    requires Unit(p1) && Unit(p2) && Unit(a) && Unit(b) && a < b
    ensures Chord(p1, p2, a, b) > 0.0
  {
    var d := b - a;
    SquarePositive(d);
    ChordAbove(p1, p2, a, b, Squared(d));
  }

  lemma Climb(p1: real, p2: real, a: real, b: real)
    requires Unit(p1) && Unit(p2) && Unit(a) && Unit(b) && a <= b
    ensures 0.0 <= (b - a) * Chord(p1, p2, a, b) <= 3.0 * (b - a)
    ensures a < b ==> (b - a) * Chord(p1, p2, a, b) > 0.0
  {
    ChordBounds(p1, p2, a, b);
    SquareNonNegative(b - a);
    if a < b {
      ChordPositive(p1, p2, a, b);
    }
    AlongChord(0.0, (b - a) * Chord(p1, p2, a, b), b - a, Chord(p1, p2, a, b));
  }

  lemma RisesGently(p1: real, p2: real, a: real, b: real)
    requires Unit(p1) && Unit(p2) && Unit(a) && Unit(b) && a <= b
    ensures 0.0 <= Coordinate(p1, p2, b) - Coordinate(p1, p2, a) <= 3.0 * (b - a)
  {
    ChordLaw(p1, p2, a, b);
    Climb(p1, p2, a, b);
  }

  lemma RisesStrictly(p1: real, p2: real, a: real, b: real)
    requires Unit(p1) && Unit(p2) && Unit(a) && Unit(b) && a < b
    ensures Coordinate(p1, p2, b) - Coordinate(p1, p2, a) != 0.0
  {
    ChordLaw(p1, p2, a, b);
    Climb(p1, p2, a, b);
  }

  /** A coordinate with control values in [0, 1] rises strictly, never faster than 3. */
  lemma RisesBetween(p1: real, p2: real, a: real, b: real)
    requires Unit(p1) && Unit(p2) && Unit(a) && Unit(b) && a <= b
    ensures 0.0 <= Coordinate(p1, p2, b) - Coordinate(p1, p2, a) <= 3.0 * (b - a)
    ensures a < b ==> Coordinate(p1, p2, a) < Coordinate(p1, p2, b)
  {
    RisesGently(p1, p2, a, b);
    if a < b {
      RisesStrictly(p1, p2, a, b);
    }
  }

  lemma StaysUnit(p1: real, p2: real, t: real)
    requires Unit(p1) && Unit(p2) && Unit(t)
    ensures Unit(Coordinate(p1, p2, t))
  {
    RisesBetween(p1, p2, 0.0, t);
    RisesBetween(p1, p2, t, 1.0);
  }

  // Bisection.

  /** The interval after `n` more halvings of `lo`..`hi`, keeping the half on which `f` crosses `x`. */
  function Bisected(f: real -> real, x: real, lo: real, hi: real, n: nat): (real, real)
    decreases n
  {
    if n == 0 then (lo, hi)
    else
      var mid := (lo + hi) / 2.0;
      if x < f(mid) then Bisected(f, x, lo, mid, n - 1) else Bisected(f, x, mid, hi, n - 1)
  }

  function Halved(width: real, n: nat): real
    decreases n
  {
    if n == 0 then width else Halved(width / 2.0, n - 1)
  }

  /**
   * Whatever the control values, the interval stays within the start interval, shrinks by half each time, and
   * keeps the crossing.
   */
  lemma {:induction false} BisectionBrackets(f: real -> real, x: real, lo: real, hi: real, n: nat)
    requires lo < hi && f(lo) <= x < f(hi)
    ensures
      var r := Bisected(f, x, lo, hi, n);
      && lo <= r.0 < r.1 <= hi
      && r.1 - r.0 == Halved(hi - lo, n)
      && f(r.0) <= x < f(r.1)
    decreases n
  {
    if n > 0 {
      var mid := (lo + hi) / 2.0;
      if x < f(mid) {
        BisectionBrackets(f, x, lo, mid, n - 1);
      } else {
        BisectionBrackets(f, x, mid, hi, n - 1);
      }
    }
  }

  lemma {:induction false} BisectionWithin(f: real -> real, x: real, lo: real, hi: real, n: nat)
    requires lo <= hi
    ensures lo <= Bisected(f, x, lo, hi, n).0 <= Bisected(f, x, lo, hi, n).1 <= hi
    decreases n
  {
    if n > 0 {
      var mid := (lo + hi) / 2.0;
      BisectionWithin(f, x, lo, mid, n - 1);
      BisectionWithin(f, x, mid, hi, n - 1);
    }
  }

  function Middle(r: (real, real)): real {
    (r.0 + r.1) / 2.0
  }

  /** Whatever the control values, bisection is monotone: two searches part at most once, and then stay apart. */
  lemma {:induction false} BisectionMonotone(f: real -> real, x: real, y: real, lo: real, hi: real, n: nat)
    requires lo <= hi && x <= y
    ensures Middle(Bisected(f, x, lo, hi, n)) <= Middle(Bisected(f, y, lo, hi, n))
    decreases n
  {
    if n > 0 {
      var mid := (lo + hi) / 2.0;
      var g := f(mid);
      if y < g {
        BisectionMonotone(f, x, y, lo, mid, n - 1);
      } else if g <= x {
        BisectionMonotone(f, x, y, mid, hi, n - 1);
      } else {
        BisectionWithin(f, x, lo, mid, n - 1);
        BisectionWithin(f, y, mid, hi, n - 1);
      }
    }
  }

  lemma {:induction false} HalvedTwice(width: real, m: nat, n: nat)
    ensures Halved(width, m + n) == Halved(Halved(width, m), n)
    decreases m
  {
    if m > 0 {
      HalvedTwice(width / 2.0, m - 1, n);
    }
  }

  lemma HalvedBy8(width: real)
    ensures Halved(width, 8) == width / 256.0
  {
    assert Halved(width, 8) == Halved(width / 2.0 / 2.0 / 2.0 / 2.0, 4);
  }

  lemma HalvedBy31()
    ensures Halved(1.0, 31) == 2.0 * PRECISION
  {
    HalvedTwice(1.0, 8, 23);
    HalvedTwice(1.0 / 256.0, 8, 15);
    HalvedTwice(1.0 / 65536.0, 8, 7);
    HalvedBy8(1.0);
    HalvedBy8(1.0 / 256.0);
    HalvedBy8(1.0 / 65536.0);
    assert Halved(1.0 / 16777216.0, 7) == Halved(1.0 / 16777216.0 / 16.0, 3);
  }

  datatype CubicBezier = CubicBezier(x1: real, y1: real, x2: real, y2: real)
  {
    function XForT(t: real): real {
      Coordinate(x1, x2, t)
    }

    function YForT(t: real): real {
      Coordinate(y1, y2, t)
    }

    function Parameter(x: real): real {
      Middle(Bisected(XForT, x, 0.0, 1.0, 31))
    }

    function Eased(x: real): real {
      if x <= EPSILON then 0.0 else if 1.0 - EPSILON <= x then 1.0 else YForT(Parameter(x))
    }

    /** 31 rounds of bisection for the parameter of `x`. */
    method TForX(x: real) returns (t: real)
      ensures t == Parameter(x)
      ensures Unit(t)
    {
      var minT, maxT := 0.0, 1.0;
      for i := 0 to 31
        invariant Bisected(XForT, x, 0.0, 1.0, 31) == Bisected(XForT, x, minT, maxT, 31 - i)
        invariant 0.0 <= minT <= maxT <= 1.0
      {
        var guessT := (minT + maxT) / 2.0;
        var guessX := XForT(guessT);
        if x < guessX {
          maxT := guessT;
        } else {
          minT := guessT;
        }
      }
      t := (minT + maxT) / 2.0;
    }

    method Y(x: real) returns (y: real)
      ensures y == Eased(x)
    {
      if x <= EPSILON {
        return 0.0;
      }
      if 1.0 - EPSILON <= x {
        return 1.0;
      }
      var t := TForX(x);
      y := YForT(t);
    }

    ghost predicate Rises() {
      Unit(x1) && Unit(x2)
    }
  }

  /** The parameter found is in a bracket of the curve crossing `x`, 2^-31 wide, for any control points. */
  lemma ParameterBrackets(c: CubicBezier, x: real)
    requires 0.0 <= x < 1.0
    ensures exists lo, hi: real ::
      (0.0 <= lo < c.Parameter(x) < hi <= 1.0 && hi - lo == 2.0 * PRECISION && c.Parameter(x) - lo == PRECISION
       && c.XForT(lo) <= x < c.XForT(hi))
  {
    BisectionBrackets(c.XForT, x, 0.0, 1.0, 31);
    HalvedBy31();
    var r := Bisected(c.XForT, x, 0.0, 1.0, 31);
    var lo, hi := r.0, r.1;
    assert 0.0 <= lo < c.Parameter(x) < hi <= 1.0;
  }

  /** Accuracy: with x control values in [0, 1], the x coordinate at the parameter found is within 3 * 2^-32 of `x`. */
  lemma ParameterIsAccurate(c: CubicBezier, x: real)
    requires c.Rises() && 0.0 <= x < 1.0
    ensures Unit(c.Parameter(x)) && Abs(c.XForT(c.Parameter(x)) - x) <= 3.0 * PRECISION
  {
    ParameterBrackets(c, x);
    var lo, hi: real :| 0.0 <= lo < c.Parameter(x) < hi <= 1.0 && hi - lo == 2.0 * PRECISION &&
      c.Parameter(x) - lo == PRECISION && c.XForT(lo) <= x < c.XForT(hi);
    RisesBetween(c.x1, c.x2, lo, c.Parameter(x));
    RisesBetween(c.x1, c.x2, c.Parameter(x), hi);
  }

  /** The eased value is the curve's: at a point (X(s), Y(s)) of the curve the result is within 3 * 2^-32 of Y(s). */
  lemma EasedFollowsCurve(c: CubicBezier, s: real)
    requires c.Rises() && Unit(c.y1) && Unit(c.y2) && Unit(s)
    requires EPSILON < c.XForT(s) < 1.0 - EPSILON
    ensures Abs(c.Parameter(c.XForT(s)) - s) <= PRECISION
    ensures Abs(c.Eased(c.XForT(s)) - c.YForT(s)) <= 3.0 * PRECISION
  {
    var x := c.XForT(s);
    ParameterBrackets(c, x);
    var t := c.Parameter(x);
    var lo, hi: real :| 0.0 <= lo < t < hi <= 1.0 && hi - lo == 2.0 * PRECISION && t - lo == PRECISION && c.XForT(lo) <= x < c.XForT(hi);
    if s < lo {
      RisesBetween(c.x1, c.x2, s, lo);
    } else if hi <= s {
      RisesBetween(c.x1, c.x2, hi, s);
    }
    if s <= t {
      RisesBetween(c.y1, c.y2, s, t);
    } else {
      RisesBetween(c.y1, c.y2, t, s);
    }
  }

  /** Easing starts at 0 and ends at 1, exactly, whatever the control points. */
  lemma EasingHasEnds(c: CubicBezier, x: real)
    ensures x <= 0.0 ==> c.Eased(x) == 0.0
    ensures x >= 1.0 ==> c.Eased(x) == 1.0
  {
  }

  /** Easing is monotone into [0, 1] when the y control values are in [0, 1], whatever the x control values. */
  lemma EasedIsMonotone(c: CubicBezier, x: real, y: real)
    requires Unit(c.y1) && Unit(c.y2) && x <= y
    ensures Unit(c.Eased(x)) && Unit(c.Eased(y)) && c.Eased(x) <= c.Eased(y)
  {
    BisectionWithin(c.XForT, x, 0.0, 1.0, 31);
    BisectionWithin(c.XForT, y, 0.0, 1.0, 31);
    StaysUnit(c.y1, c.y2, c.Parameter(x));
    StaysUnit(c.y1, c.y2, c.Parameter(y));
    BisectionMonotone(c.XForT, x, y, 0.0, 1.0, 31);
    RisesBetween(c.y1, c.y2, c.Parameter(x), c.Parameter(y));
  }
}
