/** Battery percentage from voltage: interpolation through a table of knots, on exact reals. */
module BatteryCurve {
  import opened Base

  /** One table entry: a voltage and the charge it stands for. */
  datatype Knot = Knot(v: real, p: int)

  /** At least one segment, voltages strictly falling, percentages never rising. */
  predicate WellFormed(c: seq<Knot>) {
    |c| >= 2 && forall i | 0 < i < |c| :: c[i - 1].v > c[i].v && c[i - 1].p >= c[i].p
  }

  /** The line through two adjacent knots. */
  function Line(hi: Knot, lo: Knot, v: real): real
    requires hi.v > lo.v
  {
    lo.p as real + (v - lo.v) / (hi.v - lo.v) * ((hi.p - lo.p) as real)
  }

  /** Segment i, between knots i and i + 1, covers v. */
  predicate Covers(c: seq<Knot>, i: int, v: real) {
    0 <= i < |c| - 1 && c[i].v >= v >= c[i + 1].v
  }

  /** The interpolant: the line of the first segment that covers v. */
  function Interpolate(c: seq<Knot>, v: real): real
    requires WellFormed(c)
  {
    if Covers(c, 0, v) then Line(c[0], c[1], v)
    else if |c| > 2 then
      assert WellFormed(c[1..]);
      Interpolate(c[1..], v)
    else c[|c| - 1].p as real
  }

  lemma Scale(a: real, b: real, k: real)
    requires a <= b && k >= 0.0
    ensures a * k <= b * k
  {
  }

  lemma Ratio(a: real, b: real, d: real)
    requires a <= b && d > 0.0
    ensures a / d <= b / d
  {
  }

  /** Along one segment the line rises with the voltage. */
  lemma LineMonotone(hi: Knot, lo: Knot, v: real, w: real)
    requires hi.v > lo.v && hi.p >= lo.p && v <= w
    ensures Line(hi, lo, v) <= Line(hi, lo, w)
  {
    Ratio(v - lo.v, w - lo.v, hi.v - lo.v);
    Scale((v - lo.v) / (hi.v - lo.v), (w - lo.v) / (hi.v - lo.v), (hi.p - lo.p) as real);
  }

  /** A segment meets both of its knots and stays between them. */
  lemma LineEnds(hi: Knot, lo: Knot, v: real)
    requires hi.v > lo.v && hi.p >= lo.p
    ensures Line(hi, lo, lo.v) == lo.p as real
    ensures Line(hi, lo, hi.v) == hi.p as real
    ensures hi.v >= v >= lo.v ==> lo.p as real <= Line(hi, lo, v) <= hi.p as real
  {
    var d := hi.v - lo.v;
    assert (lo.v - lo.v) / d == 0.0 && d / d == 1.0;
    if hi.v >= v >= lo.v {
      LineMonotone(hi, lo, lo.v, v);
      LineMonotone(hi, lo, v, hi.v);
    }
  }

  lemma {:induction false} Falling(c: seq<Knot>, i: int, j: int)
    requires WellFormed(c) && 0 <= i <= j < |c|
    ensures c[i].v >= c[j].v && c[i].p >= c[j].p
    ensures i < j ==> c[i].v > c[j].v
  {
    if i < j {
      Falling(c, i, j - 1);
    }
  }

  /** Whichever adjacent segment is taken, the value is the same: knots belong to both neighbours. */
  lemma {:induction false} AnySegment(c: seq<Knot>, i: int, v: real)
    requires WellFormed(c) && Covers(c, i, v)
    ensures Interpolate(c, v) == Line(c[i], c[i + 1], v)
  {
    if i > 0 {
      var rest := c[1..];
      assert rest[i - 1] == c[i] && rest[i] == c[i + 1];
      if Covers(c, 0, v) {
        Falling(c, 1, i);
        if i > 1 {
          Falling(c, 1, i - 1);
        }
        LineEnds(c[0], c[1], v);
        LineEnds(c[1], c[2], v);
      } else {
        AnySegment(rest, i - 1, v);
      }
    }
  }

  /** Every voltage in the table's range lies on some segment. */
  lemma {:induction false} SomeSegment(c: seq<Knot>, v: real) returns (i: int)
    requires WellFormed(c) && c[0].v >= v >= c[|c| - 1].v
    ensures Covers(c, i, v)
  {
    if v >= c[1].v {
      i := 0;
    } else {
      var k := SomeSegment(c[1..], v);
      i := k + 1;
    }
  }

  /** Exact at every knot. */
  lemma ExactAtKnots(c: seq<Knot>, i: int)
    requires WellFormed(c) && 0 <= i < |c|
    ensures Interpolate(c, c[i].v) == c[i].p as real
  {
    var s := if i == 0 then 0 else i - 1;
    AnySegment(c, s, c[i].v);
    LineEnds(c[s], c[s + 1], c[i].v);
  }

  /** Rising with the voltage across the whole table, and never outside its percentages. */
  lemma InterpolateMonotone(c: seq<Knot>, v: real, w: real)
    requires WellFormed(c) && c[0].v >= w >= v >= c[|c| - 1].v
    ensures Interpolate(c, v) <= Interpolate(c, w)
    ensures c[|c| - 1].p as real <= Interpolate(c, v) && Interpolate(c, w) <= c[0].p as real
  {
    var i := SomeSegment(c, v);
    var j := SomeSegment(c, w);
    AnySegment(c, i, v);
    AnySegment(c, j, w);
    LineEnds(c[i], c[i + 1], v);
    LineEnds(c[j], c[j + 1], w);
    Falling(c, i + 1, |c| - 1);
    Falling(c, 0, j);
    if i == j {
      LineMonotone(c[i], c[i + 1], v, w);
    } else if j < i {
      Falling(c, j + 1, i);
    } else {
      Falling(c, i + 1, j);
      AnySegment(c, i, w);
    }
  }

  /** The percentage a table gives: clamped at its ends, the rounded interpolant between them. */
  function PercentOf(c: seq<Knot>, v: real): int
    requires WellFormed(c)
  {
    if v >= c[0].v then c[0].p
    else if v <= c[|c| - 1].v then c[|c| - 1].p
    else Round(Interpolate(c, v))
  }

  /** For every voltage: within the table's percentages, rising, and at most one half off the line. */
  lemma PercentIsSound(c: seq<Knot>, v: real, w: real)
    requires WellFormed(c) && v <= w
    ensures c[|c| - 1].p <= PercentOf(c, v) <= PercentOf(c, w) <= c[0].p
    ensures c[|c| - 1].v < v < c[0].v ==> -0.5 <= PercentOf(c, v) as real - Interpolate(c, v) <= 0.5
  {
    Falling(c, 0, |c| - 1);
    RoundInRange(c, v);
    RoundInRange(c, w);
    if c[|c| - 1].v < v && w < c[0].v {
      InterpolateMonotone(c, v, w);
      RoundMonotone(Interpolate(c, v), Interpolate(c, w));
    }
  }

  lemma RoundInRange(c: seq<Knot>, v: real)
    requires WellFormed(c)
    ensures c[|c| - 1].p <= PercentOf(c, v) <= c[0].p
    ensures c[|c| - 1].v < v < c[0].v ==> -0.5 <= PercentOf(c, v) as real - Interpolate(c, v) <= 0.5
  {
    Falling(c, 0, |c| - 1);
    if c[|c| - 1].v < v < c[0].v {
      InterpolateMonotone(c, v, v);
      RoundNearest(Interpolate(c, v));
      RoundMonotone(c[|c| - 1].p as real, Interpolate(c, v));
      RoundMonotone(Interpolate(c, v), c[0].p as real);
      RoundInt(c[0].p);
      RoundInt(c[|c| - 1].p);
    }
  }

  lemma RoundInt(n: int)
    ensures Round(n as real) == n
  {
  }

  method OnSegment(hi: Knot, lo: Knot, v: real) returns (p: int)
    requires hi.v > lo.v
    ensures p == Round(Line(hi, lo, v))
  {
    var t := (v - lo.v) / (hi.v - lo.v);
    var q := lo.p as real + t * ((hi.p - lo.p) as real);
    return Round(q);
  }

  /** The scan of any table. The fallback after the loop cannot be reached: some segment covers every voltage in range. */
  method Scan(c: seq<Knot>, v: real) returns (p: int)
    requires WellFormed(c) && c[0].v > v > c[|c| - 1].v
    ensures p == PercentOf(c, v)
  {
    ghost var s := SomeSegment(c, v);
    var i := 0;
    while i + 1 < |c|
      invariant 0 <= i < |c|
      invariant forall k | 0 <= k < i :: !Covers(c, k, v)
    {
      var hi, lo := c[i], c[i + 1];
      if v <= hi.v && v >= lo.v {
        AnySegment(c, i, v);
        p := OnSegment(hi, lo, v);
        return;
      }
      i := i + 1;
    }
    assert false;
  }

  // ----- The table of the firmware -----

  const CURVE := [
    Knot(4.14, 100), Knot(4.10, 95), Knot(4.00, 85), Knot(3.90, 75), Knot(3.80, 65), Knot(3.70, 50),
    Knot(3.60, 35), Knot(3.50, 20), Knot(3.40, 10), Knot(3.30, 5), Knot(3.20, 2), Knot(3.00, 0)
  ]

  lemma CurveWellFormed()
    ensures WellFormed(CURVE)
    ensures CURVE[0] == Knot(4.14, 100) && CURVE[|CURVE| - 1] == Knot(3.00, 0)
  {
  }

  /** The charge at the voltages of the discharge table. */
  lemma KnownCharges()
    ensures WellFormed(CURVE)
    ensures PercentOf(CURVE, 4.14) == 100 && PercentOf(CURVE, 4.10) == 95 && PercentOf(CURVE, 4.00) == 85
    ensures PercentOf(CURVE, 3.90) == 75 && PercentOf(CURVE, 3.80) == 65 && PercentOf(CURVE, 3.70) == 50
    ensures PercentOf(CURVE, 3.60) == 35 && PercentOf(CURVE, 3.50) == 20 && PercentOf(CURVE, 3.40) == 10
    ensures PercentOf(CURVE, 3.30) == 5 && PercentOf(CURVE, 3.20) == 2 && PercentOf(CURVE, 3.00) == 0
  {
    CurveWellFormed();
    forall i | 0 <= i < |CURVE| ensures PercentOf(CURVE, CURVE[i].v) == CURVE[i].p {
      Falling(CURVE, 0, i);
      Falling(CURVE, i, |CURVE| - 1);
      ExactAtKnots(CURVE, i);
      RoundInt(CURVE[i].p);
    }
    assert CURVE[1].v == 4.10 && CURVE[2].v == 4.00 && CURVE[3].v == 3.90 && CURVE[4].v == 3.80 && CURVE[5].v == 3.70;
    assert CURVE[6].v == 3.60 && CURVE[7].v == 3.50 && CURVE[8].v == 3.40 && CURVE[9].v == 3.30 && CURVE[10].v == 3.20;
  }

  /** The firmware's clamps are the ends of its table, so the whole function is the table's percentage. */
  method VoltsToPercent(v: real) returns (p: int)
    ensures WellFormed(CURVE) && p == PercentOf(CURVE, v)
    ensures 0 <= p <= 100
  {
    CurveWellFormed();
    PercentIsSound(CURVE, v, v);
    if v >= 4.14 {
      return 100;
    }
    if v <= 3.00 {
      return 0;
    }
    p := Scan(CURVE, v);
  }
}
