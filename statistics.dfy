/**
 * The shot-group statistics that `Circles` computes, as functions over the
 * list of collected circles, and what they are proved to mean.
 *
 * The group centre is computed as target.py writes it: the chosen minimum
 * plus the summed offsets from it divided by N - 1 (not N). The lemmas
 * below show what that formula is: the mean of the other N - 1
 * coordinates once the minimal one is dropped, which equals the plain
 * mean only when every coordinate is the same.
 */
module Statistics {
  import opened Ingestion
  import opened RealArith

  datatype Axis = X | Y

  function Coord(c: Circle, a: Axis): real
  {
    match a
    case X => c.x
    case Y => c.y
  }

  /**
   * The index of the circle `min_x` / `min_y` return: the running minimum,
   * replaced whenever a circle's coordinate is <= it, so the last of the tied
   * minima wins.
   */
  function LastMinIndex(cs: seq<Circle>, a: Axis): (k: nat)
    requires |cs| > 0
    ensures k < |cs|
    ensures forall j :: 0 <= j < |cs| ==> Coord(cs[k], a) <= Coord(cs[j], a)
    ensures forall j :: k < j < |cs| ==> Coord(cs[k], a) < Coord(cs[j], a)
  {
    if |cs| == 1 then 0
    else
      var k := LastMinIndex(cs[..|cs| - 1], a);
      if Coord(cs[|cs| - 1], a) <= Coord(cs[k], a) then |cs| - 1 else k
  }

  /** The two properties of LastMinIndex single out one index. */
  lemma {:induction false} LastMinIndexUnique(cs: seq<Circle>, a: Axis, k: nat)
    requires k < |cs|
    requires forall j :: 0 <= j < |cs| ==> Coord(cs[k], a) <= Coord(cs[j], a)
    requires forall j :: k < j < |cs| ==> Coord(cs[k], a) < Coord(cs[j], a)
    ensures k == LastMinIndex(cs, a)
  {
  }

  function MinCoord(cs: seq<Circle>, a: Axis): real
    requires |cs| > 0
  {
    Coord(cs[LastMinIndex(cs, a)], a)
  }

  /** The sum of the coordinates, accumulated from the front. */
  function SumCoords(cs: seq<Circle>, a: Axis): real
  {
    if cs == [] then 0.0 else SumCoords(cs[..|cs| - 1], a) + Coord(cs[|cs| - 1], a)
  }

  /**
   * The `total` of `average_center`: the sum of the offsets from m, which is
   * the sum of the coordinates less N times m.
   */
  function SumOffsets(cs: seq<Circle>, a: Axis, m: real): (total: real)
    ensures total + |cs| as real * m == SumCoords(cs, a)
  {
    if cs == [] then 0.0
    else
      var init := cs[..|cs| - 1];
      SuccTimes(|cs|, |init|, m);
      SumOffsets(init, a, m) + (Coord(cs[|cs| - 1], a) - m)
  }

  function Mean(cs: seq<Circle>, a: Axis): real
    requires |cs| > 0
  {
    SumCoords(cs, a) / |cs| as real
  }

  /** `total / (len - 1) + base`: how `average_center` turns the summed offsets into a coordinate. */
  function OffsetMean(total: real, base: real, n: nat): real
    requires n >= 2
  {
    total / (n - 1) as real + base
  }

  /** One coordinate of `average_center`, divisor N - 1 as written: never below the chosen minimum. */
  function CenterCoord(cs: seq<Circle>, a: Axis): (c: real)
    requires |cs| >= 2
    ensures MinCoord(cs, a) <= c
  {
    SumOffsetsNonNegative(cs, a, MinCoord(cs, a));
    QuotientNonNegative(SumOffsets(cs, a, MinCoord(cs, a)), (|cs| - 1) as real);
    OffsetMean(SumOffsets(cs, a, MinCoord(cs, a)), MinCoord(cs, a), |cs|)
  }

  /** Offsets from a lower bound sum to at least zero, and to zero exactly when every coordinate is the bound. */
  lemma {:induction false} SumOffsetsNonNegative(cs: seq<Circle>, a: Axis, m: real)
    requires forall j :: 0 <= j < |cs| ==> m <= Coord(cs[j], a)
    ensures 0.0 <= SumOffsets(cs, a, m)
    ensures SumOffsets(cs, a, m) == 0.0 <==> forall j :: 0 <= j < |cs| ==> Coord(cs[j], a) == m
  {
    if cs != [] {
      var init := cs[..|cs| - 1];
      assert forall j :: 0 <= j < |init| ==> init[j] == cs[j];
      SumOffsetsNonNegative(init, a, m);
    }
  }

  lemma {:induction false} SumCoordsAppend(s: seq<Circle>, t: seq<Circle>, a: Axis)
    ensures SumCoords(s + t, a) == SumCoords(s, a) + SumCoords(t, a)
    decreases |t|
  {
    if t == [] {
      assert s + t == s;
    } else {
      assert (s + t)[..|s + t| - 1] == s + t[..|t| - 1];
      SumCoordsAppend(s, t[..|t| - 1], a);
    }
  }

  /** Removing the element at k takes its coordinate out of the sum. */
  lemma {:induction false} SumCoordsWithout(cs: seq<Circle>, a: Axis, k: nat)
    requires k < |cs|
    ensures SumCoords(cs, a) == SumCoords(cs[..k] + cs[k + 1..], a) + Coord(cs[k], a)
  {
    assert cs == cs[..k] + [cs[k]] + cs[k + 1..];
    SumCoordsAppend(cs[..k] + [cs[k]], cs[k + 1..], a);
    SumCoordsAppend(cs[..k], [cs[k]], a);
    SumCoordsAppend(cs[..k], cs[k + 1..], a);
    assert [cs[k]][..0] == [];
  }

  /** With total + n * base == rest + base, the offset mean is rest / (n - 1). */
  lemma {:induction false} OffsetMeanShift(total: real, s: real, rest: real, base: real, n: nat)
    requires n >= 2
    requires total + n as real * base == s
    requires s == rest + base
    ensures OffsetMean(total, base, n) == rest / (n - 1) as real
  {
    ShiftedQuotient(total, s, rest, base, n);
  }

  /** The centre sits on the minimal coordinate exactly when all circles share it. */
  lemma {:induction false} CenterAtLeastMin(cs: seq<Circle>, a: Axis)
    requires |cs| >= 2
    ensures CenterCoord(cs, a) == MinCoord(cs, a) <==> forall j :: 0 <= j < |cs| ==> Coord(cs[j], a) == MinCoord(cs, a)
  {
    SumOffsetsNonNegative(cs, a, MinCoord(cs, a));
    QuotientNonNegative(SumOffsets(cs, a, MinCoord(cs, a)), (|cs| - 1) as real);
  }

  /** With total + n * base == s and total >= 0, the offset mean is at or above s / n, and on it exactly when total is 0. */
  lemma {:induction false} OffsetMeanAboveMean(total: real, s: real, base: real, n: nat)
    requires n >= 2
    requires total + n as real * base == s
    requires 0.0 <= total
    ensures s / n as real <= OffsetMean(total, base, n)
    ensures OffsetMean(total, base, n) == s / n as real <==> total == 0.0
  {
    MeanBelowShifted(total, s, base, n as real, (n - 1) as real);
  }

  /** The centre is (S - m) / (N - 1), for the coordinate sum S and the minimum m. */
  lemma {:induction false} CenterClosedForm(cs: seq<Circle>, a: Axis)
    requires |cs| >= 2
    ensures CenterCoord(cs, a) == (SumCoords(cs, a) - MinCoord(cs, a)) / (|cs| - 1) as real
  {
    var m := MinCoord(cs, a);
    OffsetMeanShift(SumOffsets(cs, a, m), SumCoords(cs, a), SumCoords(cs, a) - m, m, |cs|);
  }

  /**
   * The centre as written is the mean of the N - 1 coordinates left once the
   * chosen minimal circle is dropped.
   */
  lemma {:induction false} CenterDropsMinimum(cs: seq<Circle>, a: Axis)
    requires |cs| >= 2
    ensures var k := LastMinIndex(cs, a);
      CenterCoord(cs, a) == SumCoords(cs[..k] + cs[k + 1..], a) / (|cs| - 1) as real
  {
    var k := LastMinIndex(cs, a);
    SumCoordsWithout(cs, a, k);
    CenterClosedForm(cs, a);
  }

  lemma {:induction false} SumCoordsAtMost(cs: seq<Circle>, a: Axis, hi: real)
    requires forall j :: 0 <= j < |cs| ==> Coord(cs[j], a) <= hi
    ensures SumCoords(cs, a) <= |cs| as real * hi
  {
    if cs != [] {
      var init := cs[..|cs| - 1];
      assert forall j :: 0 <= j < |init| ==> init[j] == cs[j];
      SumCoordsAtMost(init, a, hi);
      SuccTimes(|cs|, |init|, hi);
    }
  }

  /** Dropping one circle leaves N - 1 coordinates whose mean respects the bound. */
  lemma {:induction false} MeanWithoutAtMost(cs: seq<Circle>, a: Axis, k: nat, hi: real)
    requires |cs| >= 2 && k < |cs|
    requires forall j :: 0 <= j < |cs| ==> Coord(cs[j], a) <= hi
    ensures SumCoords(cs[..k] + cs[k + 1..], a) / (|cs| - 1) as real <= hi
  {
    var rest := cs[..k] + cs[k + 1..];
    assert forall j :: 0 <= j < |rest| ==> rest[j] == cs[if j < k then j else j + 1];
    SumCoordsAtMost(rest, a, hi);
    MulCongr(|rest| as real, (|cs| - 1) as real, hi);
    QuotientAtMost(SumCoords(rest, a), (|cs| - 1) as real, hi);
  }

  /** The centre never passes a bound that every coordinate respects. */
  lemma {:induction false} CenterAtMostBound(cs: seq<Circle>, a: Axis, hi: real)
    requires |cs| >= 2
    requires forall j :: 0 <= j < |cs| ==> Coord(cs[j], a) <= hi
    ensures CenterCoord(cs, a) <= hi
  {
    CenterDropsMinimum(cs, a);
    MeanWithoutAtMost(cs, a, LastMinIndex(cs, a), hi);
  }

  /**
   * Dividing by N - 1 puts the centre at or above the arithmetic mean, and on
   * it exactly when every coordinate equals the minimum.
   */
  lemma {:induction false} CenterVersusMean(cs: seq<Circle>, a: Axis)
    requires |cs| >= 2
    ensures Mean(cs, a) <= CenterCoord(cs, a)
    ensures CenterCoord(cs, a) == Mean(cs, a) <==> forall j :: 0 <= j < |cs| ==> Coord(cs[j], a) == MinCoord(cs, a)
  {
    var m := MinCoord(cs, a);
    var total := SumOffsets(cs, a, m);
    SumOffsetsNonNegative(cs, a, m);
    OffsetMeanAboveMean(total, SumCoords(cs, a), m, |cs|);
    assert CenterCoord(cs, a) == OffsetMean(total, m, |cs|);
  }

  /** `average_center`: the pair of centre coordinates, each at or above the arithmetic mean of its axis. */
  function Center(cs: seq<Circle>): (center: (real, real))
    requires |cs| >= 2
    ensures Mean(cs, X) <= center.0 && Mean(cs, Y) <= center.1
  {
    CenterVersusMean(cs, X);
    CenterVersusMean(cs, Y);
    (CenterCoord(cs, X), CenterCoord(cs, Y))
  }

  function Abs(v: real): (r: real)
  {
    if v < 0.0 then -v else v
  }

  /** What `average_radius` needs of `math.sqrt`: non-negative, and zero exactly at zero. */
  ghost predicate IsSqrtLike(sqrt: real -> real)
  {
    forall v :: 0.0 <= v ==> 0.0 <= sqrt(v) && (sqrt(v) == 0.0 <==> v == 0.0)
  }

  /**
   * The squared Euclidean distance from (cx, cy) to a circle's centre,
   * through `abs` as written: never negative, and zero exactly at the centre.
   */
  function SquaredDistance(cx: real, cy: real, c: Circle): (d: real)
    ensures 0.0 <= d
    ensures d == 0.0 <==> c.x == cx && c.y == cy
  {
    var dx := Abs(cx - c.x);
    var dy := Abs(cy - c.y);
    SquareZero(dx);
    SquareZero(dy);
    dx * dx + dy * dy
  }

  /**
   * The distance `average_radius` adds up for one circle: with a square root
   * as constrained above, never negative and zero exactly at the centre.
   */
  function Distance(cx: real, cy: real, c: Circle, sqrt: real -> real): (d: real)
    ensures IsSqrtLike(sqrt) ==> 0.0 <= d && (d == 0.0 <==> c.x == cx && c.y == cy)
  {
    sqrt(SquaredDistance(cx, cy, c))
  }

  /** The `total` of `average_radius`: never negative, and zero exactly when every circle sits on (cx, cy). */
  function SumDistances(cs: seq<Circle>, cx: real, cy: real, sqrt: real -> real): (total: real)
    ensures IsSqrtLike(sqrt) ==>
      && 0.0 <= total
      && (total == 0.0 <==> forall j :: 0 <= j < |cs| ==> cs[j].x == cx && cs[j].y == cy)
  {
    if cs == [] then 0.0
    else
      var init := cs[..|cs| - 1];
      assert forall j :: 0 <= j < |init| ==> init[j] == cs[j];
      SumDistances(init, cx, cy, sqrt) + Distance(cx, cy, cs[|cs| - 1], sqrt)
  }

  /**
   * `average_radius`: the mean over N of the distances to the centre. It is
   * never negative, and zero exactly when every circle sits on the centre.
   */
  function Radius(cs: seq<Circle>, sqrt: real -> real): (r: real)
    requires |cs| >= 2
    ensures IsSqrtLike(sqrt) ==>
      && 0.0 <= r
      && (r == 0.0 <==> forall j :: 0 <= j < |cs| ==> cs[j].x == Center(cs).0 && cs[j].y == Center(cs).1)
  {
    var center := Center(cs);
    QuotientNonNegative(SumDistances(cs, center.0, center.1, sqrt), |cs| as real);
    SumDistances(cs, center.0, center.1, sqrt) / |cs| as real
  }

  /**
   * `average_precision_circle`: (centre x, centre y, precision radius). The
   * circle has radius zero exactly when every shot sits on its centre.
   */
  function PrecisionCircle(cs: seq<Circle>, sqrt: real -> real): (apc: (real, real, real))
    requires |cs| >= 2
    ensures (apc.0, apc.1) == Center(cs)
    ensures IsSqrtLike(sqrt) ==>
      && 0.0 <= apc.2
      && (apc.2 == 0.0 <==> forall j :: 0 <= j < |cs| ==> cs[j].x == apc.0 && cs[j].y == apc.1)
  {
    (Center(cs).0, Center(cs).1, Radius(cs, sqrt))
  }

  /**
   * `average_precision_circle_inches`: the host's unit conversion applied to
   * each component; a drawing already in inches is left as it is.
   */
  function PrecisionCircleInches(apc: (real, real, real), uutounit: (real, string) -> real): (inches: (real, real, real))
    ensures (forall v :: uutounit(v, Inches) == v) ==> inches.0 == apc.0 && inches.1 == apc.1 && inches.2 == apc.2
  {
    (uutounit(apc.0, Inches), uutounit(apc.1, Inches), uutounit(apc.2, Inches))
  }

  /** Each converted component depends on its own input component alone. */
  lemma {:induction false} InchesComponentwise(p: (real, real, real), q: (real, real, real), uutounit: (real, string) -> real)
    ensures p.0 == q.0 ==> PrecisionCircleInches(p, uutounit).0 == PrecisionCircleInches(q, uutounit).0
    ensures p.1 == q.1 ==> PrecisionCircleInches(p, uutounit).1 == PrecisionCircleInches(q, uutounit).1
    ensures p.2 == q.2 ==> PrecisionCircleInches(p, uutounit).2 == PrecisionCircleInches(q, uutounit).2
  {
  }

  /** Under a conversion that scales by a fixed factor, the circle is scaled as a whole. */
  lemma {:induction false} InchesScale(apc: (real, real, real), uutounit: (real, string) -> real, k: real)
    requires forall v :: uutounit(v, Inches) == k * v
    ensures PrecisionCircleInches(apc, uutounit) == (k * apc.0, k * apc.1, k * apc.2)
  {
  }

  const Inches: string := "in"

  const MoaInchesAt100Yards: real := 1.047

  /**
   * `moa`: the group diameter 2r (the third component, in inches) in
   * minutes of arc at `distance` yards, where one minute of arc spans
   * 1.047 inches at 100 yards.
   */
  function Moa(apc: (real, real, real), distance: int): (moa: real)
    requires distance != 0
    ensures moa * (MoaInchesAt100Yards * (distance as real / 100.0)) == 2.0 * apc.2
  {
    apc.2 * 2.0 / (MoaInchesAt100Yards * (distance as real / 100.0))
  }

  lemma {:induction false} MoaAt100Yards(apc: (real, real, real))
    ensures Moa(apc, 100) == 2.0 * apc.2 / 1.047
  {
  }

  lemma {:induction false} MoaOnlyRadius(p: (real, real, real), q: (real, real, real), distance: int)
    requires distance != 0
    requires p.2 == q.2
    ensures Moa(p, distance) == Moa(q, distance)
  {
  }

  lemma {:induction false} MoaLinear(p: (real, real, real), q: (real, real, real), u: real, v: real, distance: int)
    requires distance != 0
    ensures Moa((0.0, 0.0, u * p.2 + v * q.2), distance) == u * Moa(p, distance) + v * Moa(q, distance)
  {
    var k := MoaInchesAt100Yards * (distance as real / 100.0);
    assert k != 0.0;
    var lhs := Moa((0.0, 0.0, u * p.2 + v * q.2), distance);
    assert lhs * k == 2.0 * (u * p.2 + v * q.2);
    assert (u * Moa(p, distance) + v * Moa(q, distance)) * k == u * (Moa(p, distance) * k) + v * (Moa(q, distance) * k);
  }

  lemma {:induction false} MoaDoubleDistance(apc: (real, real, real), distance: int)
    requires distance != 0
    ensures Moa(apc, 2 * distance) == Moa(apc, distance) / 2.0
  {
    var k := MoaInchesAt100Yards * (distance as real / 100.0);
    var k2 := MoaInchesAt100Yards * ((2 * distance) as real / 100.0);
    assert k2 == 2.0 * k;
    assert Moa(apc, 2 * distance) * k2 == 2.0 * apc.2;
    assert (Moa(apc, distance) / 2.0) * k2 == Moa(apc, distance) * k;
  }

  /**
   * Three circles, two tied at the origin: the second of the tied pair is
   * chosen, and the centre is (5, 5) where the arithmetic mean is (10/3, 10/3).
   */
  lemma {:induction false} TiedMinimumExample()
    ensures var cs := [Circle(Some("a"), 0.0, 0.0, 1.0), Circle(Some("b"), 0.0, 0.0, 1.0), Circle(Some("c"), 10.0, 10.0, 1.0)];
      && LastMinIndex(cs, X) == 1 && LastMinIndex(cs, Y) == 1
      && Center(cs) == (5.0, 5.0)
      && Mean(cs, X) == 10.0 / 3.0 && Mean(cs, Y) == 10.0 / 3.0
  {
    var cs := [Circle(Some("a"), 0.0, 0.0, 1.0), Circle(Some("b"), 0.0, 0.0, 1.0), Circle(Some("c"), 10.0, 10.0, 1.0)];
    assert cs[..2][..1] == [cs[0]];
    assert cs[..2] == [cs[0], cs[1]];
    assert LastMinIndex(cs[..2], X) == 1;
    assert LastMinIndex(cs[..2], Y) == 1;
    assert SumOffsets(cs[..1], X, 0.0) == 0.0;
    assert SumOffsets(cs[..2], X, 0.0) == 0.0;
    assert SumOffsets(cs[..1], Y, 0.0) == 0.0;
    assert SumOffsets(cs[..2], Y, 0.0) == 0.0;
    assert SumCoords(cs[..1], X) == 0.0;
    assert SumCoords(cs[..2], X) == 0.0;
    assert SumCoords(cs[..1], Y) == 0.0;
    assert SumCoords(cs[..2], Y) == 0.0;
  }
}
