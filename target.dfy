/**
 * The `Circles` object, whose methods walk and extend its list of circles,
 * and the `effect` entry point that refuses small groups and otherwise
 * records what it draws. The collecting loop is proved to compute
 * `Ingestion.Ingested`, and each statistics loop the function of module
 * Statistics that states what it means.
 */
module Target {
  import opened Ingestion
  import opened Statistics

  class Circles {
    var circles: seq<Circle>

    /** Starts empty and collects the selection, as `__init__` does. */
    constructor (selected: seq<Node>, parse: string -> Option<real>)
      ensures circles == Ingested(selected, parse)
    {
      circles := [];
      new;
      GetCirclesFromEffect(selected, parse);
    }

    /** `get_circles_from_effect`: appends every accepted node's circle, in order. */
    method GetCirclesFromEffect(selected: seq<Node>, parse: string -> Option<real>)
      modifies this
      ensures circles == old(circles) + Ingested(selected, parse)
    {
      var i := 0;
      while i < |selected|
        invariant 0 <= i <= |selected|
        invariant circles == old(circles) + Ingested(selected[..i], parse)
      {
        var node := selected[i];
        IngestedStep(selected, i, parse);
        if IsCircle(node) {
          var circle := NewCircle(node, parse);
          if circle.Some? {
            circles := circles + [circle.value];
          }
        }
        i := i + 1;
      }
      assert selected[..|selected|] == selected;
    }

    /**
     * The loop shared by `min_x` and `min_y`: the running minimum starts at
     * the first circle's coordinate and the chosen circle at None, and both
     * are replaced whenever a coordinate is <= the minimum so far.
     */
    method MinBy(a: Axis) returns (m: Circle)
      requires |circles| > 0
      ensures m == circles[LastMinIndex(circles, a)]
      ensures forall j :: 0 <= j < |circles| ==> Coord(m, a) <= Coord(circles[j], a)
    {
      var cs := circles;
      var least := Coord(cs[0], a);
      var chosen: Option<Circle> := None;
      var i := 0;
      while i < |cs|
        invariant 0 <= i <= |cs|
        invariant i == 0 ==> chosen == None && least == Coord(cs[0], a)
        invariant i > 0 ==> chosen == Some(cs[LastMinIndex(cs[..i], a)]) && least == MinCoord(cs[..i], a)
      {
        assert cs[..i + 1][..i] == cs[..i];
        var circle := cs[i];
        if Coord(circle, a) <= least {
          least := Coord(circle, a);
          chosen := Some(circle);
        }
        i := i + 1;
      }
      assert cs[..i] == cs;
      m := chosen.value;
    }

    /** `min_x`: the last circle whose x is minimal. */
    method MinX() returns (m: Circle)
      requires |circles| > 0
      ensures m == circles[LastMinIndex(circles, X)]
      ensures forall j :: 0 <= j < |circles| ==> m.x <= circles[j].x
    {
      m := MinBy(X);
    }

    /** `min_y`: the last circle whose y is minimal. */
    method MinY() returns (m: Circle)
      requires |circles| > 0
      ensures m == circles[LastMinIndex(circles, Y)]
      ensures forall j :: 0 <= j < |circles| ==> m.y <= circles[j].y
    {
      m := MinBy(Y);
    }

    /** The `total` loop of `average_center` on one axis: the offsets from `base`, summed. */
    method OffsetTotal(a: Axis, base: real) returns (total: real)
      ensures total == SumOffsets(circles, a, base)
    {
      var cs := circles;
      total := 0.0;
      for i := 0 to |cs|
        invariant total == SumOffsets(cs[..i], a, base)
      {
        assert cs[..i + 1][..i] == cs[..i];
        total := total + (Coord(cs[i], a) - base);
      }
      assert cs[..|cs|] == cs;
    }

    /** `average_center`: per axis, the summed offsets from the minimum over N - 1, plus the minimum. */
    method AverageCenter() returns (center: (real, real))
      requires |circles| >= 2
      ensures center == Center(circles)
    {
      var minx := MinX();
      var total := OffsetTotal(X, minx.x);
      var xAvg := total / (|circles| - 1) as real + minx.x;
      var miny := MinY();
      total := OffsetTotal(Y, miny.y);
      var yAvg := total / (|circles| - 1) as real + miny.y;
      center := (xAvg, yAvg);
    }

    /** `average_radius`: the distances from the centre, summed and divided by N. */
    method AverageRadius(sqrt: real -> real) returns (r: real)
      requires |circles| >= 2
      ensures r == Radius(circles, sqrt)
    {
      var center := AverageCenter();
      var cs := circles;
      var total := 0.0;
      for i := 0 to |cs|
        invariant total == SumDistances(cs[..i], center.0, center.1, sqrt)
      {
        assert cs[..i + 1][..i] == cs[..i];
        total := total + Distance(center.0, center.1, cs[i], sqrt);
      }
      assert cs[..|cs|] == cs;
      r := total / |cs| as real;
    }

    /** `average_precision_circle`: the centre followed by the precision radius. */
    method AveragePrecisionCircle(sqrt: real -> real) returns (apc: (real, real, real))
      requires |circles| >= 2
      ensures apc == PrecisionCircle(circles, sqrt)
      ensures (apc.0, apc.1) == Center(circles)
    {
      var avgxy := AverageCenter();
      var avgr := AverageRadius(sqrt);
      apc := (avgxy.0, avgxy.1, avgr);
    }
  }

  /** What `effect` adds to the drawing; styles and labels are not modelled. */
  datatype Mark =
    | CircleMark(cx: real, cy: real, r: real)
    | LineMark(x1: real, y1: real, x2: real, y2: real)
    | TextMark(x: real, y: real, shots: nat, precisionInches: real, distance: int, moa: real)

  /**
   * How `effect` ends: refused with a message before drawing anything,
   * finished with all its marks, or stopped by the division by zero in `moa`
   * (a distance of 0) after the circle and the plus were drawn.
   */
  datatype Outcome =
    | Refused(message: string)
    | Drawn(marks: seq<Mark>)
    | DivisionByZero(marks: seq<Mark>)

  const RefusalMessage: string := "select more than 2 circles"

  /** The `size` of `draw_plus` when `effect` calls it: its default. */
  const PlusSize: int := 20

  /**
   * `draw_plus`: a horizontal and a vertical line through (x, y), each
   * reaching `size / 2` to either side. The integer `size / 2` of Python 2
   * rounds down (as Dafny's `/` does for a divisor of 2), so the lines are
   * `size` long for an even size and one unit shorter for an odd one.
   */
  function Plus(x: real, y: real, size: int): (marks: seq<Mark>)
    ensures |marks| == 2
    ensures marks[0].LineMark? && marks[0].y1 == marks[0].y2 == y
    ensures marks[1].LineMark? && marks[1].x1 == marks[1].x2 == x
    ensures (marks[0].x1 + marks[0].x2) / 2.0 == x && (marks[1].y1 + marks[1].y2) / 2.0 == y
    ensures size % 2 == 0 ==> marks[0].x2 - marks[0].x1 == size as real && marks[1].y2 - marks[1].y1 == size as real
    ensures size % 2 == 1 ==>
      marks[0].x2 - marks[0].x1 == (size - 1) as real && marks[1].y2 - marks[1].y1 == (size - 1) as real
  {
    var half := (size / 2) as real;
    [LineMark(x - half, y, x + half, y), LineMark(x, y - half, x, y + half)]
  }

  /**
   * `effect`: collects the circles, refuses a group of two or fewer, and
   * otherwise draws the precision circle, a plus at its centre and the
   * summary text at (cx + 2, cy + 10). Number parsing, `math.sqrt` and the
   * host's `uutounit` are parameters.
   */
  method Effect(selected: seq<Node>, parse: string -> Option<real>, sqrt: real -> real,
                uutounit: (real, string) -> real, distance: int)
    returns (outcome: Outcome)
    ensures outcome.Refused? <==> |Ingested(selected, parse)| <= 2
    ensures outcome.Refused? ==> outcome.message == RefusalMessage
    ensures outcome.DivisionByZero? <==> |Ingested(selected, parse)| > 2 && distance == 0
    ensures !outcome.Refused? ==>
      var cs := Ingested(selected, parse);
      var apc := PrecisionCircle(cs, sqrt);
      var drawn := [CircleMark(apc.0, apc.1, apc.2)] + Plus(apc.0, apc.1, PlusSize);
      if outcome.DivisionByZero? then outcome.marks == drawn
      else
        var inches := PrecisionCircleInches(apc, uutounit);
        outcome.marks == drawn + [TextMark(apc.0 + 2.0, apc.1 + 10.0, |cs|, inches.2 * 2.0, distance, Moa(inches, distance))]
  {
    var circles := new Circles(selected, parse);
    if |circles.circles| <= 2 {
      return Refused(RefusalMessage);
    }
    var apc := circles.AveragePrecisionCircle(sqrt);
    var marks := [CircleMark(apc.0, apc.1, apc.2)];
    marks := marks + Plus(apc.0, apc.1, PlusSize);
    var inches := PrecisionCircleInches(apc, uutounit);
    if distance == 0 {
      return DivisionByZero(marks);
    }
    var moa := Moa(inches, distance);
    marks := marks + [TextMark(apc.0 + 2.0, apc.1 + 10.0, |circles.circles|, inches.2 * 2.0, distance, moa)];
    outcome := Drawn(marks);
  }
}
