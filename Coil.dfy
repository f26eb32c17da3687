/** `coilClass`: one coil's parameters as mutable fields, the quantities derived from them,
    the rendering of its trace as line segments, the search for the diameter that gives a
    wanted resonant frequency, the square loop antenna beside it, its file name and the
    point normalisation the exporters use. */
module Coil {
  import opened Wrappers
  import opened PyNum
  import opened Geometry
  import opened Shapes
  import opened Diameters
  import opened SquareSpiral
  import opened Electrical

  /** The corner function a coil renders with: the shape's own `calcPos` (the default), or
      `squareSpiral.calcPos_alt`, which the control panel installs for its alternative
      square mode. */
  datatype PosRule = ShapePos | SquarePosAlt

  /** The length function stored with the coil. It is kept but never read: the trace length
      is always taken from the shape's own `calcLength`. */
  datatype LengthRule = ShapeLengthRule | SquareLengthAlt

  // ---------------------------------------------------------------------------------------
  // The default discrete render: square turns

  /** The four corners of one turn of half-width `r`, going round clockwise (`flipped`
      false) or counter-clockwise; the last corner steps in to the next turn's half-width. */
  function SquareTurn(r: real, spacing: real, flipped: bool): (pts: seq<Point>)
    ensures |pts| == 4
  {
    var nextR := r - spacing;
    if !flipped then [Point(-r, -r), Point(-r, r), Point(r, r), Point(r, -nextR)]
    else [Point(r, r), Point(-r, r), Point(-r, -r), Point(nextR, -r)]
  }

  /** The four corners turn `i` adds: the turn at half-width rOuter - i * spacing. */
  function TurnCorners(i: nat, rOuter: real, spacing: real, flipped: bool): (pts: seq<Point>)
    ensures |pts| == 4
  {
    SquareTurn(rOuter - i as real * spacing, spacing, flipped)
  }

  /** Inside a turn every step is horizontal or vertical. */
  lemma TurnCornersAxisAligned(i: nat, rOuter: real, spacing: real, flipped: bool)
    ensures StepsAxisAligned(TurnCorners(i, rOuter, spacing, flipped))
  {
    var turn := TurnCorners(i, rOuter, spacing, flipped);
    assert AxisAligned(Segment(turn[0], turn[1]));
    assert AxisAligned(Segment(turn[1], turn[2]));
    assert AxisAligned(Segment(turn[2], turn[3]));
  }

  /** The point list of the square-coil branch after `n` turns: the start corner
      (rOuter, -rOuter) and four corners per turn. The last point sits on the line y = -r
      (clockwise) or x = r (counter-clockwise), r being the next turn's half-width. */
  function SquarePoints(n: nat, rOuter: real, spacing: real, flipped: bool): (pts: seq<Point>)
    ensures |pts| == 1 + 4 * n
    ensures pts[0] == Point(rOuter, -rOuter)
  {
    if n == 0 then [Point(rOuter, -rOuter)]
    else SquarePoints(n - 1, rOuter, spacing, flipped) + TurnCorners(n - 1, rOuter, spacing, flipped)
  }

  /** The last point of the first `n` turns lies on the line y = -r (clockwise) or x = r
      (counter-clockwise), r being the half-width of turn n, where the next turn starts. */
  lemma SquarePointsLast(n: nat, rOuter: real, spacing: real, flipped: bool)
    ensures !flipped ==> SquarePoints(n, rOuter, spacing, flipped)[4 * n].y == -(rOuter - n as real * spacing)
    ensures flipped ==> SquarePoints(n, rOuter, spacing, flipped)[4 * n].x == rOuter - n as real * spacing
  {
    if n > 0 {
      var turn := TurnCorners(n - 1, rOuter, spacing, flipped);
      assert SquarePoints(n, rOuter, spacing, flipped)[4 * n] == turn[3];
      assert (n - 1) as real * spacing + spacing == n as real * spacing;
    }
  }

  /** Consecutive points joined by horizontal or vertical pieces only. */
  predicate StepsAxisAligned(pts: seq<Point>)
  {
    forall i :: 0 <= i < |pts| - 1 ==> AxisAligned(Segment(pts[i], pts[i + 1]))
  }

  /** Two such point lists joined by one more such piece form one. */
  lemma AppendAxisAligned(a: seq<Point>, b: seq<Point>)
    requires |a| >= 1 && |b| >= 1
    requires StepsAxisAligned(a) && StepsAxisAligned(b)
    requires AxisAligned(Segment(a[|a| - 1], b[0]))
    ensures StepsAxisAligned(a + b)
  {
    var pts := a + b;
    forall i | 0 <= i < |pts| - 1
      ensures AxisAligned(Segment(pts[i], pts[i + 1]))
    {
      if i < |a| - 1 {
        assert pts[i] == a[i] && pts[i + 1] == a[i + 1];
      } else if i == |a| - 1 {
        assert pts[i] == a[|a| - 1] && pts[i + 1] == b[0];
      } else {
        var k := i - |a|;
        assert pts[i] == b[k] && pts[i + 1] == b[k + 1];
      }
    }
  }

  /** The step from the end of the first `i` turns into turn `i` is horizontal or vertical. */
  lemma TurnEntryAxisAligned(i: nat, rOuter: real, spacing: real, flipped: bool)
    ensures AxisAligned(Segment(SquarePoints(i, rOuter, spacing, flipped)[4 * i], TurnCorners(i, rOuter, spacing, flipped)[0]))
  {
    SquarePointsLast(i, rOuter, spacing, flipped);
  }

  /** Every piece of the square-coil trace is horizontal or vertical, in either winding. */
  lemma {:induction false} SquarePointsAxisAligned(n: nat, rOuter: real, spacing: real, flipped: bool)
    ensures StepsAxisAligned(SquarePoints(n, rOuter, spacing, flipped))
  {
    if n > 0 {
      var i := n - 1;
      SquarePointsAxisAligned(i, rOuter, spacing, flipped);
      TurnCornersAxisAligned(i, rOuter, spacing, flipped);
      TurnEntryAxisAligned(i, rOuter, spacing, flipped);
      AppendAxisAligned(SquarePoints(i, rOuter, spacing, flipped), TurnCorners(i, rOuter, spacing, flipped));
    }
  }

  /** The counter-clockwise trace is the clockwise one mirrored in the line y = -x. */
  lemma {:induction false} SquareWindingsReflect(n: nat, rOuter: real, spacing: real)
    ensures SquarePoints(n, rOuter, spacing, true) == ReflectAll(SquarePoints(n, rOuter, spacing, false))
  {
    if n > 0 {
      SquareWindingsReflect(n - 1, rOuter, spacing);
      var cw := SquarePoints(n, rOuter, spacing, false);
      var ccw := SquarePoints(n, rOuter, spacing, true);
      var turnCw := TurnCorners(n - 1, rOuter, spacing, false);
      var turnCcw := TurnCorners(n - 1, rOuter, spacing, true);
      assert forall k :: 0 <= k < 4 ==> turnCcw[k] == Reflect(turnCw[k]);
      assert ReflectAll(cw) == ReflectAll(SquarePoints(n - 1, rOuter, spacing, false)) + ReflectAll(turnCw);
    }
  }

  /** The corners the square branch of `render_as_coordinate_list` visits for a coil of
      `turns` turns and outer diameter `diam`: `int(turns)` turns from the outer half-width
      diam / 2, one trace spacing apart. */
  function CoilSquarePoints(turns: int, diam: real, clearance: real, traceWidth: real, flipped: bool): seq<Point>
  {
    SquarePoints(RangeCount(turns), diam / 2.0, TraceSpacing(clearance, traceWidth), flipped)
  }

  /** The point-building loop of the square-coil branch: the start corner, then four
      corners per turn, each turn one pitch further in. */
  method SquareCoilPoints(nTurns: nat, rOuter: real, spacing: real, flipped: bool) returns (points: seq<Point>)
    ensures points == SquarePoints(nTurns, rOuter, spacing, flipped)
  {
    points := [Point(rOuter, -rOuter)];
    for i := 0 to nTurns
      invariant points == SquarePoints(i, rOuter, spacing, flipped)
    {
      var r := rOuter - i as real * spacing;
      var nextR := r - spacing;
      var turnPoints;
      if !flipped {
        turnPoints := [Point(-r, -r), Point(-r, r), Point(r, r), Point(r, -nextR)];
        assert turnPoints[0] == TurnCorners(i, rOuter, spacing, flipped)[0];
      } else {
        turnPoints := [Point(r, r), Point(-r, r), Point(-r, -r), Point(nextR, -r)];
      }
      assert turnPoints == TurnCorners(i, rOuter, spacing, flipped);
      points := points + turnPoints;
    }
  }

  // ---------------------------------------------------------------------------------------
  // The length of the drawn square trace

  /** The length of the square-coil trace of `n` turns as drawn: each turn's perimeter 8 r,
      less one pitch. The first turn starts on its own corner and stops one pitch short of
      it; every later turn starts one pitch outside its first corner and stops one pitch
      short of its last, which cancels. */
  function RenderedSquareLength(n: nat, rOuter: real, spacing: real): real
  {
    if n == 0 then 0.0 else PerimeterSum(n, rOuter, spacing) - spacing
  }

  /** What turn `i` adds to the drawn trace: its perimeter 8 r_i, less one pitch for the
      first turn. */
  function TurnRun(i: nat, rOuter: real, spacing: real): real
  {
    8.0 * (rOuter - i as real * spacing) - (if i == 0 then spacing else 0.0)
  }

  /** Each further turn adds its run to the drawn length. */
  lemma RenderedSquareLengthStep(i: nat, rOuter: real, spacing: real)
    ensures RenderedSquareLength(i + 1, rOuter, spacing)
         == RenderedSquareLength(i, rOuter, spacing) + TurnRun(i, rOuter, spacing)
  {
    PerimeterSumStep(i, rOuter, spacing);
  }

  /** The drawn length of `n >= 1` turns of a coil of diameter `diam` in closed form. */
  lemma RenderedSquareLengthClosedForm(n: nat, diam: real, spacing: real)
    requires n >= 1
    ensures RenderedSquareLength(n, diam / 2.0, spacing)
         == 4.0 * n as real * diam - 4.0 * (n * (n - 1)) as real * spacing - spacing
  {
    var k := n as real;
    var shrink := 4.0 * (n * (n - 1)) as real * spacing;
    PerimeterSumClosedForm(n, diam / 2.0, spacing);
    assert PerimeterSum(n, diam / 2.0, spacing) == 8.0 * k * (diam / 2.0) - shrink;
    assert 8.0 * k * (diam / 2.0) == 4.0 * k * diam;
  }

  /** A spiral whose innermost turn fits also fits with one turn fewer. */
  lemma FewerTurnsFit(i: nat, rOuter: real, spacing: real)
    requires 0.0 <= spacing && (i + 1) as real * spacing <= rOuter
    ensures i as real * spacing <= rOuter
  {
    assert (i + 1) as real * spacing == i as real * spacing + spacing;
  }

  /** Inside a turn of half-width r >= spacing the trace runs 2r, 2r and 2r - spacing. */
  lemma SquareTurnLength(r: real, spacing: real, flipped: bool)
    requires 0.0 <= spacing <= r
    ensures PathLength(Segments(SquareTurn(r, spacing, flipped))) == 6.0 * r - spacing
  {
    var turn := SquareTurn(r, spacing, flipped);
    FourPointPathLength(turn[0], turn[1], turn[2], turn[3]);
    assert turn == [turn[0], turn[1], turn[2], turn[3]];
    assert ManhattanLength(turn[0], turn[1]) == 2.0 * r;
    assert ManhattanLength(turn[1], turn[2]) == 2.0 * r;
    assert ManhattanLength(turn[2], turn[3]) == 2.0 * r - spacing;
  }

  /** The run into a turn of half-width r: 2r from the start corner (r, -r), and 2r plus
      one pitch from the last corner of the turn outside it. */
  lemma SquareTurnEntry(r: real, spacing: real, flipped: bool)
    requires 0.0 <= spacing <= r
    ensures ManhattanLength(Point(r, -r), SquareTurn(r, spacing, flipped)[0]) == 2.0 * r
    ensures ManhattanLength(SquareTurn(r + spacing, spacing, flipped)[3], SquareTurn(r, spacing, flipped)[0])
         == 2.0 * r + spacing
  {
  }

  /** The pieces of turn `i`, from the corner where the trace stood before it: 8 r_i, less
      one pitch for the first turn. */
  lemma TurnLength(i: nat, rOuter: real, spacing: real, flipped: bool)
    requires 0.0 <= spacing && (i + 1) as real * spacing <= rOuter
    ensures var from := if i == 0 then Point(rOuter, -rOuter) else TurnCorners(i - 1, rOuter, spacing, flipped)[3];
            var turn := TurnCorners(i, rOuter, spacing, flipped);
            ManhattanLength(from, turn[0]) + PathLength(Segments(turn)) == TurnRun(i, rOuter, spacing)
  {
    var r := rOuter - i as real * spacing;
    assert (i + 1) as real * spacing == i as real * spacing + spacing;
    SquareTurnLength(r, spacing, flipped);
    SquareTurnEntry(r, spacing, flipped);
    if i > 0 {
      assert rOuter - (i - 1) as real * spacing == r + spacing;
    }
  }

  /** The drawn square trace of `n` turns, in either winding, measures
      RenderedSquareLength, as long as the innermost turn keeps a positive half-width. */
  lemma {:induction false} SquarePathLength(n: nat, rOuter: real, spacing: real, flipped: bool)
    requires 0.0 <= spacing && n as real * spacing <= rOuter
    ensures PathLength(Segments(SquarePoints(n, rOuter, spacing, flipped))) == RenderedSquareLength(n, rOuter, spacing)
  {
    if n > 0 {
      var i := n - 1;
      FewerTurnsFit(i, rOuter, spacing);
      SquarePathLength(i, rOuter, spacing, flipped);
      var prev := SquarePoints(i, rOuter, spacing, flipped);
      var turn := TurnCorners(i, rOuter, spacing, flipped);
      TurnLength(i, rOuter, spacing, flipped);
      var from := prev[|prev| - 1];
      if i > 0 {
        assert from == TurnCorners(i - 1, rOuter, spacing, flipped)[3];
      }
      var join := [Segment(from, turn[0])];
      assert SquarePoints(n, rOuter, spacing, flipped) == prev + turn;
      SegmentsAppend(prev, turn);
      PathLengthAppend(Segments(prev) + join, Segments(turn));
      PathLengthAppend(Segments(prev), join);
      assert PathLength(join) == ManhattanLength(from, turn[0]) by {
        assert join[..0] == [];
      }
      assert PathLength(Segments(prev + turn))
          == PathLength(Segments(prev)) + ManhattanLength(from, turn[0]) + PathLength(Segments(turn));
      RenderedSquareLengthStep(i, rOuter, spacing);
    }
  }

  /** By how much the drawn square trace of `n >= 1` turns exceeds `calcLength`: one pitch
      less for a single turn, 4 n trace widths less one pitch for more. */
  function SquareLengthGap(n: nat, clearance: real, traceWidth: real): real
  {
    (if n > 1 then 4.0 * n as real * traceWidth else 0.0) - TraceSpacing(clearance, traceWidth)
  }

  /** `calcLength`, which the trace length and resistance are taken from, does not give
      the drawn length of a square coil: they differ by SquareLengthGap. */
  lemma RenderedVersusCalcLength(n: nat, diam: real, clearance: real, traceWidth: real)
    requires n >= 1
    ensures RenderedSquareLength(n, diam / 2.0, TraceSpacing(clearance, traceWidth))
         == SpiralLength(4.0 * n as real, diam, clearance, traceWidth) + SquareLengthGap(n, clearance, traceWidth)
  {
    var s := TraceSpacing(clearance, traceWidth);
    RenderedSquareLengthClosedForm(n, diam, s);
    SpiralLengthWholeTurns(n, diam, clearance, traceWidth);
    if n == 1 {
      assert (n * (n - 1)) as real * s == 0.0;
    }
  }

  /** The same comparison against the trace the square branch actually draws. */
  lemma SquareRenderVersusCalcLength(n: nat, diam: real, clearance: real, traceWidth: real, flipped: bool)
    requires n >= 1
    requires 0.0 <= TraceSpacing(clearance, traceWidth)
    requires n as real * TraceSpacing(clearance, traceWidth) <= diam / 2.0
    ensures PathLength(Segments(SquarePoints(n, diam / 2.0, TraceSpacing(clearance, traceWidth), flipped)))
         == SpiralLength(4.0 * n as real, diam, clearance, traceWidth) + SquareLengthGap(n, clearance, traceWidth)
  {
    var s := TraceSpacing(clearance, traceWidth);
    calc {
      PathLength(Segments(SquarePoints(n, diam / 2.0, s, flipped)));
      { SquarePathLength(n, diam / 2.0, s, flipped); }
      RenderedSquareLength(n, diam / 2.0, s);
      { RenderedVersusCalcLength(n, diam, clearance, traceWidth); }
      SpiralLength(4.0 * n as real, diam, clearance, traceWidth) + SquareLengthGap(n, clearance, traceWidth);
    }
  }

  /** One turn of a 10 mm coil with 0.5 mm clearance and 0.5 mm trace width: `calcLength`
      gives 40 mm, the drawn trace is 39 mm long. */
  lemma OneTurnRenderIsShorter()
    ensures SpiralLength(4.0, 10.0, 0.5, 0.5) == 40.0
    ensures PathLength(Segments(SquarePoints(1, 5.0, TraceSpacing(0.5, 0.5), false))) == 39.0
  {
    SpiralLengthSmallCases(10.0, 0.5, 0.5);
    SquareRenderVersusCalcLength(1, 10.0, 0.5, 0.5, false);
  }

  /** How many corners the alternative square render draws: `range(stepsPerTurn * turns + 1)`. */
  function AltCornerCount(shape: Shape, turns: int): nat
    requires IsDiscrete(shape)
  {
    RangeCount(StepsPerTurn(shape) * turns + 1)
  }

  /** The corners `calcPos_alt` gives for steps 0 .. count - 1. */
  function AltPoints(count: nat, diam: real, clearance: real, traceWidth: real, ccw: bool): (pts: seq<Point>)
    ensures |pts| == count
    ensures forall i :: 0 <= i < count ==> pts[i] == CalcPosAlt(i, diam, clearance, traceWidth, ccw)
  {
    seq(count, i requires 0 <= i < count => CalcPosAlt(i, diam, clearance, traceWidth, ccw))
  }

  /** The conversion loop "list of points to list of line segments": one segment per pair
      of neighbouring points. */
  method PairUp(points: seq<Point>) returns (segs: seq<Segment>)
    ensures segs == Segments(points)
  {
    segs := [];
    var count := RangeCount(|points| - 1);
    for i := 0 to count
      invariant |segs| == i
      invariant forall k :: 0 <= k < i ==> segs[k] == Segment(points[k], points[k + 1])
    {
      segs := segs + [Segment(points[i], points[i + 1])];
    }
  }

  // ---------------------------------------------------------------------------------------
  // Quantities of a coil, as functions of its parameters

  /** `calcCoilTraceLength` for the outer diameter `diam` (already reduced by the trace
      width): the shape's length of all turns, once per layer. */
  function CoilTraceLengthAt(shape: Shape, turns: int, diam: real, clearance: real, traceWidth: real, layers: int,
                             curved: CurvedLength): real
  {
    ShapeLength(shape, turns, diam, clearance, traceWidth, curved) * layers as real
  }

  /** The trace the default square render draws for a coil, in either winding, is
      `RenderedSquareLength` long: what the trace length of one layer of a square coil is
      evidently meant to be. `CoilTraceLengthAt` keeps the program's `calcLength`, which
      differs from it by `SquareLengthGap` per layer. */
  lemma DrawnSquareLength(turns: int, diam: real, clearance: real, traceWidth: real, flipped: bool)
    requires 0.0 <= TraceSpacing(clearance, traceWidth)
    requires RangeCount(turns) as real * TraceSpacing(clearance, traceWidth) <= diam / 2.0
    ensures PathLength(Segments(CoilSquarePoints(turns, diam, clearance, traceWidth, flipped)))
         == RenderedSquareLength(RangeCount(turns), diam / 2.0, TraceSpacing(clearance, traceWidth))
  {
    var n, r, s := RangeCount(turns), diam / 2.0, TraceSpacing(clearance, traceWidth);
    assert CoilSquarePoints(turns, diam, clearance, traceWidth, flipped) == SquarePoints(n, r, s, flipped);
    SquarePathLength(n, r, s, flipped);
  }

  /** For a square coil with turns and layers, a wider coil has a strictly longer trace;
      the diameter search steers by this. */
  lemma SquareTraceLengthIncreasing(turns: int, d1: real, d2: real, clearance: real, traceWidth: real, layers: int,
                                    curved: CurvedLength)
    requires turns >= 1 && layers >= 1 && d1 < d2
    ensures CoilTraceLengthAt(Square, turns, d1, clearance, traceWidth, layers, curved)
          < CoilTraceLengthAt(Square, turns, d2, clearance, traceWidth, layers, curved)
  {
    var itt := 4.0 * turns as real;
    SpiralLengthIncreasing(itt, d1, d2, clearance, traceWidth);
    var l1 := SpiralLength(itt, d1, clearance, traceWidth);
    var l2 := SpiralLength(itt, d2, clearance, traceWidth);
    assert (l2 - l1) * layers as real > 0.0;
  }

  const MaxIterations: nat := 10000
  const Tolerance: real := 1.0 / 1000000.0

  /** The registry's error text for a shape name it does not hold. */
  function UnknownShapeMessage(what: string, name: string): string
  {
    what + " " + name + " is not recognized. Available shapes are: ['square', 'hexagon', 'octagon', 'circle']"
  }

  class Coil {
    var turns: int
    /** The outer diameter less one trace width, as the constructor stores it. */
    var diam: real
    var clearance: real
    var traceWidth: real
    var layers: int
    var pcbThickness: real
    var copperThickness: real
    var shape: Shape
    var formula: string
    var ccw: bool
    var loopEnabled: bool
    var loopDiameter: real
    /** The registry key of the loop antenna's shape. */
    var loopShape: string
    var posRule: PosRule
    var lengthRule: LengthRule

    /** `coilClass.__init__` once both shape names have been found in the registry. */
    constructor (turns: int, diam: real, clearance: real, traceWidth: real, layers: int, pcbThickness: real,
                 copperThickness: real, shape: Shape, formula: string, ccw: bool, loopEnabled: bool,
                 loopDiameter: real, loopShape: Shape, posRule: PosRule, lengthRule: LengthRule)
      ensures this.turns == turns && this.diam == diam - traceWidth
      ensures this.clearance == clearance && this.traceWidth == traceWidth && this.layers == layers
      ensures this.pcbThickness == pcbThickness && this.copperThickness == copperThickness
      ensures this.shape == shape && this.formula == formula && this.ccw == ccw
      ensures this.loopEnabled == loopEnabled && this.loopDiameter == loopDiameter
      ensures this.loopShape == ShapeKey(loopShape)
      ensures this.posRule == posRule && this.lengthRule == lengthRule
    {
      this.turns := turns;
      this.diam := diam - traceWidth;
      this.clearance := clearance;
      this.traceWidth := traceWidth;
      this.layers := layers;
      this.pcbThickness := pcbThickness;
      this.copperThickness := copperThickness;
      this.shape := shape;
      this.formula := formula;
      this.ccw := ccw;
      this.loopEnabled := loopEnabled;
      this.loopDiameter := loopDiameter;
      this.loopShape := ShapeKey(loopShape);
      this.posRule := posRule;
      this.lengthRule := lengthRule;
    }

    /** `calcCoilTraceLength`: always the shape's own length function, whatever length rule
        the coil was given. */
    function CoilTraceLength(curved: CurvedLength): (len: real)
      reads this
      ensures len == CoilTraceLengthAt(shape, turns, diam, clearance, traceWidth, layers, curved)
      ensures shape == Square ==> len == SpiralLength(4.0 * turns as real, diam, clearance, traceWidth) * layers as real
    {
      CoilTraceLengthAt(shape, turns, diam, clearance, traceWidth, layers, curved)
    }

    /** `calcReturnTraceLength`: with an even number of layers both ends are on the outside
        and no return trace is needed. */
    function ReturnTraceLength(): (len: real)
      reads this
      ensures layers % 2 == 0 ==> len == 0.0
      ensures layers % 2 != 0 ==> len == turns as real * TraceSpacing(clearance, traceWidth)
    {
      if layers % 2 != 0 then Diameters.ReturnTraceLength(turns as real, clearance, traceWidth) else 0.0
    }

    /** `calcTotalResistance` with the copper's sheet resistance rho / thickness. */
    function TotalResistance(curved: CurvedLength): (ohms: real)
      reads this
      requires traceWidth != 0.0 && copperThickness != 0.0
      ensures ohms * traceWidth * copperThickness
           == layers as real * RhoCopper * 1000.0 * ShapeLength(shape, turns, diam, clearance, traceWidth, curved)
    {
      var resistConst := RhoCopper / (copperThickness * DistUnitMult);
      assert resistConst * copperThickness == RhoCopper * 1000.0;
      Electrical.TotalResistance(turns, diam, clearance, traceWidth, layers, resistConst, shape, curved)
    }

    function LayerSpacing(): (gap: real)
      reads this
      ensures layers <= 1 ==> gap == 0.0
      ensures layers > 1 ==> gap * (layers - 1) as real == pcbThickness - copperThickness
    {
      Electrical.LayerSpacing(layers, pcbThickness, copperThickness)
    }

    /** `calcInductance`: the single-layer estimate for one layer, the multi-layer one (with
        the board's layer spacing) otherwise; a formula the shape lacks gives -1.0 either way. */
    function Inductance(math: Transcendentals): (henries: real)
      reads this
      requires InductanceDefined(turns, diam, clearance, traceWidth, shape, formula)
      ensures layers == 1 ==> henries == InductanceSingleLayer(turns, diam, clearance, traceWidth, shape, formula, math)
      ensures layers != 1 ==>
        henries == InductanceMultilayer(turns, diam, clearance, traceWidth, layers, LayerSpacing(), shape, formula, math)
      ensures formula !in Coefficients(shape) ==> henries == -1.0
    {
      if layers == 1 then InductanceSingleLayer(turns, diam, clearance, traceWidth, shape, formula, math)
      else InductanceMultilayer(turns, diam, clearance, traceWidth, layers, LayerSpacing(), shape, formula, math)
    }

    /** `renderAsCoordinateList`. Discrete shapes with their own corner function take the
        square-coil branch (hexagons and octagons too): int(turns) square turns starting at
        (diam/2, -diam/2). With `calcPos_alt` installed, the corners of steps
        0 .. stepsPerTurn * turns. The circle is sampled at an angular resolution; those
        samples are passed in. Either winding is chosen by CCW XOR reverseDirection. */
    method RenderAsCoordinateList(reverseDirection: bool, circleSamples: seq<Point>) returns (segs: seq<Segment>)
      ensures IsDiscrete(shape) && posRule == ShapePos ==>
        segs == Segments(CoilSquarePoints(turns, diam, clearance, traceWidth, ccw != reverseDirection))
      ensures IsDiscrete(shape) && posRule == SquarePosAlt ==>
        segs == Segments(AltPoints(AltCornerCount(shape, turns), diam, clearance, traceWidth, ccw != reverseDirection))
      ensures !IsDiscrete(shape) ==> segs == Segments(circleSamples)
    {
      var flipped := ccw != reverseDirection;
      if IsDiscrete(shape) {
        if posRule == ShapePos {
          ghost var expected := CoilSquarePoints(turns, diam, clearance, traceWidth, flipped);
          var points := SquareCoilPoints(RangeCount(turns), diam / 2.0, TraceSpacing(clearance, traceWidth), flipped);
          assert points == expected;
          segs := PairUp(points);
        } else {
          var count := AltCornerCount(shape, turns);
          segs := PairUp(AltPoints(count, diam, clearance, traceWidth, flipped));
        }
      } else {
        segs := PairUp(circleSamples);
      }
    }

    /** `calculate_diameter_for_frequency`. Starting from the actual outer diameter d0, each
        pass sets the stored diameter, measures the trace and moves the guess up or down by
        a step that starts at d0 / 2 and halves every pass, for at most 10000 passes or
        until the trace is within 1e-6 mm of the required length. The frequency it reports
        is the one of the last diameter tried. The stored diameter is restored on return and
        no other field is touched. The required length (from log/exp of the target) and the
        frequency model are supplied by the caller. */
    method CalculateDiameterForFrequency(requiredTraceLength: real, frequencyOf: real -> real, curved: CurvedLength)
      returns (suggested: real, actualFrequency: real, ghost passes: nat, ghost lastTried: real, ghost converged: bool)
      modifies this`diam
      ensures diam == old(diam)
      ensures 1 <= passes <= MaxIterations
      ensures var d0 := old(diam) + traceWidth;
              (d0 != 0.0 ==> Abs(suggested - d0) < Abs(d0)) && (d0 == 0.0 ==> suggested == 0.0)
      ensures actualFrequency
           == frequencyOf(traceWidth + CoilTraceLengthAt(shape, turns, lastTried - traceWidth, clearance, traceWidth, layers, curved))
      ensures converged ==>
        suggested == lastTried &&
        Abs(traceWidth + CoilTraceLengthAt(shape, turns, lastTried - traceWidth, clearance, traceWidth, layers, curved)
            - requiredTraceLength) < Tolerance
      ensures !converged ==> passes == MaxIterations
      ensures Abs(traceWidth + CoilTraceLengthAt(shape, turns, old(diam), clearance, traceWidth, layers, curved)
                  - requiredTraceLength) < Tolerance ==>
        converged && passes == 1 && suggested == old(diam) + traceWidth
    {
      var originalDiameter := diam + traceWidth;
      var currentDiameter := originalDiameter;
      var stepSize := currentDiameter / 2.0;
      ghost var firstFits := Abs(traceWidth + CoilTraceLength(curved) - requiredTraceLength) < Tolerance;
      passes, lastTried, converged := 0, currentDiameter, false;
      var pass := 0;
      while pass < MaxIterations
        invariant 0 <= pass <= MaxIterations
        invariant passes == pass
        invariant old(diam) + traceWidth == originalDiameter
        invariant Abs(currentDiameter - originalDiameter) <= Abs(originalDiameter) - 2.0 * Abs(stepSize)
        invariant (stepSize == 0.0) == (originalDiameter == 0.0)
        invariant pass > 0 ==> diam == lastTried - traceWidth
        invariant pass == 0 ==> currentDiameter == originalDiameter && !converged
        invariant pass > 0 && firstFits ==> converged && pass == 1 && currentDiameter == originalDiameter
        invariant converged ==>
          (currentDiameter == lastTried &&
           Abs(traceWidth + CoilTraceLengthAt(shape, turns, lastTried - traceWidth, clearance, traceWidth, layers, curved)
               - requiredTraceLength) < Tolerance)
        decreases if converged then 0 else MaxIterations - pass
      {
        diam := currentDiameter - traceWidth;
        lastTried := currentDiameter;
        passes := pass + 1;
        var actualTraceLength := traceWidth + CoilTraceLength(curved);
        if Abs(actualTraceLength - requiredTraceLength) < Tolerance {
          converged := true;
          pass := pass + 1;
          break;
        } else if actualTraceLength < requiredTraceLength {
          currentDiameter := currentDiameter + stepSize;
        } else {
          currentDiameter := currentDiameter - stepSize;
        }
        stepSize := stepSize / 2.0;
        pass := pass + 1;
      }
      suggested := currentDiameter;
      actualFrequency := frequencyOf(traceWidth + CoilTraceLength(curved));
      diam := originalDiameter - traceWidth;
    }

    /** The `'square'` branch of `render_loop_antenna`: a square of side loop_diameter less
        one trace width, placed beside the coil, traced corner to corner and back to the
        first corner. */
    function SquareLoopAntenna(): (sides: seq<Segment>)
      reads this
      ensures |sides| == 4
      ensures forall i :: 0 <= i < 4 ==> sides[i].end == sides[(i + 1) % 4].start
      ensures forall i :: 0 <= i < 4 ==> AxisAligned(sides[i])
      ensures forall i :: 0 <= i < 4 ==>
        ManhattanLength(sides[i].start, sides[i].end) == 2.0 * Abs(loopDiameter / 2.0 - traceWidth / 2.0)
    {
      var trueOuterDiam := TrueDiam(diam, clearance, traceWidth, shape);
      var xOffset := (trueOuterDiam / 2.0) + 5.0 + (loopDiameter / 2.0);
      var yOffset := (trueOuterDiam / 2.0) - 20.0;
      var loopRadius := loopDiameter / 2.0;
      var adjustedRadius := loopRadius - (traceWidth / 2.0);
      var sideLength := adjustedRadius * 2.0;
      var halfSide := sideLength / 2.0;
      SquareLoopSides(xOffset, yOffset, halfSide);
      ClosedLoop(SquareCorners(xOffset, yOffset, halfSide))
    }

    /** `render_loop_antenna` for the shapes the constructor admits: the square branch, the
        circle branch (64 chords of a circle, supplied by the caller), and an empty list for
        the hexagon and the octagon, which it does not support. */
    function LoopAntenna(circleLoop: seq<Segment>): (sides: seq<Segment>)
      reads this
      ensures loopShape == "square" ==> sides == SquareLoopAntenna()
      ensures loopShape == "circle" ==> sides == circleLoop
      ensures loopShape != "square" && loopShape != "circle" ==> sides == []
    {
      if loopShape == "circle" then circleLoop
      else if loopShape == "square" then SquareLoopAntenna()
      else []
    }

    /** `generateCoilFilename`: the shape tag, then one decimal field per parameter, the
        layer count and board thickness only for a multi-layer coil, and finally the total
        resistance in milliohms and the inductance in microhenries. Each field is
        `int()` of its value. */
    method Filename(curved: CurvedLength, math: Transcendentals) returns (name: string)
      requires traceWidth != 0.0 && copperThickness != 0.0
      requires InductanceDefined(turns, diam, clearance, traceWidth, shape, formula)
      ensures name == ShapeTag(shape) + DecimalField("_di", Trunc(diam)) + DecimalField("_tu", turns)
                      + DecimalField("_wi", Trunc(traceWidth * 1000.0)) + DecimalField("_cl", Trunc(clearance * 1000.0))
                      + DecimalField("_cT", Trunc(copperThickness * 1000.0))
                      + (if layers > 1 then DecimalField("_La", layers) + DecimalField("_Pt", Trunc(pcbThickness * 1000.0))
                         else "")
                      + DecimalField("_Re", Trunc(TotalResistance(curved) * 1000.0))
                      + DecimalField("_In", Trunc(Inductance(math) * 1000000.0))
    {
      var resistance := Trunc(TotalResistance(curved) * 1000.0);
      var inductance := Trunc(Inductance(math) * 1000000.0);
      name := ShapeTag(shape);
      name := name + DecimalField("_di", Trunc(diam));
      name := name + DecimalField("_tu", turns);
      name := name + DecimalField("_wi", Trunc(traceWidth * 1000.0));
      name := name + DecimalField("_cl", Trunc(clearance * 1000.0));
      name := name + DecimalField("_cT", Trunc(copperThickness * 1000.0));
      var layerFields := "";
      if layers > 1 {
        layerFields := DecimalField("_La", layers) + DecimalField("_Pt", Trunc(pcbThickness * 1000.0));
      }
      name := name + layerFields;
      name := name + DecimalField("_Re", resistance);
      name := name + DecimalField("_In", inductance);
    }
  }

  /** The corners of an axis-aligned square of half-side `half` about (cx, cy), starting at
      the lower left and going round counter-clockwise. */
  function SquareCorners(cx: real, cy: real, half: real): (corners: seq<Point>)
    ensures |corners| == 4
  {
    [Point(cx - half, cy - half), Point(cx + half, cy - half), Point(cx + half, cy + half), Point(cx - half, cy + half)]
  }

  /** Each corner joined to the next, the last one back to the first. */
  function ClosedLoop(corners: seq<Point>): (sides: seq<Segment>)
    ensures |sides| == |corners|
    ensures forall i :: 0 <= i < |corners| ==> sides[i] == Segment(corners[i], corners[(i + 1) % |corners|])
    ensures forall i :: 0 <= i < |sides| ==> sides[i].end == sides[(i + 1) % |sides|].start
  {
    seq(|corners|, i requires 0 <= i < |corners| => Segment(corners[i], corners[(i + 1) % |corners|]))
  }

  /** The four sides of the square are horizontal or vertical and each is 2 |half| long. */
  lemma SquareLoopSides(cx: real, cy: real, half: real)
    ensures var sides := ClosedLoop(SquareCorners(cx, cy, half));
            forall i :: 0 <= i < 4 ==>
              AxisAligned(sides[i]) && ManhattanLength(sides[i].start, sides[i].end) == 2.0 * Abs(half)
  {
    var c := SquareCorners(cx, cy, half);
    var sides := ClosedLoop(c);
    assert sides[0] == Segment(c[0], c[1]) && sides[1] == Segment(c[1], c[2]);
    assert sides[2] == Segment(c[2], c[3]) && sides[3] == Segment(c[3], c[0]);
  }

  /** A coil whose loop shape is registered is only ever square, circle, hexagon or octagon,
      so its loop antenna is the square, the supplied circle, or nothing. */
  lemma LoopAntennaOfHexagonIsEmpty(c: Coil, circleLoop: seq<Segment>)
    requires c.loopShape == ShapeKey(Hexagon) || c.loopShape == ShapeKey(Octagon)
    ensures c.LoopAntenna(circleLoop) == []
  {
    assert ShapeKey(Hexagon)[0] == 'h' && ShapeKey(Octagon)[0] == 'o';
    assert "square"[0] == 's' && "circle"[0] == 'c';
  }

  /** `coilClass(...)`: looks both shape names up in the registry and raises ValueError for
      the first one it does not hold (the coil shape is checked first). */
  method NewCoil(turns: int, diam: real, clearance: real, traceWidth: real, layers: int, pcbThickness: real,
                 copperThickness: real, shapeName: string, formula: string, ccw: bool, loopEnabled: bool,
                 loopDiameter: real, loopShapeName: string, posRule: PosRule, lengthRule: LengthRule)
    returns (r: Result<Coil>)
    ensures r.Success? <==> ShapeNamed(shapeName).Some? && ShapeNamed(loopShapeName).Some?
    ensures ShapeNamed(shapeName).None? ==> r == Failure(UnknownShapeMessage("Shape", shapeName))
    ensures ShapeNamed(shapeName).Some? && ShapeNamed(loopShapeName).None? ==>
      r == Failure(UnknownShapeMessage("Loop shape", loopShapeName))
    ensures r.Success? ==>
      fresh(r.value) && r.value.diam == diam - traceWidth && r.value.turns == turns &&
      r.value.shape == ShapeNamed(shapeName).value && r.value.loopShape == loopShapeName &&
      r.value.layers == layers && r.value.traceWidth == traceWidth && r.value.clearance == clearance &&
      r.value.formula == formula && r.value.ccw == ccw && r.value.posRule == posRule &&
      r.value.pcbThickness == pcbThickness && r.value.copperThickness == copperThickness &&
      r.value.loopEnabled == loopEnabled && r.value.loopDiameter == loopDiameter && r.value.lengthRule == lengthRule
  {
    var shape := ShapeNamed(shapeName);
    if shape.None? {
      return Failure(UnknownShapeMessage("Shape", shapeName));
    }
    var loopShape := ShapeNamed(loopShapeName);
    if loopShape.None? {
      return Failure(UnknownShapeMessage("Loop shape", loopShapeName));
    }
    var c := new Coil(turns, diam, clearance, traceWidth, layers, pcbThickness, copperThickness, shape.value, formula,
                      ccw, loopEnabled, loopDiameter, loopShape.value, posRule, lengthRule);
    return Success(c);
  }

  // ---------------------------------------------------------------------------------------
  // File name pieces

  /** The first two letters of the shape's class name, upper-cased. */
  function ShapeTag(s: Shape): (tag: string)
    ensures |tag| == 2
  {
    match s
    case Square => "SQ"
    case Hexagon => "HE"
    case Octagon => "OC"
    case Circle => "CI"
  }

  function DigitChar(d: nat): (c: char)
    requires d < 10
    ensures '0' <= c <= '9' && (c as int) - ('0' as int) == d
  {
    "0123456789"[d]
  }

  /** str() of a non-negative int: its decimal digits, most significant first. */
  function NatToString(n: nat): (s: string)
    ensures |s| >= 1
    ensures forall i :: 0 <= i < |s| ==> '0' <= s[i] <= '9'
    ensures |s| > 1 ==> s[0] != '0'
  {
    if n < 10 then [DigitChar(n)] else NatToString(n / 10) + [DigitChar(n % 10)]
  }

  /** str() of an int: a minus sign before the digits of a negative number. */
  function IntToString(n: int): (s: string)
    ensures |s| >= 1
  {
    if n < 0 then "-" + NatToString(-n) else NatToString(n)
  }

  /** Reading a string of decimal digits back as a number. */
  function ParseDigits(s: string): nat
    requires forall i :: 0 <= i < |s| ==> '0' <= s[i] <= '9'
  {
    if |s| == 0 then 0 else ParseDigits(s[..|s| - 1]) * 10 + ((s[|s| - 1] as int) - ('0' as int))
  }

  /** Reading a possibly signed decimal number back. */
  function ParseInt(s: string): int
    requires |s| >= 1
    requires s[0] == '-' ==> forall i :: 1 <= i < |s| ==> '0' <= s[i] <= '9'
    requires s[0] != '-' ==> forall i :: 0 <= i < |s| ==> '0' <= s[i] <= '9'
  {
    if s[0] == '-' then -(ParseDigits(s[1..]) as int) else ParseDigits(s)
  }

  lemma {:induction false} NatToStringRoundTrip(n: nat)
    ensures ParseDigits(NatToString(n)) == n
  {
    if n >= 10 {
      NatToStringRoundTrip(n / 10);
      var s := NatToString(n);
      assert s[..|s| - 1] == NatToString(n / 10);
    }
  }

  /** Every number in a file name reads back as the value written. */
  lemma IntToStringRoundTrip(n: int)
    ensures ParseInt(IntToString(n)) == n
  {
    if n < 0 {
      NatToStringRoundTrip(-n);
      assert IntToString(n)[1..] == NatToString(-n);
    } else {
      NatToStringRoundTrip(n);
    }
  }

  /** One field of a coil file name: its tag followed by the value in decimal. */
  function DecimalField(tag: string, n: int): (field: string)
    ensures |field| > |tag| && field[..|tag|] == tag
  {
    tag + IntToString(n)
  }

  /** The digits after a field's tag read back as the field's value. */
  lemma DecimalFieldRoundTrip(tag: string, n: int)
    ensures var field := DecimalField(tag, n);
            |field| > |tag| && ParseInt(field[|tag|..]) == n
  {
    var field := DecimalField(tag, n);
    assert field[|tag|..] == IntToString(n);
    IntToStringRoundTrip(n);
  }

  // ---------------------------------------------------------------------------------------
  // flatten_and_convert_to_floats

  /** The values a point may arrive as: a number, or a list or tuple of values. */
  datatype PyValue = Num(v: real) | Tuple(items: seq<PyValue>)

  /** float(): a number is kept; a list or tuple raises TypeError. */
  function ToFloat(x: PyValue): Result<real>
  {
    if x.Num? then Success(x.v) else Failure("TypeError")
  }

  /** A list or tuple of at least two entries whose first two are numbers. */
  predicate StartsWithTwoNumbers(v: PyValue)
  {
    v.Tuple? && |v.items| >= 2 && v.items[0].Num? && v.items[1].Num?
  }

  /** `flatten_and_convert_to_floats`: a pair whose first (else second) entry is itself a
      list or tuple is replaced by the first two entries of that one; the two entries are
      then converted to floats. Anything other than a pair raises ValueError, an inner list
      of fewer than two entries IndexError, and a non-number TypeError; entries beyond the
      second are ignored. */
  function FlattenPoint(point: PyValue): (r: Result<(real, real)>)
    ensures !(point.Tuple? && |point.items| == 2) ==> r.Failure?
    ensures point.Tuple? && |point.items| == 2 && point.items[0].Num? && point.items[1].Num? ==>
      r == Success((point.items[0].v, point.items[1].v))
    ensures point.Tuple? && |point.items| == 2 && point.items[0].Tuple? ==>
      (r.Success? <==> StartsWithTwoNumbers(point.items[0])) &&
      (r.Success? ==> r.value == (point.items[0].items[0].v, point.items[0].items[1].v))
    ensures point.Tuple? && |point.items| == 2 && point.items[0].Num? && point.items[1].Tuple? ==>
      (r.Success? <==> StartsWithTwoNumbers(point.items[1])) &&
      (r.Success? ==> r.value == (point.items[1].items[0].v, point.items[1].items[1].v))
  {
    if !(point.Tuple? && |point.items| == 2) then Failure("ValueError: Invalid point format")
    else
      var a := point.items[0];
      var b := point.items[1];
      var inner := if a.Tuple? then Some(a) else if b.Tuple? then Some(b) else None;
      if inner.Some? && |inner.value.items| < 2 then Failure("IndexError")
      else
        var x := if inner.Some? then inner.value.items[0] else a;
        var y := if inner.Some? then inner.value.items[1] else b;
        var fx := ToFloat(x);
        var fy := ToFloat(y);
        if fx.Failure? then Failure(fx.error)
        else if fy.Failure? then Failure(fy.error)
        else Success((fx.value, fy.value))
  }
}
