/** The square spiral (`squareSpiral`): the corner position for a step index, the alternative
    position and length pair (`calcPos_alt`, `calcLength_alt`) and the turn-by-turn length loop
    (`calcLength`). A step is one corner; four steps make a turn. Python's `//` and `%` by 4 are
    Dafny's `/` and `%` on int, both rounding toward minus infinity for a positive divisor. */
module SquareSpiral {
  import opened PyNum
  import opened Geometry
  import opened Shapes
  import opened Diameters

  /** Half-width of the square on which corner `itt` lies: one pitch less per full turn. */
  function CornerRadius(itt: int, diam: real, clearance: real, traceWidth: real): real
  {
    diam / 2.0 - (itt / 4) as real * TraceSpacing(clearance, traceWidth)
  }

  /** `squareSpiral.calcPos`: the corner of step `itt`. Both coordinates have the magnitude of
      the turn's half-width; the counter-clockwise winding is the clockwise one mirrored in
      the x axis. */
  function CalcPos(itt: int, diam: real, clearance: real, traceWidth: real, ccw: bool): (p: Point)
    ensures Abs(p.x) == Abs(CornerRadius(itt, diam, clearance, traceWidth))
    ensures Abs(p.y) == Abs(CornerRadius(itt, diam, clearance, traceWidth))
  {
    var r := CornerRadius(itt, diam, clearance, traceWidth);
    if !ccw then
      (if itt % 4 == 0 then Point(r, -r)
       else if itt % 4 == 1 then Point(-r, -r)
       else if itt % 4 == 2 then Point(-r, r)
       else Point(r, r))
    else
      (if itt % 4 == 0 then Point(r, r)
       else if itt % 4 == 1 then Point(-r, r)
       else if itt % 4 == 2 then Point(-r, -r)
       else Point(r, -r))
  }

  /** The two windings of `calcPos` are mirror images in the x axis, and within one turn each
      corner is the previous one turned a quarter turn about the centre (clockwise for the
      default winding, counter-clockwise for the other). */
  lemma CalcPosWindings(itt: int, diam: real, clearance: real, traceWidth: real)
    ensures CalcPos(itt, diam, clearance, traceWidth, true)
         == Point(CalcPos(itt, diam, clearance, traceWidth, false).x, -CalcPos(itt, diam, clearance, traceWidth, false).y)
    ensures itt % 4 != 3 ==>
      var p := CalcPos(itt, diam, clearance, traceWidth, false);
      CalcPos(itt + 1, diam, clearance, traceWidth, false) == Point(p.y, -p.x)
    ensures itt % 4 != 3 ==>
      var p := CalcPos(itt, diam, clearance, traceWidth, true);
      CalcPos(itt + 1, diam, clearance, traceWidth, true) == Point(-p.y, p.x)
  {
    assert itt % 4 != 3 ==> (itt + 1) / 4 == itt / 4 && (itt + 1) % 4 == itt % 4 + 1;
  }

  // ---------------------------------------------------------------------------------------
  // calcPos_alt and calcLength_alt

  /** `n` trace pitches of width `s` laid side by side, that is n * s (negative for n < 0),
      built up one pitch at a time. */
  function Pitches(n: int, s: real): real
    decreases if n < 0 then -n else n
  {
    if n == 0 then 0.0
    else if n > 0 then Pitches(n - 1, s) + s
    else Pitches(n + 1, s) - s
  }

  lemma {:induction false} PitchesIsProduct(n: int, s: real)
    ensures Pitches(n, s) == n as real * s
    decreases if n < 0 then -n else n
  {
    if n > 0 {
      PitchesIsProduct(n - 1, s);
      assert n as real * s == (n - 1) as real * s + s;
    } else if n < 0 {
      PitchesIsProduct(n + 1, s);
      assert n as real * s == (n + 1) as real * s - s;
    }
  }

  lemma PitchesFacts(a: int, b: int, s: real)
    ensures Pitches(a, s) + Pitches(b, s) == Pitches(a + b, s)
    ensures Pitches(a + 1, s) == Pitches(a, s) + s
  {
    PitchesIsProduct(a, s);
    PitchesIsProduct(b, s);
    PitchesIsProduct(a + b, s);
    PitchesIsProduct(a + 1, s);
    assert (a + b) as real * s == a as real * s + b as real * s;
    assert (a + 1) as real * s == a as real * s + s;
  }

  /** With a non-negative pitch, more pitches never span less. */
  lemma {:induction false} PitchesMonotone(a: int, b: int, s: real)
    requires a <= b && s >= 0.0
    ensures Pitches(a, s) <= Pitches(b, s)
    decreases b - a
  {
    if a < b {
      PitchesMonotone(a, b - 1, s);
      PitchesFacts(b - 1, 0, s);
    }
  }

  /** Half-width reached by the x coordinate at step `itt` (`calcPos_alt`). */
  function AltXRadius(itt: int, diam: real, clearance: real, traceWidth: real): real
  {
    (diam - traceWidth) / 2.0 - Pitches(itt / 4, TraceSpacing(clearance, traceWidth))
  }

  /** Half-width reached by the y coordinate at step `itt`; it lags the x one by a step. */
  function AltYRadius(itt: int, diam: real, clearance: real, traceWidth: real): real
  {
    (diam - traceWidth) / 2.0 - Pitches((itt - 1) / 4, TraceSpacing(clearance, traceWidth))
  }

  /** `squareSpiral.calcPos_alt`: x is positive on steps 2 and 3 of a turn (the reverse with
      `ccw`), y is positive on steps 1 and 2. */
  function CalcPosAlt(itt: int, diam: real, clearance: real, traceWidth: real, ccw: bool): Point
  {
    var rx := AltXRadius(itt, diam, clearance, traceWidth);
    var ry := AltYRadius(itt, diam, clearance, traceWidth);
    Point(if (itt % 4 >= 2) != ccw then rx else -rx,
          if itt % 4 == 1 || itt % 4 == 2 then ry else -ry)
  }

  function RealMax(a: real, b: real): real
  {
    if a >= b then a else b
  }

  /** Number of horizontal runs among the first `itt` steps. */
  function HorLines(itt: int): int
  {
    itt / 2
  }

  /** Number of vertical runs among the first `itt` steps. */
  function VertLines(itt: int): int
  {
    (itt + 1) / 2
  }

  /** Total length of `h` horizontal runs: the first is `w` long and each further one is a
      pitch `s` shorter. */
  function WidthSeries(h: int, w: real, s: real): real
  {
    (h as real * w) - ((((h - 1) * h) as real / 2.0) * s)
  }

  /** Total length of `v` vertical runs: the first is a pitch longer than `w`, the second
      `w` long, and each further one a pitch shorter. */
  function HeightSeries(v: int, w: real, s: real): real
  {
    (v as real * w) - ((RealMax(((v - 2) * (v - 1)) as real / 2.0, 0.0) - 1.0) * s)
  }

  /** `squareSpiral.calcLength_alt`: the horizontal runs and the vertical runs summed as two
      arithmetic series, without iterating. */
  function CalcLengthAlt(itt: int, diam: real, clearance: real, traceWidth: real): real
  {
    var spacing := TraceSpacing(clearance, traceWidth);
    WidthSeries(HorLines(itt), diam - traceWidth, spacing) + HeightSeries(VertLines(itt), diam - traceWidth, spacing)
  }

  /** The length of the trace through the `calcPos_alt` corners 0, 1, ..., `itt`, as the sum of
      the |dx| + |dy| of its steps. */
  function AltPathLength(itt: nat, diam: real, clearance: real, traceWidth: real, ccw: bool): real
  {
    if itt == 0 then 0.0
    else AltPathLength(itt - 1, diam, clearance, traceWidth, ccw)
         + ManhattanLength(CalcPosAlt(itt - 1, diam, clearance, traceWidth, ccw), CalcPosAlt(itt, diam, clearance, traceWidth, ccw))
  }

  /** The length step `j` adds according to the two series: a horizontal run on even steps,
      a vertical run on odd ones. */
  function AltStepLength(j: int, diam: real, clearance: real, traceWidth: real): real
  {
    var spacing := TraceSpacing(clearance, traceWidth);
    if j % 2 == 0 then (diam - traceWidth) - Pitches(j / 2 - 1, spacing)
    else (diam - traceWidth) - Pitches((j + 1) / 2 - 2, spacing)
  }

  lemma ProductOfNeighboursNonNegative(v: int)
    ensures (v - 2) * (v - 1) >= 0
  {
    if v >= 2 {
      assert (v - 2) * (v - 1) == (v - 2) * (v - 2) + (v - 2);
    } else {
      assert (v - 2) * (v - 1) == (2 - v) * (1 - v);
    }
  }

  lemma WidthSeriesStep(h: int, w: real, s: real)
    ensures WidthSeries(h, w, s) - WidthSeries(h - 1, w, s) == w - Pitches(h - 1, s)
  {
    PitchesIsProduct(h - 1, s);
    var t1 := ((h - 1) * h) as real;
    var t0 := ((h - 2) * (h - 1)) as real;
    assert (h - 1) * h - (h - 2) * (h - 1) == 2 * (h - 1);
    assert t1 - t0 == 2.0 * (h - 1) as real;
    assert h as real * w - (h - 1) as real * w == w;
    assert (t1 / 2.0) * s - (t0 / 2.0) * s == ((t1 - t0) / 2.0) * s;
  }

  lemma HeightSeriesStep(v: int, w: real, s: real)
    ensures HeightSeries(v, w, s) - HeightSeries(v - 1, w, s) == w - Pitches(v - 2, s)
  {
    PitchesIsProduct(v - 2, s);
    ProductOfNeighboursNonNegative(v);
    ProductOfNeighboursNonNegative(v - 1);
    var t1 := ((v - 2) * (v - 1)) as real;
    var t0 := ((v - 3) * (v - 2)) as real;
    assert RealMax(t1 / 2.0, 0.0) == t1 / 2.0;
    assert RealMax(t0 / 2.0, 0.0) == t0 / 2.0;
    assert (v - 2) * (v - 1) - (v - 3) * (v - 2) == 2 * (v - 2);
    assert t1 - t0 == 2.0 * (v - 2) as real;
    assert v as real * w - (v - 1) as real * w == w;
    assert (t1 / 2.0 - 1.0) * s - (t0 / 2.0 - 1.0) * s == ((t1 - t0) / 2.0) * s;
  }

  /** From step `j - 1` to step `j` the closed form grows by exactly one run. */
  lemma CalcLengthAltIncrement(j: int, diam: real, clearance: real, traceWidth: real)
    ensures CalcLengthAlt(j, diam, clearance, traceWidth)
         == CalcLengthAlt(j - 1, diam, clearance, traceWidth) + AltStepLength(j, diam, clearance, traceWidth)
  {
    var s := TraceSpacing(clearance, traceWidth);
    var w := diam - traceWidth;
    if j % 2 == 0 {
      assert HorLines(j) == HorLines(j - 1) + 1;
      assert VertLines(j) == VertLines(j - 1);
      WidthSeriesStep(HorLines(j), w, s);
    } else {
      assert VertLines(j) == VertLines(j - 1) + 1;
      assert HorLines(j) == HorLines(j - 1);
      HeightSeriesStep(VertLines(j), w, s);
    }
  }

  lemma DivByFour(q: int, r: int)
    requires 0 <= r < 4
    ensures (4 * q + r) / 4 == q && (4 * q + r) % 4 == r
  {
  }

  lemma ManhattanAlongY(a: Point, b: Point, ra: real, rb: real)
    requires a.x == b.x && ra >= 0.0 && rb >= 0.0
    requires (a.y == -ra && b.y == rb) || (a.y == ra && b.y == -rb)
    ensures ManhattanLength(a, b) == ra + rb
  {
  }

  lemma ManhattanAlongX(a: Point, b: Point, ra: real, rb: real)
    requires a.y == b.y && ra >= 0.0 && rb >= 0.0
    requires (a.x == -ra && b.x == rb) || (a.x == ra && b.x == -rb)
    ensures ManhattanLength(a, b) == ra + rb
  {
  }

  /** The corner `calcPos_alt` gives at step 4q + r: x at the half-width of turn q, y at that
      of turn q too except on the first step of a turn, where it is still at turn q - 1. */
  lemma AltPosAt(q: int, r: int, diam: real, clearance: real, traceWidth: real, ccw: bool)
    requires 0 <= r < 4
    ensures var s := TraceSpacing(clearance, traceWidth);
            var d := (diam - traceWidth) / 2.0;
            var rx := d - Pitches(q, s);
            var ry := d - Pitches(if r == 0 then q - 1 else q, s);
            CalcPosAlt(4 * q + r, diam, clearance, traceWidth, ccw)
              == Point(if (r >= 2) != ccw then rx else -rx, if r == 1 || r == 2 then ry else -ry)
  {
    DivByFour(q, r);
    if r == 0 {
      DivByFour(q - 1, 3);
      assert 4 * q + r - 1 == 4 * (q - 1) + 3;
    } else {
      DivByFour(q, r - 1);
      assert 4 * q + r - 1 == 4 * q + (r - 1);
    }
  }

  /** The run the series adds at step 4q + r. */
  lemma AltStepLengthAt(q: int, r: int, diam: real, clearance: real, traceWidth: real)
    requires 0 <= r < 4
    ensures AltStepLength(4 * q + r, diam, clearance, traceWidth)
         == (diam - traceWidth) - Pitches(if r < 2 then 2 * q - 1 else 2 * q, TraceSpacing(clearance, traceWidth))
    ensures (4 * q + r) % 2 == r % 2
  {
    var j := 4 * q + r;
    if r == 0 {
      assert j % 2 == 0 && j / 2 - 1 == 2 * q - 1;
    } else if r == 1 {
      assert j % 2 == 1 && (j + 1) / 2 - 2 == 2 * q - 1;
    } else if r == 2 {
      assert j % 2 == 0 && j / 2 - 1 == 2 * q;
    } else {
      assert j % 2 == 1 && (j + 1) / 2 - 2 == 2 * q;
    }
  }

  /** The first step of turn q runs along x from the half-width of turn q - 1 to that of
      turn q, crossing the y axis. */
  lemma AltStepTurnStart(q: int, diam: real, clearance: real, traceWidth: real, ccw: bool)
    requires TraceSpacing(clearance, traceWidth) >= 0.0
    requires (diam - traceWidth) / 2.0 - Pitches(q, TraceSpacing(clearance, traceWidth)) >= 0.0
    ensures var a := CalcPosAlt(4 * q - 1, diam, clearance, traceWidth, ccw);
            var b := CalcPosAlt(4 * q, diam, clearance, traceWidth, ccw);
            a.y == b.y &&
            ManhattanLength(a, b) == (diam - traceWidth) - Pitches(2 * q - 1, TraceSpacing(clearance, traceWidth))
  {
    var s := TraceSpacing(clearance, traceWidth);
    var d := (diam - traceWidth) / 2.0;
    PitchesFacts(q - 1, q, s);
    PitchesFacts(q - 1, 0, s);
    AltPosAt(q, 0, diam, clearance, traceWidth, ccw);
    assert 4 * q - 1 == 4 * (q - 1) + 3;
    AltPosAt(q - 1, 3, diam, clearance, traceWidth, ccw);
    ManhattanAlongX(CalcPosAlt(4 * q - 1, diam, clearance, traceWidth, ccw), CalcPosAlt(4 * q, diam, clearance, traceWidth, ccw),
                    d - Pitches(q - 1, s), d - Pitches(q, s));
  }

  /** Steps 1, 2 and 3 of turn q: the second runs along y from the half-width of turn
      q - 1 to that of turn q, the other two across twice the half-width of turn q. */
  lemma AltStepInTurn(q: int, r: int, diam: real, clearance: real, traceWidth: real, ccw: bool)
    requires 1 <= r < 4
    requires TraceSpacing(clearance, traceWidth) >= 0.0
    requires (diam - traceWidth) / 2.0 - Pitches(q, TraceSpacing(clearance, traceWidth)) >= 0.0
    ensures var a := CalcPosAlt(4 * q + r - 1, diam, clearance, traceWidth, ccw);
            var b := CalcPosAlt(4 * q + r, diam, clearance, traceWidth, ccw);
            (r % 2 == 1 ==> a.x == b.x) && (r % 2 == 0 ==> a.y == b.y) &&
            ManhattanLength(a, b)
              == (diam - traceWidth) - Pitches(if r < 2 then 2 * q - 1 else 2 * q, TraceSpacing(clearance, traceWidth))
  {
    var s := TraceSpacing(clearance, traceWidth);
    var d := (diam - traceWidth) / 2.0;
    var r1 := d - Pitches(q, s);
    var r0 := d - Pitches(q - 1, s);
    var a := CalcPosAlt(4 * q + r - 1, diam, clearance, traceWidth, ccw);
    var b := CalcPosAlt(4 * q + r, diam, clearance, traceWidth, ccw);
    var rPrev := r - 1;
    assert a == CalcPosAlt(4 * q + rPrev, diam, clearance, traceWidth, ccw);
    AltPosAt(q, r, diam, clearance, traceWidth, ccw);
    AltPosAt(q, rPrev, diam, clearance, traceWidth, ccw);
    if r == 1 {
      PitchesFacts(q - 1, q, s);
      PitchesFacts(q - 1, 0, s);
      ManhattanAlongY(a, b, r0, r1);
    } else {
      PitchesFacts(q, q, s);
      if r == 2 {
        ManhattanAlongX(a, b, r1, r1);
      } else {
        ManhattanAlongY(a, b, r1, r1);
      }
    }
  }

  /** While the radii stay non-negative, step `j` of the `calcPos_alt` trace moves along one
      axis only (y on odd steps, x on even ones), by exactly the run the series adds. */
  lemma AltStep(j: int, diam: real, clearance: real, traceWidth: real, ccw: bool)
    requires TraceSpacing(clearance, traceWidth) >= 0.0
    requires AltXRadius(j, diam, clearance, traceWidth) >= 0.0
    ensures var a := CalcPosAlt(j - 1, diam, clearance, traceWidth, ccw);
            var b := CalcPosAlt(j, diam, clearance, traceWidth, ccw);
            (j % 2 == 1 ==> a.x == b.x) && (j % 2 == 0 ==> a.y == b.y) &&
            ManhattanLength(a, b) == AltStepLength(j, diam, clearance, traceWidth)
  {
    var q, r := j / 4, j % 4;
    assert j == 4 * q + r;
    if r == 0 {
      AltStepTurnStart(q, diam, clearance, traceWidth, ccw);
    } else {
      AltStepInTurn(q, r, diam, clearance, traceWidth, ccw);
    }
    AltStepLengthAt(q, r, diam, clearance, traceWidth);
  }

  /** `calcLength_alt(k)` is the length of the trace through the `calcPos_alt` corners 0..k,
      for either winding, as long as no radius has shrunk below zero; the horizontal and
      vertical runs together are the k steps; and no steps give no length. */
  lemma {:induction false} CalcLengthAltIsPathLength(k: nat, diam: real, clearance: real, traceWidth: real, ccw: bool)
    requires TraceSpacing(clearance, traceWidth) >= 0.0
    requires AltXRadius(k, diam, clearance, traceWidth) >= 0.0
    ensures CalcLengthAlt(k, diam, clearance, traceWidth) == AltPathLength(k, diam, clearance, traceWidth, ccw)
    ensures HorLines(k) + VertLines(k) == k
    ensures CalcLengthAlt(0, diam, clearance, traceWidth) == 0.0
  {
    if k > 0 {
      PitchesMonotone((k - 1) / 4, k / 4, TraceSpacing(clearance, traceWidth));
      CalcLengthAltIsPathLength(k - 1, diam, clearance, traceWidth, ccw);
      CalcLengthAltIncrement(k, diam, clearance, traceWidth);
      AltStep(k, diam, clearance, traceWidth, ccw);
    }
  }

  /** Every step of the `calcPos_alt` trace up to corner k runs along one axis: odd steps
      are vertical and even steps horizontal, as long as no radius has shrunk below zero. */
  lemma AltStepsAxisAligned(k: nat, diam: real, clearance: real, traceWidth: real, ccw: bool)
    requires TraceSpacing(clearance, traceWidth) >= 0.0
    requires AltXRadius(k, diam, clearance, traceWidth) >= 0.0
    ensures forall j :: 1 <= j <= k ==>
      var a := CalcPosAlt(j - 1, diam, clearance, traceWidth, ccw);
      var b := CalcPosAlt(j, diam, clearance, traceWidth, ccw);
      (j % 2 == 1 ==> a.x == b.x) && (j % 2 == 0 ==> a.y == b.y)
  {
    forall j | 1 <= j <= k
      ensures var a := CalcPosAlt(j - 1, diam, clearance, traceWidth, ccw);
              var b := CalcPosAlt(j, diam, clearance, traceWidth, ccw);
              (j % 2 == 1 ==> a.x == b.x) && (j % 2 == 0 ==> a.y == b.y)
    {
      PitchesMonotone(j / 4, k / 4, TraceSpacing(clearance, traceWidth));
      AltStep(j, diam, clearance, traceWidth, ccw);
    }
  }

  // ---------------------------------------------------------------------------------------
  // calcLength: the turn-by-turn loop

  /** The perimeters 4 * (2 * r) of the first `count` turns, whose half-widths start at
      `rOuter` and shrink by `delta` per turn. */
  function PerimeterSum(count: nat, rOuter: real, delta: real): real
  {
    if count == 0 then 0.0
    else PerimeterSum(count - 1, rOuter, delta) + 4.0 * (2.0 * (rOuter - (count - 1) as real * delta))
  }

  /** One more turn adds the perimeter of the turn at half-width rOuter - count * delta. */
  lemma PerimeterSumStep(count: nat, rOuter: real, delta: real)
    ensures PerimeterSum(count + 1, rOuter, delta) == PerimeterSum(count, rOuter, delta) + 4.0 * (2.0 * (rOuter - count as real * delta))
  {
    assert (count + 1) - 1 == count;
  }

  /** Shrink per turn used by `calcLength`: the outer-to-inner radius difference spread over
      the turns after the first, or twice the trace width for at most one turn. */
  function TurnPitch(nTurns: real, diam: real, clearance: real, traceWidth: real): real
  {
    var rOuter := diam / 2.0;
    var rInner := SimpleInnerDiam(nTurns, diam, clearance, traceWidth, Square) / 2.0;
    if nTurns > 1.0 then (rOuter - rInner) / (nTurns - 1.0) else 2.0 * traceWidth
  }

  /** What `squareSpiral.calcLength` returns for `itt` steps: the whole turns' perimeters
      plus the matching fraction of the next perimeter. */
  function SpiralLength(itt: real, diam: real, clearance: real, traceWidth: real): real
  {
    var nTurns := itt / 4.0;
    var delta := TurnPitch(nTurns, diam, clearance, traceWidth);
    var whole := PerimeterSum(RangeCount(Trunc(nTurns)), diam / 2.0, delta);
    if Frac(nTurns) > 0.0 then
      whole + 4.0 * (2.0 * (diam / 2.0 - Trunc(nTurns) as real * delta)) * Frac(nTurns)
    else whole
  }

  /** The per-turn shrink as `calcLength` computes it before summing the perimeters. */
  method Pitch(nTurns: real, diam: real, clearance: real, traceWidth: real) returns (deltaR: real)
    ensures deltaR == TurnPitch(nTurns, diam, clearance, traceWidth)
  {
    var rOuter := diam / 2.0;
    var rInner := SimpleInnerDiam(nTurns, diam, clearance, traceWidth, Square) / 2.0;
    if nTurns > 1.0 {
      deltaR := (rOuter - rInner) / (nTurns - 1.0);
    } else {
      deltaR := 2.0 * traceWidth;
    }
  }

  /** `squareSpiral.calcLength`, with its for-loop over the whole turns. */
  method CalcLength(itt: real, diam: real, clearance: real, traceWidth: real) returns (length: real)
    ensures length == SpiralLength(itt, diam, clearance, traceWidth)
  {
    var nTurns := itt / 4.0;
    var rOuter := diam / 2.0;
    var deltaR := Pitch(nTurns, diam, clearance, traceWidth);
    length := 0.0;
    var count := RangeCount(Trunc(nTurns));
    for i := 0 to count
      invariant length == PerimeterSum(i, rOuter, deltaR)
    {
      var r := rOuter - i as real * deltaR;
      PerimeterSumStep(i, rOuter, deltaR);
      length := length + 4.0 * (2.0 * r);
    }
    var f, t := Frac(nTurns), Trunc(nTurns) as real * deltaR;
    SpiralLengthParts(itt, diam, clearance, traceWidth, nTurns, deltaR, rOuter, count, f, t);
    if f > 0.0 {
      var r := rOuter - t;
      assert 4.0 * (2.0 * r) * f == 8.0 * (rOuter - t) * f;
      length := length + 4.0 * (2.0 * r) * f;
    } else {
      assert 8.0 * (rOuter - t) * f == 0.0;
    }
  }

  /** The per-turn shrink does not depend on the outer diameter. */
  lemma TurnPitchIndependentOfDiam(nTurns: real, d1: real, d2: real, clearance: real, traceWidth: real)
    ensures TurnPitch(nTurns, d1, clearance, traceWidth) == TurnPitch(nTurns, d2, clearance, traceWidth)
  {
    if nTurns > 1.0 {
      var s := TraceSpacing(clearance, traceWidth);
      assert d1 / 2.0 - SimpleInnerDiam(nTurns, d1, clearance, traceWidth, Square) / 2.0 == (nTurns - 1.0) * s + traceWidth;
      assert d2 / 2.0 - SimpleInnerDiam(nTurns, d2, clearance, traceWidth, Square) / 2.0 == (nTurns - 1.0) * s + traceWidth;
    }
  }

  /** Widening every turn by the same amount adds eight times that per turn. */
  lemma {:induction false} PerimeterSumShift(count: nat, r1: real, r2: real, delta: real)
    ensures PerimeterSum(count, r1, delta) - PerimeterSum(count, r2, delta) == 8.0 * count as real * (r1 - r2)
  {
    if count > 0 {
      var c := count - 1;
      PerimeterSumShift(c, r1, r2, delta);
      assert (r1 - c as real * delta) - (r2 - c as real * delta) == r1 - r2;
      assert 8.0 * count as real * (r1 - r2) == 8.0 * c as real * (r1 - r2) + 8.0 * (r1 - r2);
    }
  }

  /** The sum of an arithmetic series of perimeters in closed form. */
  lemma {:induction false} PerimeterSumClosedForm(count: nat, rOuter: real, delta: real)
    ensures PerimeterSum(count, rOuter, delta) == 8.0 * count as real * rOuter - 4.0 * (count * (count - 1)) as real * delta
  {
    if count > 0 {
      PerimeterSumClosedForm(count - 1, rOuter, delta);
      var c := count - 1;
      assert count * (count - 1) == c * (c - 1) + 2 * c;
      assert (count * (count - 1)) as real * delta == (c * (c - 1)) as real * delta + 2.0 * c as real * delta;
    }
  }

  /** No steps, no length; one turn is the perimeter 4 * diam of the outer square. */
  lemma SpiralLengthSmallCases(diam: real, clearance: real, traceWidth: real)
    ensures SpiralLength(0.0, diam, clearance, traceWidth) == 0.0
    ensures SpiralLength(4.0, diam, clearance, traceWidth) == 4.0 * diam
  {
    assert Trunc(1.0) == 1;
    assert Frac(1.0) == 0.0;
  }

  /** For `n` whole turns the loop total is 4n * diam less a term that depends only on the
      pitch and the trace width, not on the diameter. */
  lemma SpiralLengthWholeTurns(n: nat, diam: real, clearance: real, traceWidth: real)
    requires n >= 1
    ensures SpiralLength(4.0 * n as real, diam, clearance, traceWidth)
         == 4.0 * n as real * diam
            - (if n > 1 then 4.0 * (n * (n - 1)) as real * TraceSpacing(clearance, traceWidth) + 4.0 * n as real * traceWidth
               else 0.0)
  {
    var nTurns := (4.0 * n as real) / 4.0;
    assert nTurns == n as real;
    assert Trunc(nTurns) == n;
    assert Frac(nTurns) == 0.0;
    var delta := TurnPitch(nTurns, diam, clearance, traceWidth);
    PerimeterSumClosedForm(n, diam / 2.0, delta);
    if n > 1 {
      var s := TraceSpacing(clearance, traceWidth);
      assert diam / 2.0 - SimpleInnerDiam(nTurns, diam, clearance, traceWidth, Square) / 2.0 == (nTurns - 1.0) * s + traceWidth;
      var m := nTurns - 1.0;
      assert delta == ((nTurns - 1.0) * s + traceWidth) / m;
      assert m * delta == m * s + traceWidth;
      assert (n * (n - 1)) as real == n as real * m;
      assert 4.0 * (n * (n - 1)) as real * delta == 4.0 * n as real * (m * delta);
    }
  }

  /** The loop total split into the `count` whole turns and the fraction `f` of a turn,
      the latter written so that it also covers a zero fraction; `nTurns` is `itt / 4`,
      `delta` the pitch the loop uses, `rOuter` the outer half-width and `t` how far the partial turn lies
      inside it. */
  lemma SpiralLengthParts(itt: real, diam: real, clearance: real, traceWidth: real,
                          nTurns: real, delta: real, rOuter: real, count: nat, f: real, t: real)
    requires nTurns == itt / 4.0 && delta == TurnPitch(nTurns, diam, clearance, traceWidth) && rOuter == diam / 2.0
    requires count == RangeCount(Trunc(nTurns)) && f == Frac(nTurns) && t == Trunc(nTurns) as real * delta
    ensures SpiralLength(itt, diam, clearance, traceWidth) == PerimeterSum(count, rOuter, delta) + 8.0 * (rOuter - t) * f
  {
    var r := rOuter - t;
    assert 4.0 * (2.0 * r) * f == 8.0 * r * f;
    if f <= 0.0 {
      assert f == 0.0;
      assert 8.0 * r * f == 0.0;
    }
  }

  /** For any non-negative step count, changing the diameter changes the length by `itt`
      times the change: the pitch does not depend on the diameter, so every perimeter
      shifts by the same amount. */
  lemma SpiralLengthDiamShift(itt: real, d1: real, d2: real, clearance: real, traceWidth: real)
    requires itt >= 0.0
    ensures SpiralLength(itt, d1, clearance, traceWidth) - SpiralLength(itt, d2, clearance, traceWidth) == itt * (d1 - d2)
  {
    var nTurns := itt / 4.0;
    var delta := TurnPitch(nTurns, d1, clearance, traceWidth);
    var count := RangeCount(Trunc(nTurns));
    var f := Frac(nTurns);
    var t := Trunc(nTurns) as real * delta;
    var r1, r2 := d1 / 2.0, d2 / 2.0;
    var whole1, whole2 := PerimeterSum(count, r1, delta), PerimeterSum(count, r2, delta);
    assert count as real + f == nTurns by {
      assert count == Trunc(nTurns) == nTurns.Floor;
    }
    assert whole1 - whole2 == 8.0 * count as real * (r1 - r2) by {
      PerimeterSumShift(count, r1, r2, delta);
    }
    assert SpiralLength(itt, d1, clearance, traceWidth) == whole1 + 8.0 * (r1 - t) * f by {
      SpiralLengthParts(itt, d1, clearance, traceWidth, nTurns, delta, r1, count, f, t);
    }
    assert SpiralLength(itt, d2, clearance, traceWidth) == whole2 + 8.0 * (r2 - t) * f by {
      TurnPitchIndependentOfDiam(nTurns, d1, d2, clearance, traceWidth);
      SpiralLengthParts(itt, d2, clearance, traceWidth, nTurns, delta, r2, count, f, t);
    }
    DiamShiftArithmetic(itt, d1, d2, r1, r2, count, f, t, whole1, whole2,
                        SpiralLength(itt, d1, clearance, traceWidth), SpiralLength(itt, d2, clearance, traceWidth));
  }

  /** The arithmetic behind SpiralLengthDiamShift: two lengths made of `count` whole turns and
      a fraction `f` of a turn, whose half-widths r1 and r2 differ by the same amount in
      every turn. */
  lemma DiamShiftArithmetic(itt: real, d1: real, d2: real, r1: real, r2: real, count: nat, f: real, t: real,
                            whole1: real, whole2: real, length1: real, length2: real)
    requires r1 == d1 / 2.0 && r2 == d2 / 2.0 && count as real + f == itt / 4.0
    requires whole1 - whole2 == 8.0 * count as real * (r1 - r2)
    requires length1 == whole1 + 8.0 * (r1 - t) * f
    requires length2 == whole2 + 8.0 * (r2 - t) * f
    ensures length1 - length2 == itt * (d1 - d2)
  {
    var x, c := r1 - r2, count as real;
    assert 8.0 * (r1 - t) * f - 8.0 * (r2 - t) * f == 8.0 * x * f;
    assert 8.0 * c * x + 8.0 * x * f == 8.0 * (c + f) * x;
  }

  /** With at least some steps, a larger diameter gives a strictly longer trace; the
      frequency solver's up/down rule relies on this. */
  lemma SpiralLengthIncreasing(itt: real, d1: real, d2: real, clearance: real, traceWidth: real)
    requires itt > 0.0 && d1 < d2
    ensures SpiralLength(itt, d1, clearance, traceWidth) < SpiralLength(itt, d2, clearance, traceWidth)
  {
    SpiralLengthDiamShift(itt, d2, d1, clearance, traceWidth);
    assert itt * (d2 - d1) > 0.0;
  }
}
