/** The electrical helpers of the coil engine: trace length per shape, resistance, layer
    spacing and the single- and multi-layer inductance estimates. Lengths are taken in
    millimetres and converted to metres with `distUnitMult` where the source does so. */
module Electrical {
  import opened Shapes
  import opened Diameters
  import opened SquareSpiral

  /** `distUnitMult`: millimetres to metres. */
  const DistUnitMult: real := 1.0 / 1000.0

  /** numpy's double-precision pi, as an exact decimal. */
  const Pi: real := 3.141592653589793

  /** `magneticConstant`: mu_0 = 4 * pi * 10^-7 newtons per ampere squared. */
  const MagneticConstant: real := 4.0 * Pi / 10000000.0

  /** `RhoCopper`: resistivity of copper in ohm metres. */
  const RhoCopper: real := 1.72 / 100000000.0

  /** The two coupling constants of `calcInductanceMultilayer`: D0 per layer pair, D1 per
      millimetre of separation between the two layers of a pair. */
  const CouplingD0: real := 1.025485443
  const CouplingD1: real := -0.201166582

  /** Length of `turns` turns of a curved (non-square) outline: the circle's and the
      N-gon's `calcLength`, which are built from sin, cos and pi and are supplied by the
      caller. Arguments: shape, turns, diam, clearance, traceWidth. */
  type CurvedLength = (Shape, int, real, real, real) -> real

  /** The natural logarithm and the real power `x ** y` that the monomial and current-sheet
      formulas use; supplied by the caller. */
  datatype Transcendentals = Transcendentals(ln: real -> real, pow: (real, real) -> real)

  /** `shape.calcLength(shape.stepsPerTurn * turns, ...)`: the square's loop-based length
      for 4 * turns steps, the caller's curved length for the other outlines. */
  function ShapeLength(shape: Shape, turns: int, diam: real, clearance: real, traceWidth: real, curved: CurvedLength): (len: real)
    ensures shape == Square ==> len == SpiralLength(4.0 * turns as real, diam, clearance, traceWidth)
    ensures shape != Square ==> len == curved(shape, turns, diam, clearance, traceWidth)
  {
    if shape == Square then SpiralLength((4 * turns) as real, diam, clearance, traceWidth)
    else curved(shape, turns, diam, clearance, traceWidth)
  }

  // ---------------------------------------------------------------------------------------
  // Resistance and layer spacing

  /** `calcCoilTraceResistance`: resistance per square times the number of squares along
      the trace. Both lengths are converted to metres, so the conversion cancels. */
  function CoilTraceResistance(turns: int, diam: real, clearance: real, traceWidth: real, resistConst: real,
                               shape: Shape, curved: CurvedLength): (ohms: real)
    requires traceWidth != 0.0
    ensures ohms * traceWidth == resistConst * ShapeLength(shape, turns, diam, clearance, traceWidth, curved)
  {
    var coilLength := ShapeLength(shape, turns, diam, clearance, traceWidth, curved) * DistUnitMult;
    resistConst * (coilLength / (traceWidth * DistUnitMult))
  }

  /** `calcTotalResistance`: the layers are in series, each with one copy of the trace. */
  function TotalResistance(turns: int, diam: real, clearance: real, traceWidth: real, layers: int, resistConst: real,
                           shape: Shape, curved: CurvedLength): (ohms: real)
    requires traceWidth != 0.0
    ensures ohms * traceWidth == layers as real * resistConst * ShapeLength(shape, turns, diam, clearance, traceWidth, curved)
  {
    CoilTraceResistance(turns, diam, clearance, traceWidth, resistConst, shape, curved) * layers as real
  }

  /** A trace that is not negative in length, with a positive width and resistance per
      square, gives a resistance that is not negative for any number of layers from zero. */
  lemma TotalResistanceNonNegative(turns: int, diam: real, clearance: real, traceWidth: real, layers: int, resistConst: real,
                                   shape: Shape, curved: CurvedLength)
    requires traceWidth > 0.0 && resistConst >= 0.0 && layers >= 0
    requires ShapeLength(shape, turns, diam, clearance, traceWidth, curved) >= 0.0
    ensures TotalResistance(turns, diam, clearance, traceWidth, layers, resistConst, shape, curved) >= 0.0
  {
    var len := ShapeLength(shape, turns, diam, clearance, traceWidth, curved);
    var ohms := TotalResistance(turns, diam, clearance, traceWidth, layers, resistConst, shape, curved);
    assert layers as real * resistConst * len >= 0.0;
    QuotientSign(ohms, layers as real * resistConst * len, traceWidth);
  }

  /** q * d == n with d > 0: q has the sign of n, and lies in (0, 1) when 0 < n < d. */
  lemma QuotientSign(q: real, n: real, d: real)
    requires d > 0.0 && q * d == n
    ensures n >= 0.0 ==> q >= 0.0
    ensures n > 0.0 ==> q > 0.0
    ensures 0.0 < n < d ==> 0.0 < q < 1.0
  {
    if q < 0.0 {
      assert q * d < 0.0;
    } else if q == 0.0 {
      assert q * d == 0.0;
    }
    if q >= 1.0 {
      assert (q - 1.0) * d >= 0.0;
    }
  }

  /** `calcLayerSpacing`: the copper layers sit evenly across the board, from one face to
      the other; with one layer (or none) there is no spacing. */
  function LayerSpacing(layers: int, pcbThickness: real, copperThickness: real): (gap: real)
    ensures layers <= 1 ==> gap == 0.0
    ensures layers > 1 ==> gap * (layers - 1) as real == pcbThickness - copperThickness
  {
    if layers <= 1 then 0.0 else (pcbThickness - copperThickness) / (layers - 1) as real
  }

  // ---------------------------------------------------------------------------------------
  // Single-layer inductance

  /** The diameter sum the fill factor divides by; a zero sum raises in the source. */
  function TrueDiamSum(turns: int, diam: real, clearance: real, traceWidth: real, shape: Shape): real
  {
    TrueDiam(diam, clearance, traceWidth, shape) + TrueInnerDiam(turns as real, diam, clearance, traceWidth, shape)
  }

  /** The fill factor (outer - inner) / (outer + inner) of the true diameters, computed in
      metres as the source does; the conversion cancels. */
  function FillFactor(turns: int, diam: real, clearance: real, traceWidth: real, shape: Shape): (ff: real)
    requires TrueDiamSum(turns, diam, clearance, traceWidth, shape) != 0.0
    ensures ff * TrueDiamSum(turns, diam, clearance, traceWidth, shape)
         == TrueDiam(diam, clearance, traceWidth, shape) - TrueInnerDiam(turns as real, diam, clearance, traceWidth, shape)
  {
    var trueInnerDiamM := TrueInnerDiam(turns as real, diam, clearance, traceWidth, shape) * DistUnitMult;
    var trueDiamM := TrueDiam(diam, clearance, traceWidth, shape) * DistUnitMult;
    (trueDiamM - trueInnerDiamM) / (trueDiamM + trueInnerDiamM)
  }

  /** The average of the true diameters, in metres. */
  function AverageDiamM(turns: int, diam: real, clearance: real, traceWidth: real, shape: Shape): (avg: real)
    ensures 2000.0 * avg == TrueDiamSum(turns, diam, clearance, traceWidth, shape)
  {
    var trueInnerDiamM := TrueInnerDiam(turns as real, diam, clearance, traceWidth, shape) * DistUnitMult;
    var trueDiamM := TrueDiam(diam, clearance, traceWidth, shape) * DistUnitMult;
    (trueDiamM + trueInnerDiamM) / 2.0
  }

  /** With at least one turn, a positive trace width, no negative clearance and a positive
      inner diameter, the fill factor lies strictly between 0 and 1. */
  lemma FillFactorInUnitInterval(turns: int, diam: real, clearance: real, traceWidth: real, shape: Shape)
    requires turns >= 1 && traceWidth > 0.0 && clearance >= 0.0
    requires TrueInnerDiam(turns as real, diam, clearance, traceWidth, shape) > 0.0
    ensures TrueDiamSum(turns, diam, clearance, traceWidth, shape) > 0.0
    ensures 0.0 < FillFactor(turns, diam, clearance, traceWidth, shape) < 1.0
  {
    var s := TraceSpacing(clearance, traceWidth);
    var outer := TrueDiam(diam, clearance, traceWidth, shape);
    var inner := TrueInnerDiam(turns as real, diam, clearance, traceWidth, shape);
    TrueDiameters(turns as real, diam, clearance, traceWidth, shape);
    assert (turns - 1) as real * s >= 0.0;
    if shape == Square {
      assert outer - inner == 2.0 * ((turns - 1) as real * s) + 2.0 * traceWidth;
    } else {
      assert outer - inner == 2.0 * ((turns - 1) as real * s) + s + 2.0 * traceWidth;
    }
    assert outer > inner;
    var ff := FillFactor(turns, diam, clearance, traceWidth, shape);
    QuotientSign(ff, outer - inner, outer + inner);
  }

  /** No division by zero on the way through the chosen formula: the true diameters must
      not cancel, Wheeler's denominator must not vanish and the current-sheet formula must
      not divide by a zero fill factor. */
  predicate InductanceDefined(turns: int, diam: real, clearance: real, traceWidth: real, shape: Shape, formula: string)
  {
    formula in Coefficients(shape) ==>
      TrueDiamSum(turns, diam, clearance, traceWidth, shape) != 0.0 &&
      (formula == "wheeler" ==>
        1.0 + Coefficients(shape)[formula][1] * FillFactor(turns, diam, clearance, traceWidth, shape) != 0.0) &&
      (formula == "cur_sheet" ==> FillFactor(turns, diam, clearance, traceWidth, shape) != 0.0)
  }

  /** Wheeler's modified formula k1 * mu0 * n^2 * d_avg / (1 + k2 * fill). */
  function Wheeler(k: seq<real>, turns: int, avg: real, ff: real): real
    requires |k| == 2 && 1.0 + k[1] * ff != 0.0
  {
    k[0] * MagneticConstant * (turns * turns) as real * avg / (1.0 + k[1] * ff)
  }

  /** `calcInductanceSingleLayer`: -1.0 when the shape has no coefficients for the formula,
      otherwise the Wheeler, monomial or current-sheet estimate in henries. */
  function InductanceSingleLayer(turns: int, diam: real, clearance: real, traceWidth: real, shape: Shape,
                                 formula: string, math: Transcendentals): (henries: real)
    requires InductanceDefined(turns, diam, clearance, traceWidth, shape, formula)
    ensures formula !in Coefficients(shape) ==> henries == -1.0
    ensures formula == "wheeler" ==>
      henries == Wheeler(Coefficients(shape)["wheeler"], turns,
                         AverageDiamM(turns, diam, clearance, traceWidth, shape), FillFactor(turns, diam, clearance, traceWidth, shape))
  {
    if formula !in Coefficients(shape) then -1.0
    else
      var trueDiamM := TrueDiam(diam, clearance, traceWidth, shape) * DistUnitMult;
      var fillFactor := FillFactor(turns, diam, clearance, traceWidth, shape);
      var averageDiamM := AverageDiamM(turns, diam, clearance, traceWidth, shape);
      var coeff := Coefficients(shape)[formula];
      if formula == "wheeler" then
        Wheeler(coeff, turns, averageDiamM, fillFactor)
      else if formula == "monomial" then
        var outputMult := 1.0 / 1000000.0;
        outputMult * coeff[0] * math.pow(trueDiamM, coeff[1]) * math.pow(traceWidth * DistUnitMult, coeff[2])
          * math.pow(averageDiamM, coeff[3]) * math.pow(turns as real, coeff[4]) * math.pow(clearance, coeff[5])
      else if formula == "cur_sheet" then
        (coeff[0] * MagneticConstant * (turns * turns) as real * averageDiamM
          * (math.ln(coeff[1] / fillFactor) + (coeff[2] * fillFactor) + (coeff[3] * (fillFactor * fillFactor)))) / 2.0
      else -1.0
  }

  /** The Wheeler estimate is a genuine (positive) inductance, never the -1.0 sentinel, for
      every outline, whenever the coil has turns and its fill factor lies in (0, 1). */
  lemma WheelerPositive(turns: int, diam: real, clearance: real, traceWidth: real, shape: Shape, math: Transcendentals)
    requires turns != 0 && TrueDiamSum(turns, diam, clearance, traceWidth, shape) > 0.0
    requires 0.0 < FillFactor(turns, diam, clearance, traceWidth, shape) < 1.0
    ensures InductanceDefined(turns, diam, clearance, traceWidth, shape, "wheeler")
    ensures InductanceSingleLayer(turns, diam, clearance, traceWidth, shape, "wheeler", math) > 0.0
  {
    var k := Coefficients(shape)["wheeler"];
    var ff := FillFactor(turns, diam, clearance, traceWidth, shape);
    var avg := AverageDiamM(turns, diam, clearance, traceWidth, shape);
    assert k[0] > 0.0 && k[1] > 0.0;
    assert 1.0 + k[1] * ff > 0.0;
    WheelerSign(k, turns, avg, ff);
  }

  /** Helper: with positive coefficients, turns, mean diameter and denominator, the Wheeler
      quotient is positive. */
  lemma WheelerSign(k: seq<real>, turns: int, avg: real, ff: real)
    requires |k| == 2 && k[0] > 0.0 && 1.0 + k[1] * ff > 0.0
    requires turns != 0 && avg > 0.0
    ensures Wheeler(k, turns, avg, ff) > 0.0
  {
    assert turns * turns > 0;
    var top := k[0] * MagneticConstant * (turns * turns) as real * avg;
    assert k[0] * MagneticConstant > 0.0;
    assert (k[0] * MagneticConstant) * (turns * turns) as real > 0.0;
    assert top > 0.0;
    var den := 1.0 + k[1] * ff;
    assert (top / den) * den == top;
    QuotientSign(top / den, top, den);
  }

  /** The circle has no monomial coefficients, so asking for that formula yields -1.0. */
  lemma CircleMonomialIsSentinel(turns: int, diam: real, clearance: real, traceWidth: real, math: Transcendentals)
    ensures InductanceDefined(turns, diam, clearance, traceWidth, Circle, "monomial")
    ensures InductanceSingleLayer(turns, diam, clearance, traceWidth, Circle, "monomial", math) == -1.0
  {
  }

  // ---------------------------------------------------------------------------------------
  // Multi-layer inductance

  /** `sumOfCouplingFactors`: D1 times the summed separations of all layer pairs plus D0
      per pair, written in closed form as the source does. */
  function CouplingSum(layers: int, layerSpacing: real): real
  {
    var sumOfSpacings := layerSpacing * ((layers * (layers + 1) * (layers - 1)) as real / 6.0);
    var triangularNumber := (layers * (layers - 1)) as real / 2.0;
    (CouplingD1 * sumOfSpacings) + (triangularNumber * CouplingD0)
  }

  /** Reference definition: the coupling between layer `j` and each of the layers 0..i-1
      above it, each pair contributing D0 plus D1 times its separation. */
  function CouplingToLayersAbove(j: nat, i: nat, layerSpacing: real): real
  {
    if i == 0 then 0.0
    else CouplingToLayersAbove(j, i - 1, layerSpacing) + (CouplingD0 + CouplingD1 * (((j - (i - 1)) as real) * layerSpacing))
  }

  /** Reference definition: the coupling summed over every pair of the first `layers`
      layers. */
  function PairCoupling(layers: nat, layerSpacing: real): real
  {
    if layers == 0 then 0.0
    else PairCoupling(layers - 1, layerSpacing) + CouplingToLayersAbove(layers - 1, layers - 1, layerSpacing)
  }

  lemma {:induction false} CouplingToLayersAboveClosedForm(j: nat, i: nat, layerSpacing: real)
    requires i <= j
    ensures 2.0 * CouplingToLayersAbove(j, i, layerSpacing)
         == 2.0 * i as real * CouplingD0 + CouplingD1 * layerSpacing * (i * (2 * j - i + 1)) as real
  {
    if i > 0 {
      CouplingToLayersAboveClosedForm(j, i - 1, layerSpacing);
      var a := (i - 1) * (2 * j - (i - 1) + 1);
      assert i * (2 * j - i + 1) == a + 2 * (j - (i - 1));
      assert CouplingD1 * layerSpacing * (i * (2 * j - i + 1)) as real
          == CouplingD1 * layerSpacing * a as real + 2.0 * (CouplingD1 * (((j - (i - 1)) as real) * layerSpacing));
    }
  }

  /** The closed form the source uses is the sum over all layer pairs: n(n-1)/2 pairs, whose
      separations add up to (n+1) n (n-1) / 6 layer spacings. */
  lemma {:induction false} CouplingSumIsPairSum(layers: nat, layerSpacing: real)
    ensures CouplingSum(layers, layerSpacing) == PairCoupling(layers, layerSpacing)
  {
    if layers > 0 {
      var n := layers - 1;
      CouplingSumIsPairSum(n, layerSpacing);
      CouplingToLayersAboveClosedForm(n, n, layerSpacing);
      assert n * (2 * n - n + 1) == n * (n + 1);
      assert layers * (layers + 1) * (layers - 1) == n * (n + 1) * (n - 1) + 3 * (n * (n + 1));
      assert layers * (layers - 1) == n * (n - 1) + 2 * n;
      var cubic := (n * (n + 1) * (n - 1)) as real;
      var sq := (n * (n + 1)) as real;
      assert (cubic + 3.0 * sq) / 6.0 == cubic / 6.0 + sq / 2.0;
      assert ((n * (n - 1)) as real + 2.0 * n as real) / 2.0 == (n * (n - 1)) as real / 2.0 + n as real;
      assert layerSpacing * (cubic / 6.0 + sq / 2.0) == layerSpacing * (cubic / 6.0) + layerSpacing * (sq / 2.0);
      assert CouplingD1 * (layerSpacing * (sq / 2.0)) == (CouplingD1 * layerSpacing * sq) / 2.0;
    }
  }

  /** `calcInductanceMultilayer`: a negative single-layer value (the -1.0 sentinel)
      propagates as -1.0; otherwise the single-layer value times the layer count plus twice
      the pairwise coupling. */
  function InductanceMultilayer(turns: int, diam: real, clearance: real, traceWidth: real, layers: int, layerSpacing: real,
                                shape: Shape, formula: string, math: Transcendentals): (henries: real)
    requires InductanceDefined(turns, diam, clearance, traceWidth, shape, formula)
    ensures InductanceSingleLayer(turns, diam, clearance, traceWidth, shape, formula, math) < 0.0 ==> henries == -1.0
    ensures formula !in Coefficients(shape) ==> henries == -1.0
    ensures layers >= 0 && InductanceSingleLayer(turns, diam, clearance, traceWidth, shape, formula, math) >= 0.0 ==>
      henries == InductanceSingleLayer(turns, diam, clearance, traceWidth, shape, formula, math)
                 * (layers as real + 2.0 * PairCoupling(layers, layerSpacing))
  {
    var singleInduct := InductanceSingleLayer(turns, diam, clearance, traceWidth, shape, formula, math);
    if singleInduct < 0.0 then -1.0
    else
      var totalInduct := singleInduct * (layers as real + 2.0 * CouplingSum(layers, layerSpacing));
      if layers >= 0 then CouplingSumIsPairSum(layers, layerSpacing); totalInduct
      else totalInduct
  }

  /** With a single layer there is no pair to couple, so the multi-layer estimate is the
      single-layer one (a negative single-layer value still becomes -1.0). */
  lemma MultilayerOfOneLayer(turns: int, diam: real, clearance: real, traceWidth: real, layerSpacing: real,
                             shape: Shape, formula: string, math: Transcendentals)
    requires InductanceDefined(turns, diam, clearance, traceWidth, shape, formula)
    ensures var single := InductanceSingleLayer(turns, diam, clearance, traceWidth, shape, formula, math);
            InductanceMultilayer(turns, diam, clearance, traceWidth, 1, layerSpacing, shape, formula, math)
              == (if single < 0.0 then -1.0 else single)
  {
    assert PairCoupling(1, layerSpacing) == 0.0;
  }

  /** Two layers a distance g apart: twice the single-layer value plus twice one pair's
      coupling D0 + D1 * g. */
  lemma MultilayerOfTwoLayers(turns: int, diam: real, clearance: real, traceWidth: real, layerSpacing: real,
                              shape: Shape, formula: string, math: Transcendentals)
    requires InductanceDefined(turns, diam, clearance, traceWidth, shape, formula)
    requires InductanceSingleLayer(turns, diam, clearance, traceWidth, shape, formula, math) >= 0.0
    ensures InductanceMultilayer(turns, diam, clearance, traceWidth, 2, layerSpacing, shape, formula, math)
         == InductanceSingleLayer(turns, diam, clearance, traceWidth, shape, formula, math)
            * (2.0 + 2.0 * (CouplingD0 + CouplingD1 * layerSpacing))
  {
    assert PairCoupling(1, layerSpacing) == 0.0;
    assert CouplingToLayersAbove(1, 0, layerSpacing) == 0.0;
    assert CouplingToLayersAbove(1, 1, layerSpacing) == CouplingD0 + CouplingD1 * ((1 as real) * layerSpacing);
    assert PairCoupling(2, layerSpacing) == CouplingD0 + CouplingD1 * layerSpacing;
  }
}
