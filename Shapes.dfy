/** The coil outlines (squareSpiral, hexagonSpiral, octagonSpiral, circularSpiral), the
    module-level `shapes` registry and each outline's table of inductance-formula coefficients. */
module Shapes {
  import opened Wrappers

  datatype Shape = Square | Hexagon | Octagon | Circle

  /** The key under which the registry `shapes` stores a shape. */
  function ShapeKey(s: Shape): string
  {
    match s
    case Square => "square"
    case Hexagon => "hexagon"
    case Octagon => "octagon"
    case Circle => "circle"
  }

  /** Lookup in the registry `shapes`; None for a name it does not hold. */
  function ShapeNamed(name: string): (r: Option<Shape>)
    ensures r.Some? ==> ShapeKey(r.value) == name
    ensures r.None? ==> name !in {"square", "hexagon", "octagon", "circle"}
  {
    if name == "square" then Some(Square)
    else if name == "hexagon" then Some(Hexagon)
    else if name == "octagon" then Some(Octagon)
    else if name == "circle" then Some(Circle)
    else None
  }

  /** Every registered shape is found under its own key, so the registry is a bijection
      between the four keys and the four shapes. */
  lemma ShapeRegistryRoundTrip(s: Shape)
    ensures ShapeNamed(ShapeKey(s)) == Some(s)
  {
  }

  /** The polygonal shapes have a fixed number of corners per turn; the circle is sampled at
      an angular resolution instead. */
  predicate IsDiscrete(s: Shape)
  {
    s != Circle
  }

  /** Corners per turn of a discrete shape (`stepsPerTurn`). */
  function StepsPerTurn(s: Shape): (n: nat)
    requires IsDiscrete(s)
    ensures n >= 4 && n % 2 == 0
  {
    match s
    case Square => 4
    case Hexagon => 6
    case Octagon => 8
  }

  /** Number of coefficients each formula indexes. */
  function FormulaArity(formula: string): nat
  {
    if formula == "wheeler" then 2
    else if formula == "monomial" then 6
    else if formula == "cur_sheet" then 4
    else 0
  }

  /** The class attribute `formulaCoefficients` of each shape. The circle has no monomial
      entry; every entry names one of the three formulas and holds exactly as many
      coefficients as that formula reads. */
  function Coefficients(s: Shape): (table: map<string, seq<real>>)
    ensures "wheeler" in table && "cur_sheet" in table
    ensures "monomial" in table <==> s != Circle
    ensures forall f :: f in table ==> f in {"wheeler", "monomial", "cur_sheet"}
    ensures forall f :: f in table ==> |table[f]| == FormulaArity(f)
  {
    match s
    case Square =>
      map["wheeler" := [2.34, 2.75],
          "monomial" := [1.62, -1.21, -0.147, 2.40, 1.78, -0.030],
          "cur_sheet" := [1.27, 2.07, 0.18, 0.13]]
    case Circle =>
      map["wheeler" := [2.23, 3.45],
          "cur_sheet" := [1.00, 2.46, 0.00, 0.20]]
    case Hexagon =>
      map["wheeler" := [2.33, 3.82],
          "monomial" := [1.28, -1.24, -0.174, 2.47, 1.77, -0.049],
          "cur_sheet" := [1.09, 2.23, 0.00, 0.17]]
    case Octagon =>
      map["wheeler" := [2.25, 3.55],
          "monomial" := [1.33, -1.21, -0.163, 2.43, 1.75, -0.049],
          "cur_sheet" := [1.07, 2.29, 0.00, 0.19]]
  }
}
