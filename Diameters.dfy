/** The shared diameter helpers: trace pitch, the inner diameter after a number of turns, the
    quarter-pitch correction that turns them into the "true" diameters of the inductance
    papers, and the length of the return trace. All lengths in millimetres. */
module Diameters {
  import opened Shapes

  /** Centre-to-centre pitch of neighbouring turns (`calcTraceSpacing`). */
  function TraceSpacing(clearance: real, traceWidth: real): (s: real)
    ensures s - traceWidth == clearance
  {
    clearance + traceWidth
  }

  /** Inner diameter after `turns` turns (`calcSimpleInnerDiam`): the square counts one turn
      fewer, because its outermost run already sits on the outer diameter. */
  function SimpleInnerDiam(turns: real, diam: real, clearance: real, traceWidth: real, shape: Shape): real
  {
    var shrinkTurns := turns - (if shape == Square then 1.0 else 0.0);
    ((diam / 2.0) - (shrinkTurns * TraceSpacing(clearance, traceWidth)) - traceWidth) * 2.0
  }

  /** Each further turn takes two pitches off the inner diameter, and a square leaves two
      pitches more room inside than any other shape with the same turn count. */
  lemma SimpleInnerDiamShrinks(turns: real, diam: real, clearance: real, traceWidth: real, shape: Shape)
    ensures SimpleInnerDiam(turns + 1.0, diam, clearance, traceWidth, shape)
         == SimpleInnerDiam(turns, diam, clearance, traceWidth, shape) - 2.0 * TraceSpacing(clearance, traceWidth)
    ensures SimpleInnerDiam(turns, diam, clearance, traceWidth, Square)
         == SimpleInnerDiam(turns, diam, clearance, traceWidth, Circle) + 2.0 * TraceSpacing(clearance, traceWidth)
    ensures SimpleInnerDiam(0.0, diam, clearance, traceWidth, Circle) == diam - 2.0 * traceWidth
  {
  }

  /** `_calcTrueDiamOffset`: zero for the square, a quarter pitch for every other shape. */
  function TrueDiamOffset(clearance: real, traceWidth: real, shape: Shape): (off: real)
    ensures shape == Square ==> off == 0.0
    ensures shape != Square ==> 4.0 * off == TraceSpacing(clearance, traceWidth)
  {
    if shape == Square then 0.0 else TraceSpacing(clearance, traceWidth) / 4.0
  }

  /** `calcTrueInnerDiam`: the simple inner diameter widened by the offset on both sides. */
  function TrueInnerDiam(turns: real, diam: real, clearance: real, traceWidth: real, shape: Shape): (d: real)
    ensures d - SimpleInnerDiam(turns, diam, clearance, traceWidth, shape) == 2.0 * TrueDiamOffset(clearance, traceWidth, shape)
  {
    SimpleInnerDiam(turns, diam, clearance, traceWidth, shape) + (TrueDiamOffset(clearance, traceWidth, shape) * 2.0)
  }

  /** `calcTrueDiam`: the outer diameter narrowed by the offset on both sides. */
  function TrueDiam(diam: real, clearance: real, traceWidth: real, shape: Shape): (d: real)
    ensures diam - d == 2.0 * TrueDiamOffset(clearance, traceWidth, shape)
  {
    diam - (TrueDiamOffset(clearance, traceWidth, shape) * 2.0)
  }

  /** For the square the true diameters are the plain ones; for the other shapes both move
      half a pitch toward each other, so their sum (and the average diameter) is unchanged. */
  lemma TrueDiameters(turns: real, diam: real, clearance: real, traceWidth: real, shape: Shape)
    ensures shape == Square ==>
      TrueDiam(diam, clearance, traceWidth, shape) == diam &&
      TrueInnerDiam(turns, diam, clearance, traceWidth, shape) == SimpleInnerDiam(turns, diam, clearance, traceWidth, shape)
    ensures shape != Square ==>
      TrueDiam(diam, clearance, traceWidth, shape) == diam - TraceSpacing(clearance, traceWidth) / 2.0 &&
      TrueInnerDiam(turns, diam, clearance, traceWidth, shape)
        == SimpleInnerDiam(turns, diam, clearance, traceWidth, shape) + TraceSpacing(clearance, traceWidth) / 2.0
    ensures TrueDiam(diam, clearance, traceWidth, shape) + TrueInnerDiam(turns, diam, clearance, traceWidth, shape)
         == diam + SimpleInnerDiam(turns, diam, clearance, traceWidth, shape)
  {
  }

  /** `calcReturnTraceLength`: the trace back across `turns` turns, one pitch per turn. */
  function ReturnTraceLength(turns: real, clearance: real, traceWidth: real): (len: real)
    ensures turns >= 0.0 && clearance + traceWidth >= 0.0 ==> len >= 0.0
  {
    turns * TraceSpacing(clearance, traceWidth)
  }
}
