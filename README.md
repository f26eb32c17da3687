# PCB coil generator: verified model of the coil engine and the viewer transform

This project models the computational core of a planar PCB coil generator. The model covers:

- **The coil engine.** This includes:
  - the shape registry;
  - the square spiral's corner and length rules;
  - the diameter, resistance and inductance helpers;
  - the `coilClass` object: construction, trace length, inductance dispatch, rendering its trace as line segments, the halving search for the diameter that gives a wanted frequency, the square loop antenna, the file name and the point normalisation used by the exporters.
- **The viewer's view transform.** This covers the pixel ↔ millimetre conversions, the inside-window test, drag panning, window resizing, wheel zoom, and the QUIT event.

All quantities are exact reals. Python's `//` and `%` by 4 are Dafny's Euclidean `/` and `%`. Python's `int()` truncation is `PyNum.Trunc`.

A coil's `turns` is an `int`, because every construction passes an int: PCBcoilV2.py:692-703 use `int(params["Turns"])` from line 671, and svg_plotter.py:70 passes the literal 9. So the render's `int(self.turns)` is the identity, and its non-integer warning never fires.

The modules follow the program's structure:

| module | models |
|---|---|
| `PyNum` | Python's `int()`, `% 1`, `abs`, `min` and `len(range(n))` |
| `Geometry` | points and segments, and pairing neighbouring points into segments |
| `Shapes` | the `shapes` registry and each shape's coefficient tables |
| `Diameters` | spacing, inner and true diameters, return-trace length |
| `SquareSpiral` | `squareSpiral.calcPos`, `calcPos_alt`, `calcLength` (a loop), `calcLength_alt` |
| `Electrical` | trace resistance, layer spacing, single- and multi-layer inductance |
| `Coil` | the `coilClass` class and the module-level helpers used with it |
| `Viewport` | `distSqrdBetwPos`, `ASA` and the `pygameDrawer` view state (a class) |
| `ViewerUI` | `handleMousePress`, and `handleWindowEvent` and `handleAllWindowEvents` for QUIT, mouse buttons and the wheel |

The main results:

- **`calcLength_alt(k)`** equals the Manhattan length of the path through the `calcPos_alt` corners 0..k. Every step of that path moves along one axis only.
- **`calcLength`'s loop** equals a closed form, `SpiralLength`. For whole turns this is `4·n·diam` minus a term that does not depend on the diameter, so the length grows strictly with the diameter. The diameter search relies on this.
- **The default render** of every discrete shape is `int(turns)` square turns starting at `(diam/2, −diam/2)`. Its segments are connected and each is horizontal or vertical. The two windings are reflections of each other under `(x, y) ↦ (−y, −x)`. The winding is chosen by `CCW XOR reverseDirection`.
- **The fill factor** lies strictly between 0 and 1, and the Wheeler inductance is positive. A formula missing from a shape's table yields the −1.0 sentinel, in both the single- and the multi-layer estimate. The multi-layer coupling sum equals a sum over pairs of layers.
- **The diameter search** makes at most 10000 passes, restores the stored diameter, and suggests a diameter strictly within `d0` of `d0`.
- **The viewer transform:**
  - pixel → real → pixel and real → pixel → real are identities;
  - dragging keeps the grabbed point under the mouse;
  - zooming keeps the point under the mouse (or at the centre) fixed, and keeps the scale within [5, 2000];
  - after a batch of events the main loop keeps running exactly when no QUIT was among them.

## Model

| member | source | states |
|---|---|---|
| PyNum.Trunc | PCBcoilV2.py:116-123 | `int(x)`: truncation toward zero; the result is within 1 of x, on x's side of zero |
| Geometry.SegmentsChain | PCBcoilV2.py:464-467 | pairing n points gives n−1 segments (none for no points); segment i runs from point i to point i+1, and each segment ends where the next begins |
| Geometry.ReflectAll | PCBcoilV2.py:448-461 | every point is mapped by (x, y) ↦ (−y, −x), and the length is kept |
| Shapes.ShapeNamed | PCBcoilV2.py:199 | a registry lookup finds the shape whose key is the name, and fails exactly for names other than square, hexagon, octagon and circle |
| Shapes.ShapeRegistryRoundTrip | PCBcoilV2.py:199 | looking up a shape's own key finds that shape |
| Shapes.StepsPerTurn | PCBcoilV2.py:185-197 | a discrete outline takes an even number, at least 4, of steps per turn |
| Shapes.Coefficients | PCBcoilV2.py:138-143 | every table holds wheeler and cur_sheet; monomial is present exactly when the shape is not the circle; each entry has its formula's number of coefficients |
| Diameters.TraceSpacing | PCBcoilV2.py:220-221 | spacing minus trace width is the clearance |
| Diameters.SimpleInnerDiamShrinks | PCBcoilV2.py:201-203 | each extra turn shrinks the inner diameter by two spacings; the square's inner diameter is two spacings larger than another shape's; a circle of no turns gives diam − 2·traceWidth |
| Diameters.TrueDiamOffset | PCBcoilV2.py:205-209 | the offset is 0 for the square and a quarter spacing otherwise |
| Diameters.TrueInnerDiam | PCBcoilV2.py:211-212 | the true inner diameter is the simple one plus twice the offset |
| Diameters.TrueDiam | PCBcoilV2.py:214-215 | the true outer diameter is the diameter less twice the offset |
| Diameters.TrueDiameters | PCBcoilV2.py:205-215 | for the square the true diameters are the plain ones; otherwise both move by half a spacing; their sum does not depend on the offset |
| Diameters.ReturnTraceLength | PCBcoilV2.py:217-218 | the return trace is never negative for non-negative turns and spacing |
| SquareSpiral.CalcPos | PCBcoilV2.py:64-91 | at every step both coordinates have magnitude diam/2 − (step div 4)·spacing |
| SquareSpiral.CalcPosWindings | PCBcoilV2.py:64-91 | the counter-clockwise corner is the clockwise one with y negated; within a turn each step turns the corner a quarter turn about the centre, clockwise for one winding and counter-clockwise for the other |
| SquareSpiral.WidthSeriesStep | PCBcoilV2.py:131-132 | the horizontal series grows by the width of the h-th horizontal run |
| SquareSpiral.HeightSeriesStep | PCBcoilV2.py:133-134 | the vertical series grows by the height of the v-th vertical run |
| SquareSpiral.CalcLengthAltIncrement | PCBcoilV2.py:128-135 | calcLength_alt(j) − calcLength_alt(j−1) is the length of step j |
| SquareSpiral.AltStep | PCBcoilV2.py:95-101 | step j between calcPos_alt corners keeps x when j is odd and keeps y when j is even, and its Manhattan length is exactly the step length |
| SquareSpiral.CalcLengthAltIsPathLength | PCBcoilV2.py:128-135 | while the corner magnitudes stay non-negative, calcLength_alt(k) is the summed Manhattan length of the steps between corners 0..k; horLines + vertLines = k; calcLength_alt(0) = 0 |
| SquareSpiral.AltStepsAxisAligned | PCBcoilV2.py:95-101 | every step 1..k is vertical (odd j, x kept) or horizontal (even j, y kept) |
| SquareSpiral.CalcLength | PCBcoilV2.py:105-125 | the accumulating loop over whole turns plus the partial-turn term equals SpiralLength |
| SquareSpiral.TurnPitchIndependentOfDiam | PCBcoilV2.py:107-113 | the per-turn shrink of the perimeter does not depend on the diameter |
| SquareSpiral.PerimeterSumClosedForm | PCBcoilV2.py:115-118 | n whole-turn perimeters add up to 8n·r − 4n(n−1)·Δ |
| SquareSpiral.SpiralLengthSmallCases | PCBcoilV2.py:105-125 | step 0 has length 0; step 4, one turn, has length 4·diam |
| SquareSpiral.SpiralLengthWholeTurns | PCBcoilV2.py:105-125 | n ≥ 1 whole turns measure 4n·diam minus a term independent of diam |
| SquareSpiral.SpiralLengthParts | PCBcoilV2.py:115-123 | with the pitch, outer radius, whole-turn count, fractional part and whole-turn shrink named, the length is the whole-turn perimeter sum plus the fraction times the next perimeter |
| SquareSpiral.SpiralLengthDiamShift | PCBcoilV2.py:105-125 | changing the diameter by δ changes the length of itt steps by itt·δ |
| SquareSpiral.SpiralLengthIncreasing | PCBcoilV2.py:105-125 | for a positive step count, the length strictly increases with the diameter |
| Electrical.ShapeLength | PCBcoilV2.py:223-224 | the square uses its loop length for 4·turns steps; other shapes use their own curved length |
| Electrical.CoilTraceResistance | PCBcoilV2.py:223-226 | resistance × width is the resistivity constant × trace length; the mm→m factors cancel |
| Electrical.TotalResistance | PCBcoilV2.py:228-231 | total resistance × width is the layer count × the per-layer value |
| Electrical.TotalResistanceNonNegative | PCBcoilV2.py:228-231 | with a positive width, non-negative resistivity, a non-negative layer count and a non-negative length, the resistance is non-negative |
| Electrical.LayerSpacing | PCBcoilV2.py:233-236 | 0 for one layer or fewer; otherwise (layers − 1) gaps fill the board less one copper thickness |
| Electrical.FillFactor | PCBcoilV2.py:242-244 | fill factor × (outer + inner) = outer − inner |
| Electrical.AverageDiamM | PCBcoilV2.py:242-245 | the average diameter in metres is (outer + inner)/2 millimetres |
| Electrical.FillFactorInUnitInterval | PCBcoilV2.py:242-244 | with turns ≥ 1, clearance ≥ 0, a positive width and a positive true inner diameter, 0 < fill factor < 1 |
| Electrical.InductanceSingleLayer | PCBcoilV2.py:238-256 | a formula missing from the shape's table gives −1.0; wheeler gives K1·μ0·n²·d_avg/(1 + K2·ff) |
| Electrical.WheelerPositive | PCBcoilV2.py:247-248 | with turns ≠ 0, positive diameters and 0 < ff < 1, the Wheeler inductance is positive |
| Electrical.CircleMonomialIsSentinel | PCBcoilV2.py:138-143 | the circle with the monomial formula gives the −1.0 sentinel |
| Electrical.CouplingToLayersAboveClosedForm | PCBcoilV2.py:263-266 | the inner coupling sum has a closed form in the number of layers above |
| Electrical.CouplingSumIsPairSum | PCBcoilV2.py:262-266 | the nested coupling sum equals the sum over each unordered pair of layers |
| Electrical.InductanceMultilayer | PCBcoilV2.py:258-268 | a negative single-layer value (the sentinel) is passed through as −1.0; otherwise the result is the single-layer value × (layers + 2 × the sum of D0 + D1·separation over all pairs of layers) |
| Electrical.MultilayerOfOneLayer | PCBcoilV2.py:258-268 | with one layer the multilayer estimate equals the single-layer one |
| Electrical.MultilayerOfTwoLayers | PCBcoilV2.py:258-268 | with two layers the estimate is the single-layer value × (2 + 2·(D0 + D1·gap)) |
| Coil.SquarePoints | PCBcoilV2.py:433-462 | n square turns give 1 + 4n corners, starting at (r, −r) |
| Coil.SquarePointsLast | PCBcoilV2.py:445-461 | the last corner lies on the next turn's inner square (r − n·spacing) |
| Coil.SquarePointsAxisAligned | PCBcoilV2.py:444-462 | every segment between neighbouring corners is horizontal or vertical |
| Coil.TurnEntryAxisAligned | PCBcoilV2.py:445-462 | the step from the last corner so far to the next turn's first corner is horizontal or vertical |
| Coil.SquareTurnLength | PCBcoilV2.py:446-461 | the four corners of one turn span 6r − spacing: two full sides and the shortened last side |
| Coil.TurnLength | PCBcoilV2.py:444-462 | turn i, counted from the corner before it, adds 8(r − i·spacing), less one spacing on the first turn |
| Coil.SquarePathLength | PCBcoilV2.py:444-467 | the drawn trace of n square turns is exactly RenderedSquareLength long: the n perimeters less one spacing |
| Coil.RenderedSquareLengthClosedForm | PCBcoilV2.py:444-462 | n ≥ 1 drawn turns measure 4n·diam − 4n(n−1)·spacing − spacing |
| Coil.RenderedVersusCalcLength | PCBcoilV2.py:105-125 | for n ≥ 1 turns the drawn length is calcLength(4n) plus SquareLengthGap: 4n·traceWidth when n > 1, less one spacing |
| Coil.SquareRenderVersusCalcLength | PCBcoilV2.py:105-125 | the segments the render draws for n ≥ 1 turns measure calcLength(4n) plus SquareLengthGap |
| Coil.OneTurnRenderIsShorter | PCBcoilV2.py:105-125 | with diam 10, clearance 0.5 and width 0.5, calcLength gives 40 for one turn, while the drawn turn is 39 long |
| Coil.DrawnSquareLength | PCBcoilV2.py:426-467 | while the turns fit inside the outer half-width, the trace the render draws for a coil's int(turns) turns, in either winding, is RenderedSquareLength long |
| Coil.SquareWindingsReflect | PCBcoilV2.py:448-461 | the counter-clockwise corners are the clockwise ones reflected by (x, y) ↦ (−y, −x) |
| Coil.SquareCoilPoints | PCBcoilV2.py:444-462 | the corner-appending loop builds exactly SquarePoints |
| Coil.AltPoints | PCBcoilV2.py:477 | the corners are calcPos_alt of steps 0 .. count−1 |
| Coil.PairUp | PCBcoilV2.py:464-467 | the pairing loop builds exactly Segments(points) |
| Coil.SquareTraceLengthIncreasing | PCBcoilV2.py:310-311 | a square coil with turns and layers has a strictly longer trace when it is wider |
| Coil.Coil.constructor | PCBcoilV2.py:285-308 | stores diam − traceWidth and every other argument as given, and the loop shape's registry key |
| Coil.NewCoil | PCBcoilV2.py:285-308 | succeeds exactly when both names are registered; an unknown shape raises first, then an unknown loop shape, each with the registry's message |
| Coil.Coil.CoilTraceLength | PCBcoilV2.py:310-311 | the shape's own length × layers, whatever length rule is stored; for the square, SpiralLength of 4·turns steps |
| Coil.Coil.ReturnTraceLength | PCBcoilV2.py:328-329 | 0 for an even layer count, else turns × spacing |
| Coil.Coil.TotalResistance | PCBcoilV2.py:331-332 | resistance × width × copper thickness is ρ × the whole trace length |
| Coil.Coil.LayerSpacing | PCBcoilV2.py:334-335 | 0 for one layer or fewer, else the board less the copper split into layers − 1 gaps |
| Coil.Coil.Inductance | PCBcoilV2.py:340-341 | one layer uses the single-layer estimate, more layers the multilayer one; an unknown formula gives −1.0 |
| Coil.Coil.RenderAsCoordinateList | PCBcoilV2.py:426-492 | a discrete shape with the default rule gives the segments of CoilSquarePoints: int(turns) square turns of the coil's own diameter and spacing; with calcPos_alt, the segments through its corners; otherwise the segments through the circle samples; the winding is CCW XOR reverseDirection |
| Coil.Coil.CalculateDiameterForFrequency | PCBcoilV2.py:397-422 | 1 to 10000 passes; the stored diameter is restored; the suggestion is strictly within d0 of d0; the frequency is that of the last diameter tried; on convergence the suggestion is that diameter and meets the tolerance; without convergence all 10000 passes ran; when the first diameter already meets the tolerance, one pass converges and suggests d0 |
| Coil.ClosedLoop | PCBcoilV2.py:632-638 | each corner is joined to the next and the last to the first, so the sides close on themselves |
| Coil.SquareLoopSides | PCBcoilV2.py:621-639 | the four sides are horizontal or vertical and each is 2·|half side| long |
| Coil.Coil.SquareLoopAntenna | PCBcoilV2.py:621-639 | four axis-aligned sides of length loopDiameter − traceWidth (in magnitude) that close on themselves |
| Coil.Coil.LoopAntenna | PCBcoilV2.py:601-642 | square gives the square loop, circle the supplied circle, any other registered shape nothing |
| Coil.LoopAntennaOfHexagonIsEmpty | PCBcoilV2.py:640-642 | hexagon and octagon loop antennas are empty |
| Coil.Coil.Filename | PCBcoilV2.py:270-282 | the name is the two-letter shape tag, then `_di`, `_tu`, `_wi`, `_cl` and `_cT` with the truncated diameter, turns and thousandths of width, clearance and copper; `_La` and `_Pt` only for more than one layer; then `_Re` in milliohms and `_In` in microhenries, each truncated |
| Coil.DecimalField | PCBcoilV2.py:271-281 | each field starts with its tag and has digits after it |
| Coil.DecimalFieldRoundTrip | PCBcoilV2.py:271-281 | the text after a field's tag parses back to the number printed |
| Coil.NatToStringRoundTrip | PCBcoilV2.py:271-281 | a natural number printed in decimal parses back to itself |
| Coil.IntToStringRoundTrip | PCBcoilV2.py:271-281 | an integer printed in decimal, with a minus sign when negative, parses back to itself |
| Coil.FlattenPoint | PCBcoilV2.py:729-738 | anything but a pair fails; a pair of numbers is kept; a pair whose first entry is a tuple succeeds exactly when that tuple starts with two numbers, and gives them; a pair of a number and a tuple does the same with the second entry, so a shorter inner tuple or a non-number fails and entries past the second are ignored |
| Viewport.DistSqrd | pygameRenderer.py:22-24 | the squared distance is non-negative, 0 for identical points and positive for distinct ones |
| Viewport.DistSqrdSymmetric | pygameRenderer.py:22-24 | the squared distance is symmetric |
| Viewport.Asa | pygameRenderer.py:30 | the same length, with the scalar added to each entry |
| Viewport.AsaComposes | pygameRenderer.py:30 | adding a then b adds a + b; adding −a undoes adding a |
| Viewport.PixelsToRealPos | pygameRenderer.py:344-350 | (real + viewOffset) × scale is the pixel less the draw offset, with y mirrored when the axis is inverted |
| Viewport.PixelRoundTrip | pygameRenderer.py:344-357 | pixel → real → pixel is the identity for a non-zero scale, for both y-axis settings |
| Viewport.RealRoundTrip | pygameRenderer.py:344-357 | real → pixel → real is the identity for a non-zero scale, for both y-axis settings |
| Viewport.InsideWindowBounds | pygameRenderer.py:289-291 | the centre is inside exactly when the area has positive width and height; border pixels are outside |
| Viewport.InitialViewOffset | pygameRenderer.py:225 | the initial offset is 2/3 of the width and 1/2 of the height, in real units |
| Viewport.InitialViewShowsOrigin | pygameRenderer.py:225 | the initial view draws the origin 2/3 of the way across and halfway down the drawing area |
| Viewport.DraggedViewOffset | pygameRenderer.py:276-287 | the offset moves from its value at drag start by the mouse movement over the scale, with y reversed when inverted |
| Viewport.DragKeepsGrabbedPoint | pygameRenderer.py:276-287 | after the drag, the real point grabbed at the start is under the mouse |
| Viewport.AutoMatchKeepsView | pygameRenderer.py:576-577 | after an automatic rescale the visible extent covers the old one on both axes and equals it on one |
| Viewport.WindowHandler.constructor | pygameRenderer.py:142 | a new window handler keeps running |
| Viewport.Drawer.constructor | pygameRenderer.py:168-236 | sizes, scale and axis setting as given; no drag under way; the initial offset shows the origin (0 for a zero scale) |
| Viewport.Drawer.UpdateViewOffset | pygameRenderer.py:276-287 | no change unless dragging; while dragging, the dragged offset from prevViewOffset |
| Viewport.Drawer.UpdateWindowSize | pygameRenderer.py:572-580 | a positive scale is used as given; otherwise, with auto-matching, the scale is multiplied by min(newW/oldW, newH/oldH), and without it the scale is kept; sizes and offsets become the truncated arguments |
| ViewerUI.ZoomedScale | pygameUI.py:164-170 | whatever the scroll amount, the new scale lies in [5, 2000]; inside the range it is the scale × (1 + y/10), outside it is the nearer bound |
| ViewerUI.Zoomed | pygameUI.py:159-178 | the zoomed view's scale is within the bounds, and its size, offset and axis setting are unchanged |
| ViewerUI.ZoomKeepsMousePoint | pygameUI.py:171-178 | zooming about the mouse keeps the real position under the mouse |
| ViewerUI.ZoomKeepsCentre | pygameUI.py:171-178 | zooming about the centre keeps the real position at the centre of the drawing area |
| ViewerUI.HandleMousePress | pygameUI.py:76-104 | a middle press starts a drag, recording the mouse and the offset; a release applies the drag once more and ends it; other buttons change nothing |
| ViewerUI.HandleWindowEvent | pygameUI.py:107-178 | QUIT clears keepRunning; a wheel event while not dragging zooms; a wheel event while dragging changes neither scale nor offset; other events leave the drag state alone |
| ViewerUI.HandleAllWindowEvents | pygameUI.py:181-203 | after the queued events, the main loop keeps running exactly when it was running and no QUIT was among them |

## Left out

- Trigonometry, π-based geometry, `round`, `log`, `exp` and real powers have no exact counterpart. They enter the model as parameters:
  - the circle's and N-gon's `calcLength` are `Electrical.CurvedLength`;
  - the monomial and current-sheet formulas take `ln` and `pow` from `Electrical.Transcendentals`;
  - the continuous (circle) render takes its samples as `circleSamples`;
  - the circle loop antenna is `circleLoop`.
- The circle and N-gon `calcPos` and `calcLength`, and `circumDiam`, are not part of this model.
- `calcResonantFrequency` and the log/exp target of the diameter search are not modelled. The search takes the required trace length and a frequency function as inputs.
- Coil.Coil.CalculateDiameterForFrequency: the pass count, the last diameter tried and whether the search converged are ghost outputs that only serve to state the contract. The up/down rule is modelled but not proved to approach the target.
- Division by zero raises ZeroDivisionError in Python. The model instead requires these divisors to be non-zero: the trace width, the copper thickness, the view scale, the old window size when auto-matching, the fill factor's denominator, the Wheeler denominator 1 + K2·ff, and the fill factor itself for the current-sheet formula's K1/ff (all through `Electrical.InductanceDefined`).
- The monomial and current-sheet branches are not proved to have any particular value. Only the sentinel, Wheeler positivity and the multilayer reductions are proved.
- Printing: colour output, the per-segment length printing in the render, and the trace-length table.
- The 'Loop Antenna with Pads' and 'Loop Antenna with Pads 2 Layer' branches of the loop antenna. The constructor only admits registered shape names, so a coil never reaches them.
- The control panel, the main frame loop, the exporters and update_coil_params are not part of this model.
- `calcLength_alt` can be stored as the coil's length rule (`Coil.LengthRule`), but nothing reads it. The trace length always uses the shape's own `calcLength`, as the program does.
- SquareSpiral.CalcPosAlt: its magnitudes are stated by `SquareSpiral.AltPosAt` and used by `AltStep`. It carries no contract of its own.
- The viewer's window-resize events, the dropped-file event, cursor and grab calls, fonts, the grid, the FPS counter and the key-binding image. These are display I/O.
- The mouse position is one `mouse` parameter, read at the moment the event is handled. The program takes it from the event for buttons 1 and 3. It takes it from `pygame.mouse.get_pos()` for the middle press (pygameUI.py:98) and for the wheel.
- ViewerUI.HandleMousePress: buttons 1 and 3 convert the click position into a local the program never reads, so the model discards it.
- Coil.FlattenPoint: a value is a number or a list/tuple of values. `float()` of a string, which Python parses, is not modelled; every non-number entry fails as TypeError.
- Floating-point rounding: all arithmetic is on exact reals.

## Findings

| source | as written | input that shows it | evidently intended | confidence | as-written member | corrected member |
|---|---|---|---|---|---|---|
| PCBcoilV2.py:105-125 | the square's trace length, and so its resistance, comes from `calcLength`. For one turn that is 4·diam, a full perimeter. The default render (PCBcoilV2.py:444-467) draws that turn's last side one spacing short. For n > 1 turns the two differ by SquareLengthGap = 4n·traceWidth − spacing | diam 10, clearance 0.5, width 0.5, one turn: calcLength gives 40, the drawn trace is 39 long | the trace length is the length of the trace the render draws | not executed | Coil.SquareRenderVersusCalcLength, Coil.OneTurnRenderIsShorter | Coil.DrawnSquareLength, with Coil.SquarePathLength (RenderedSquareLength is the drawn length) |

The coil's trace length, resistance and diameter search keep the program's `calcLength`, as written, so that they model what the program computes. `Coil.RenderedSquareLength` is the length of the trace actually drawn, proved equal to the rendered segments' length.
