/** The viewer's window-event handling: dragging the view with the middle mouse button, zooming
    with the scroll wheel and closing the window. The mouse position pygame would report is
    passed in as `mouse`. */
module ViewerUI {
  import opened Geometry
  import opened Viewport

  /** The window events the handler distinguishes. Every other event (resizes, dropped files,
      key presses) is `Other`. */
  datatype Event =
    | Quit
    | MouseButton(buttonDown: bool, button: int)
    | MouseWheel(y: int)
    | MouseMotion
    | Other

  /** The scale after a wheel step of `y`: ten percent per step, then held within
      [MinSizeScale, MaxSizeScale]. */
  function ZoomedScale(sizeScale: real, y: int): (r: real)
    ensures MinSizeScale <= r <= MaxSizeScale
    ensures MinSizeScale <= sizeScale * (1.0 + y as real / 10.0) <= MaxSizeScale ==>
      r == sizeScale * (1.0 + y as real / 10.0)
    ensures sizeScale * (1.0 + y as real / 10.0) < MinSizeScale ==> r == MinSizeScale
    ensures sizeScale * (1.0 + y as real / 10.0) > MaxSizeScale ==> r == MaxSizeScale
  {
    var scaled := sizeScale * (1.0 + y as real / 10.0);
    if scaled < MinSizeScale then MinSizeScale
    else if scaled > MaxSizeScale then MaxSizeScale
    else scaled
  }

  /** The pixel at the centre of the drawing area. */
  function Centre(v: View): Point
  {
    Point(v.drawOffset.x as real + v.drawSize.x as real / 2.0,
          v.drawOffset.y as real + v.drawSize.y as real / 2.0)
  }

  /** The view offset after the scale of `v` changes to `newScale`: shifted by half the change
      in visible extent when zooming about the centre, or by how far the real position under
      the mouse moved when zooming about the mouse. */
  function ZoomedViewOffset(v: View, newScale: real, centerZooming: bool, mouse: Pixels): Point
    requires v.sizeScale != 0.0 && newScale != 0.0
  {
    var dif :=
      if centerZooming then
        Point((v.drawSize.x as real / v.sizeScale - v.drawSize.x as real / newScale) / 2.0,
              (v.drawSize.y as real / v.sizeScale - v.drawSize.y as real / newScale) / 2.0)
      else
        var m := Point(mouse.x as real, mouse.y as real);
        var before := PixelsToRealPos(v, m);
        var after := PixelsToRealPos(v.(sizeScale := newScale), m);
        Point(before.x - after.x, before.y - after.y);
    Point(v.viewOffset.x - dif.x, v.viewOffset.y - dif.y)
  }

  /** The view after zooming `v` by `y` wheel steps. */
  function Zoomed(v: View, y: int, centerZooming: bool, mouse: Pixels): (w: View)
    requires v.sizeScale != 0.0
    ensures MinSizeScale <= w.sizeScale <= MaxSizeScale
    ensures w.drawSize == v.drawSize && w.drawOffset == v.drawOffset && w.invertYaxis == v.invertYaxis
  {
    var s := ZoomedScale(v.sizeScale, y);
    v.(sizeScale := s, viewOffset := ZoomedViewOffset(v, s, centerZooming, mouse))
  }

  /** Zooming about the mouse keeps the real position under the mouse where it was. */
  lemma {:induction false} ZoomKeepsMousePoint(v: View, y: int, mouse: Pixels)
    requires v.sizeScale != 0.0
    ensures var m := Point(mouse.x as real, mouse.y as real);
            PixelsToRealPos(Zoomed(v, y, false, mouse), m) == PixelsToRealPos(v, m)
  {
    var m := Point(mouse.x as real, mouse.y as real);
    var s := ZoomedScale(v.sizeScale, y);
    var w := Zoomed(v, y, false, mouse);
    ShiftedOffset(v.(sizeScale := s), w.viewOffset, m);
  }

  /** Zooming about the centre keeps the real position at the centre of the drawing area. */
  lemma {:induction false} ZoomKeepsCentre(v: View, y: int, mouse: Pixels)
    requires v.sizeScale != 0.0
    ensures PixelsToRealPos(Zoomed(v, y, true, mouse), Centre(v)) == PixelsToRealPos(v, Centre(v))
  {
    var s := ZoomedScale(v.sizeScale, y);
    var w := Zoomed(v, y, true, mouse);
    var c := Centre(v);
    ShiftedOffset(v.(sizeScale := s), w.viewOffset, c);
    HalfOverScale(v.drawSize.x as real, v.sizeScale);
    HalfOverScale(v.drawSize.x as real, s);
    HalfOverScale(v.drawSize.y as real, v.sizeScale);
    HalfOverScale(v.drawSize.y as real, s);
    var a := PixelsToRealPos(v, c);
    var b := PixelsToRealPos(w, c);
    assert a.x == (v.drawSize.x as real / v.sizeScale) / 2.0 - v.viewOffset.x;
    assert b.x == (v.drawSize.x as real / s) / 2.0 - w.viewOffset.x;
    assert a.y == (v.drawSize.y as real / v.sizeScale) / 2.0 - v.viewOffset.y;
    assert b.y == (v.drawSize.y as real / s) / 2.0 - w.viewOffset.y;
  }

  /** Half of an extent, in pixels, over a scale: the same as half of the extent in real
      units. */
  lemma HalfOverScale(n: real, s: real)
    requires s != 0.0
    ensures (n / 2.0) / s == (n / s) / 2.0
  {
  }

  /** Moving the view offset by a real amount moves every converted position by the opposite
      amount. */
  lemma ShiftedOffset(v: View, o: Point, p: Point)
    requires v.sizeScale != 0.0
    ensures PixelsToRealPos(v.(viewOffset := o), p).x == PixelsToRealPos(v, p).x + v.viewOffset.x - o.x
    ensures PixelsToRealPos(v.(viewOffset := o), p).y == PixelsToRealPos(v, p).y + v.viewOffset.y - o.y
  {
  }

  /** `handleMousePress`. Pressing the middle button starts a drag: it records the mouse
      position and the view offset; releasing it applies the drag one last time and ends it.
      The left and right buttons only convert the click position (the conversion divides by
      the scale) and change nothing. */
  method HandleMousePress(d: Drawer, buttonDown: bool, button: int, mouse: Pixels)
    requires (button == 1 || button == 3) ==> d.sizeScale != 0.0
    requires button == 2 && !buttonDown && d.movingViewOffset ==> d.sizeScale != 0.0
    modifies d`movingViewOffset, d`movingViewOffsetMouseStart, d`prevViewOffset, d`viewOffset
    ensures button == 2 && buttonDown ==>
      d.movingViewOffset && d.movingViewOffsetMouseStart == mouse &&
      d.prevViewOffset == old(d.viewOffset) && d.viewOffset == old(d.viewOffset)
    ensures button == 2 && !buttonDown ==>
      !d.movingViewOffset &&
      d.movingViewOffsetMouseStart == old(d.movingViewOffsetMouseStart) && d.prevViewOffset == old(d.prevViewOffset) &&
      (old(d.movingViewOffset) ==>
         d.viewOffset == DraggedViewOffset(old(d.prevViewOffset), old(d.movingViewOffsetMouseStart), mouse,
                                           d.sizeScale, d.invertYaxis)) &&
      (!old(d.movingViewOffset) ==> d.viewOffset == old(d.viewOffset))
    ensures button != 2 ==>
      d.movingViewOffset == old(d.movingViewOffset) && d.viewOffset == old(d.viewOffset) &&
      d.prevViewOffset == old(d.prevViewOffset) && d.movingViewOffsetMouseStart == old(d.movingViewOffsetMouseStart)
  {
    if button == 1 || button == 3 {
      var click := PixelsToRealPos(d.CurrentView(), Point(mouse.x as real, mouse.y as real));
    } else if button == 2 {
      if buttonDown {
        d.movingViewOffset := true;
        d.movingViewOffsetMouseStart := mouse;
        d.prevViewOffset := d.viewOffset;
      } else {
        d.UpdateViewOffset(mouse);
        d.movingViewOffset := false;
      }
    }
  }

  /** `handleWindowEvent` for the events the viewer acts on. QUIT stops the main loop. A mouse
      button goes to HandleMousePress. The wheel zooms (see Zoomed) unless a drag is under
      way, in which case nothing changes. */
  method HandleWindowEvent(d: Drawer, e: Event, mouse: Pixels)
    requires d.sizeScale != 0.0
    modifies d.windowHandler, d`movingViewOffset, d`movingViewOffsetMouseStart, d`prevViewOffset, d`viewOffset, d`sizeScale
    ensures d.sizeScale != 0.0
    ensures d.windowHandler.keepRunning == (old(d.windowHandler.keepRunning) && !e.Quit?)
    ensures e.MouseWheel? && !old(d.movingViewOffset) ==>
      d.CurrentView() == Zoomed(old(d.CurrentView()), e.y, d.centerZooming, mouse)
    ensures !e.MouseButton? ==>
      d.movingViewOffset == old(d.movingViewOffset) && d.prevViewOffset == old(d.prevViewOffset) &&
      d.movingViewOffsetMouseStart == old(d.movingViewOffsetMouseStart)
    ensures !(e.MouseWheel? && !old(d.movingViewOffset)) ==> d.sizeScale == old(d.sizeScale)
    ensures !e.MouseWheel? && !e.MouseButton? ==> d.viewOffset == old(d.viewOffset)
    ensures e.MouseWheel? && old(d.movingViewOffset) ==> d.viewOffset == old(d.viewOffset)
  {
    match e {
      case Quit =>
        d.windowHandler.keepRunning := false;
      case MouseButton(buttonDown, button) =>
        HandleMousePress(d, buttonDown, button, mouse);
      case MouseWheel(y) =>
        if !d.movingViewOffset {
          var v := d.CurrentView();
          var newScale := ZoomedScale(d.sizeScale, y);
          var dif;
          if d.centerZooming {
            dif := Point((v.drawSize.x as real / v.sizeScale - v.drawSize.x as real / newScale) / 2.0,
                         (v.drawSize.y as real / v.sizeScale - v.drawSize.y as real / newScale) / 2.0);
          } else {
            var m := Point(mouse.x as real, mouse.y as real);
            var before := PixelsToRealPos(v, m);
            var after := PixelsToRealPos(v.(sizeScale := newScale), m);
            dif := Point(before.x - after.x, before.y - after.y);
          }
          d.sizeScale := newScale;
          d.viewOffset := Point(d.viewOffset.x - dif.x, d.viewOffset.y - dif.y);
        }
      case MouseMotion =>
      case Other =>
    }
  }

  /** `handleAllWindowEvents`: handles the queued events in order, skipping mouse motion. The
      main loop stops exactly when a QUIT was among them, and the scale stays usable. */
  method HandleAllWindowEvents(d: Drawer, events: seq<Event>, mouse: Pixels)
    requires d.sizeScale != 0.0
    modifies d.windowHandler, d`movingViewOffset, d`movingViewOffsetMouseStart, d`prevViewOffset, d`viewOffset, d`sizeScale
    ensures d.sizeScale != 0.0
    ensures d.windowHandler.keepRunning == (old(d.windowHandler.keepRunning) && Quit !in events)
  {
    for i := 0 to |events|
      invariant d.sizeScale != 0.0
      invariant d.windowHandler.keepRunning == (old(d.windowHandler.keepRunning) && Quit !in events[..i])
    {
      if events[i] != MouseMotion {
        HandleWindowEvent(d, events[i], mouse);
      }
      assert events[..i + 1] == events[..i] + [events[i]];
    }
    assert events[..|events|] == events;
  }
}
