/** The viewer's camera: how the drawing area of the window maps real positions (millimetres)
    to pixels and back, the inside-window test, dragging the view with the mouse and
    re-fitting the scale when the drawing area is resized. Pixel (0, 0) is the top left of the
    window; with `invertYaxis` the real y axis points up. */
module Viewport {
  import opened PyNum
  import opened Geometry

  /** A pair of whole pixels: a window size, a drawing offset or a mouse position. */
  datatype Pixels = Pixels(x: int, y: int)

  /** The part of the drawer's state the coordinate conversions read. `viewOffset` is in real
      units, `sizeScale` in pixels per millimetre. */
  datatype View = View(drawSize: Pixels, drawOffset: Pixels, viewOffset: Point, sizeScale: real,
                       invertYaxis: bool)

  /** The zoom limits the scroll wheel keeps `sizeScale` within. */
  const MinSizeScale: real := 5.0
  const MaxSizeScale: real := 2000.0

  /** A product of reals, with the sign rules the squared distance needs. */
  function Product(a: real, b: real): (r: real)
    ensures (a > 0.0 && b > 0.0) || (a < 0.0 && b < 0.0) ==> r > 0.0
    ensures (a >= 0.0 && b >= 0.0) || (a <= 0.0 && b <= 0.0) ==> r >= 0.0
    ensures a == 0.0 || b == 0.0 ==> r == 0.0
  {
    if a < 0.0 && b < 0.0 then
      assert a * b == (-a) * (-b);
      a * b
    else if a <= 0.0 && b <= 0.0 then
      assert a * b == (-a) * (-b);
      a * b
    else
      a * b
  }

  /** `x ** 2`: never negative, and zero only at zero. */
  function Squared(x: real): (r: real)
    ensures r >= 0.0
    ensures x != 0.0 ==> r > 0.0
    ensures x == 0.0 ==> r == 0.0
  {
    Product(x, x)
  }

  /** `distSqrdBetwPos`: the squared distance, for comparing against a squared threshold. It is
      zero exactly on equal points and positive otherwise. */
  function DistSqrd(a: Point, b: Point): (r: real)
    ensures r >= 0.0
    ensures a == b ==> r == 0.0
    ensures a != b ==> r > 0.0
  {
    Squared(b.x - a.x) + Squared(b.y - a.y)
  }

  /** Squared distance does not depend on the order of the two points. */
  lemma DistSqrdSymmetric(a: Point, b: Point)
    ensures DistSqrd(a, b) == DistSqrd(b, a)
  {
    assert Squared(b.x - a.x) == Squared(a.x - b.x);
    assert Squared(b.y - a.y) == Squared(a.y - b.y);
  }

  /** `ASA`: the scalar added to every entry of a list. */
  function Asa(scalar: real, entries: seq<real>): (r: seq<real>)
    ensures |r| == |entries|
    ensures forall i :: 0 <= i < |r| ==> r[i] - entries[i] == scalar
  {
    seq(|entries|, i requires 0 <= i < |entries| => scalar + entries[i])
  }

  /** Adding two scalars one after the other adds their sum, and adding a scalar is undone by
      adding its negation. */
  lemma AsaComposes(a: real, b: real, entries: seq<real>)
    ensures Asa(a, Asa(b, entries)) == Asa(a + b, entries)
    ensures Asa(-a, Asa(a, entries)) == entries
  {
  }

  /** `pixelsToRealPos`: the real position shown at a pixel. */
  function PixelsToRealPos(v: View, p: Point): (r: Point)
    requires v.sizeScale != 0.0
    ensures (r.x + v.viewOffset.x) * v.sizeScale == p.x - v.drawOffset.x as real
    ensures !v.invertYaxis ==> (r.y + v.viewOffset.y) * v.sizeScale == p.y - v.drawOffset.y as real
    ensures v.invertYaxis ==>
      (r.y + v.viewOffset.y) * v.sizeScale == v.drawSize.y as real - p.y + v.drawOffset.y as real
  {
    var s := v.sizeScale;
    if v.invertYaxis then
      Point((p.x - v.drawOffset.x as real) / s - v.viewOffset.x,
            (v.drawSize.y as real - p.y + v.drawOffset.y as real) / s - v.viewOffset.y)
    else
      Point((p.x - v.drawOffset.x as real) / s - v.viewOffset.x,
            (p.y - v.drawOffset.y as real) / s - v.viewOffset.y)
  }

  /** `realToPixelPos`: the pixel a real position is drawn at. */
  function RealToPixelPos(v: View, r: Point): (p: Point)
  {
    var s := v.sizeScale;
    if v.invertYaxis then
      Point((r.x + v.viewOffset.x) * s + v.drawOffset.x as real,
            v.drawSize.y as real - (r.y + v.viewOffset.y) * s + v.drawOffset.y as real)
    else
      Point((r.x + v.viewOffset.x) * s + v.drawOffset.x as real,
            (r.y + v.viewOffset.y) * s + v.drawOffset.y as real)
  }

  /** A pixel converted to a real position is drawn back at the same pixel. */
  lemma {:induction false} PixelRoundTrip(v: View, p: Point)
    requires v.sizeScale != 0.0
    ensures RealToPixelPos(v, PixelsToRealPos(v, p)) == p
  {
    var r := PixelsToRealPos(v, p);
    var q := RealToPixelPos(v, r);
    assert q.x == p.x;
    assert q.y == p.y;
  }

  /** A real position drawn at a pixel converts back to the same real position. */
  lemma {:induction false} RealRoundTrip(v: View, r: Point)
    requires v.sizeScale != 0.0
    ensures PixelsToRealPos(v, RealToPixelPos(v, r)) == r
  {
    var p := RealToPixelPos(v, r);
    var q := PixelsToRealPos(v, p);
    var s := v.sizeScale;
    assert (q.x + v.viewOffset.x) * s == (r.x + v.viewOffset.x) * s;
    MulCancel(q.x + v.viewOffset.x, r.x + v.viewOffset.x, s);
    assert (q.y + v.viewOffset.y) * s == (r.y + v.viewOffset.y) * s;
    MulCancel(q.y + v.viewOffset.y, r.y + v.viewOffset.y, s);
  }

  /** A non-zero factor can be cancelled. */
  lemma MulCancel(a: real, b: real, s: real)
    requires s != 0.0 && a * s == b * s
    ensures a == b
  {
    assert (a - b) * s == 0.0;
  }

  /** `isInsideWindowPixels`: strictly inside the drawing area; pixels on its border are out. */
  predicate IsInsideWindowPixels(v: View, p: Point)
  {
    p.x < (v.drawSize.x + v.drawOffset.x) as real && p.x > v.drawOffset.x as real &&
    p.y < (v.drawSize.y + v.drawOffset.y) as real && p.y > v.drawOffset.y as real
  }

  /** The centre of the drawing area is inside it exactly when the area has a positive width
      and height, and nothing on the area's border is. */
  lemma InsideWindowBounds(v: View, p: Point)
    ensures IsInsideWindowPixels(v, Point(v.drawOffset.x as real + v.drawSize.x as real / 2.0,
                                          v.drawOffset.y as real + v.drawSize.y as real / 2.0))
            <==> v.drawSize.x > 0 && v.drawSize.y > 0
    ensures p.x == v.drawOffset.x as real || p.x == (v.drawOffset.x + v.drawSize.x) as real ||
            p.y == v.drawOffset.y as real || p.y == (v.drawOffset.y + v.drawSize.y) as real
            ==> !IsInsideWindowPixels(v, p)
  {
  }

  /** The view offset that puts real (0, 0) two thirds of the way across and half way down
      the drawing area, as the drawer starts up. */
  function InitialViewOffset(drawSize: Pixels, sizeScale: real): (o: Point)
    requires sizeScale != 0.0
    ensures o.x * sizeScale * 3.0 == 2.0 * drawSize.x as real
    ensures o.y * sizeScale * 2.0 == drawSize.y as real
  {
    Point(2.0 * (drawSize.x as real / sizeScale) / 3.0, (drawSize.y as real / sizeScale) / 2.0)
  }

  /** With the starting view offset, the real origin is drawn at two thirds of the width and
      half of the height of the drawing area, whichever way the y axis points. */
  lemma InitialViewShowsOrigin(drawSize: Pixels, drawOffset: Pixels, sizeScale: real, invertYaxis: bool)
    requires sizeScale != 0.0
    ensures var v := View(drawSize, drawOffset, InitialViewOffset(drawSize, sizeScale), sizeScale, invertYaxis);
            RealToPixelPos(v, Point(0.0, 0.0))
            == Point(drawOffset.x as real + 2.0 * drawSize.x as real / 3.0,
                     drawOffset.y as real + drawSize.y as real / 2.0)
  {
    var o := InitialViewOffset(drawSize, sizeScale);
    assert o.x * sizeScale == 2.0 * drawSize.x as real / 3.0;
    assert o.y * sizeScale == drawSize.y as real / 2.0;
  }

  /** The view offset while the view is dragged: the offset saved when the drag started plus
      the mouse movement since then in real units, the y movement reversed when the y axis
      points up. */
  function DraggedViewOffset(prevViewOffset: Point, mouseStart: Pixels, mousePos: Pixels, sizeScale: real,
                             invertYaxis: bool): (o: Point)
    requires sizeScale != 0.0
    ensures (o.x - prevViewOffset.x) * sizeScale == (mousePos.x - mouseStart.x) as real
    ensures !invertYaxis ==> (o.y - prevViewOffset.y) * sizeScale == (mousePos.y - mouseStart.y) as real
    ensures invertYaxis ==> (o.y - prevViewOffset.y) * sizeScale == (mouseStart.y - mousePos.y) as real
  {
    var dx := (mousePos.x - mouseStart.x) as real;
    var dy := if invertYaxis then (mouseStart.y - mousePos.y) as real else (mousePos.y - mouseStart.y) as real;
    Point(prevViewOffset.x + dx / sizeScale, prevViewOffset.y + dy / sizeScale)
  }

  /** Dragging keeps the grabbed point under the cursor: the real position that was under the
      mouse when the drag started is drawn under the mouse wherever it has moved to. */
  lemma {:induction false} DragKeepsGrabbedPoint(v: View, mouseStart: Pixels, mousePos: Pixels)
    requires v.sizeScale != 0.0
    ensures var grabbed := PixelsToRealPos(v, Point(mouseStart.x as real, mouseStart.y as real));
            var o := DraggedViewOffset(v.viewOffset, mouseStart, mousePos, v.sizeScale, v.invertYaxis);
            RealToPixelPos(v.(viewOffset := o), grabbed) == Point(mousePos.x as real, mousePos.y as real)
  {
    var s := v.sizeScale;
    var grabbed := PixelsToRealPos(v, Point(mouseStart.x as real, mouseStart.y as real));
    var o := DraggedViewOffset(v.viewOffset, mouseStart, mousePos, s, v.invertYaxis);
    var p := RealToPixelPos(v.(viewOffset := o), grabbed);
    assert (grabbed.x + o.x) * s == (grabbed.x + v.viewOffset.x) * s + (o.x - v.viewOffset.x) * s;
    assert (grabbed.y + o.y) * s == (grabbed.y + v.viewOffset.y) * s + (o.y - v.viewOffset.y) * s;
    assert p.x == mousePos.x as real;
    if v.invertYaxis {
      assert (o.y - v.viewOffset.y) * s == (mouseStart.y - mousePos.y) as real;
      assert (grabbed.y + v.viewOffset.y) * s
          == v.drawSize.y as real - mouseStart.y as real + v.drawOffset.y as real;
      assert p.y == v.drawSize.y as real - (grabbed.y + o.y) * s + v.drawOffset.y as real;
    } else {
      assert (o.y - v.viewOffset.y) * s == (mousePos.y - mouseStart.y) as real;
      assert (grabbed.y + v.viewOffset.y) * s == mouseStart.y as real - v.drawOffset.y as real;
      assert p.y == (grabbed.y + o.y) * s + v.drawOffset.y as real;
    }
    assert p.y == mousePos.y as real;
  }

  /** The scale `updateWindowSize` derives from the old one when the drawing area is resized:
      scaled by the smaller of the width and height ratios. */
  function AutoMatchedScale(oldSize: Pixels, newW: real, newH: real, sizeScale: real): real
    requires oldSize.x != 0 && oldSize.y != 0
  {
    Min(newW / oldSize.x as real, newH / oldSize.y as real) * sizeScale
  }

  /** With positive sizes and scale, the re-fitted scale still shows everything the old area
      showed, along both axes, and fills the new area exactly along one of them. */
  lemma {:induction false} AutoMatchKeepsView(oldSize: Pixels, newW: real, newH: real, sizeScale: real)
    requires oldSize.x > 0 && oldSize.y > 0 && newW > 0.0 && newH > 0.0 && sizeScale > 0.0
    ensures var s := AutoMatchedScale(oldSize, newW, newH, sizeScale);
            s > 0.0 &&
            newW / s >= oldSize.x as real / sizeScale && newH / s >= oldSize.y as real / sizeScale &&
            (newW / s == oldSize.x as real / sizeScale || newH / s == oldSize.y as real / sizeScale)
  {
    var ow, oh := oldSize.x as real, oldSize.y as real;
    var rx, ry := newW / ow, newH / oh;
    var m := Min(rx, ry);
    assert m > 0.0;
    var s := m * sizeScale;
    ExtentAtScale(newW, ow, m, sizeScale);
    ExtentAtScale(newH, oh, m, sizeScale);
    if m == rx {
      assert m * ow == newW;
    } else {
      assert m * oh == newH;
    }
  }

  /** Helper: at scale m * s, the extent n of a side compares with the old extent o at scale s
      the way n compares with m * o. */
  lemma ExtentAtScale(n: real, o: real, m: real, s: real)
    requires o > 0.0 && m > 0.0 && s > 0.0
    ensures n / (m * s) - o / s == (n - m * o) / (m * s)
    ensures m <= n / o ==> n / (m * s) >= o / s
    ensures m * o == n ==> n / (m * s) == o / s
  {
    assert o / s == (m * o) / (m * s);
    if m <= n / o {
      assert m * o <= n;
    }
  }

  /** `pygameWindowHandler`: owns the window; the event handler clears `keepRunning` to end the
      main loop. */
  class WindowHandler {
    var keepRunning: bool

    /** A started window keeps running. */
    constructor ()
      ensures keepRunning
    {
      keepRunning := true;
    }
  }

  /** `pygameDrawer`: the drawing area of the window and its camera. */
  class Drawer {
    const windowHandler: WindowHandler
    var drawSize: Pixels
    var drawOffset: Pixels
    var viewOffset: Point
    var sizeScale: real
    var invertYaxis: bool
    var centerZooming: bool
    var movingViewOffset: bool
    var prevViewOffset: Point
    var movingViewOffsetMouseStart: Pixels

    /** The conversion state of this drawer. */
    function CurrentView(): View
      reads this
    {
      View(drawSize, drawOffset, viewOffset, sizeScale, invertYaxis)
    }

    /** A new drawer: not dragging, zooming about the mouse, and the view offset placing the
        real origin two thirds across the area (left at (0, 0) when the scale is zero, where
        the source's division fails and is caught). The sizes are already whole pixels. */
    constructor (handler: WindowHandler, drawSize: Pixels, drawOffset: Pixels, sizeScale: real, invertYaxis: bool)
      ensures windowHandler == handler
      ensures this.drawSize == drawSize && this.drawOffset == drawOffset
      ensures this.sizeScale == sizeScale && this.invertYaxis == invertYaxis
      ensures !centerZooming && !movingViewOffset
      ensures prevViewOffset == Point(0.0, 0.0) && movingViewOffsetMouseStart == Pixels(0, 0)
      ensures sizeScale != 0.0 ==> viewOffset == InitialViewOffset(drawSize, sizeScale)
      ensures sizeScale == 0.0 ==> viewOffset == Point(0.0, 0.0)
    {
      windowHandler := handler;
      this.drawSize := drawSize;
      this.drawOffset := drawOffset;
      this.sizeScale := sizeScale;
      this.invertYaxis := invertYaxis;
      centerZooming := false;
      movingViewOffset := false;
      prevViewOffset := Point(0.0, 0.0);
      movingViewOffsetMouseStart := Pixels(0, 0);
      if sizeScale != 0.0 {
        viewOffset := InitialViewOffset(drawSize, sizeScale);
      } else {
        viewOffset := Point(0.0, 0.0);
      }
    }

    /** `_updateViewOffset`: while the view is being dragged, move the view offset with the
        mouse (at `mousePos`); otherwise nothing changes. */
    method UpdateViewOffset(mousePos: Pixels)
      requires movingViewOffset ==> sizeScale != 0.0
      modifies this`viewOffset
      ensures !movingViewOffset ==> viewOffset == old(viewOffset)
      ensures movingViewOffset ==>
        viewOffset == DraggedViewOffset(prevViewOffset, movingViewOffsetMouseStart, mousePos, sizeScale, invertYaxis)
    {
      if movingViewOffset {
        var dx := (mousePos.x - movingViewOffsetMouseStart.x) as real;
        var dy;
        if invertYaxis {
          dy := (movingViewOffsetMouseStart.y - mousePos.y) as real;
        } else {
          dy := (mousePos.y - movingViewOffsetMouseStart.y) as real;
        }
        viewOffset := Point(prevViewOffset.x + dx / sizeScale, prevViewOffset.y + dy / sizeScale);
      }
    }

    /** `updateWindowSize`: a positive `newSizeScale` is taken as given; otherwise, with
        `autoMatchSizeScale`, the scale follows the resize (AutoMatchedScale). The new size
        and offset are truncated to whole pixels. */
    method UpdateWindowSize(newW: real, newH: real, offsetX: real, offsetY: real, newSizeScale: real,
                            autoMatchSizeScale: bool)
      requires newSizeScale <= 0.0 && autoMatchSizeScale ==> drawSize.x != 0 && drawSize.y != 0
      modifies this`sizeScale, this`drawSize, this`drawOffset
      ensures newSizeScale > 0.0 ==> sizeScale == newSizeScale
      ensures newSizeScale <= 0.0 && autoMatchSizeScale ==>
        sizeScale == AutoMatchedScale(old(drawSize), newW, newH, old(sizeScale))
      ensures newSizeScale <= 0.0 && !autoMatchSizeScale ==> sizeScale == old(sizeScale)
      ensures drawSize == Pixels(Trunc(newW), Trunc(newH))
      ensures drawOffset == Pixels(Trunc(offsetX), Trunc(offsetY))
    {
      if newSizeScale > 0.0 {
        sizeScale := newSizeScale;
      } else if autoMatchSizeScale {
        sizeScale := Min(newW / drawSize.x as real, newH / drawSize.y as real) * sizeScale;
      }
      drawSize := Pixels(Trunc(newW), Trunc(newH));
      drawOffset := Pixels(Trunc(offsetX), Trunc(offsetY));
    }
  }
}
