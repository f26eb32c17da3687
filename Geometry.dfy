/** Planar points and line segments in millimetres, and the pairing of a point list into the
    segments that join neighbouring points. */
module Geometry {

  datatype Point = Point(x: real, y: real)

  /** One straight trace piece, from `start` to `end`. */
  datatype Segment = Segment(start: Point, end: Point)

  /** The segments joining each point to the next one, in order. */
  function Segments(points: seq<Point>): (segs: seq<Segment>)
  {
    if |points| == 0 then []
    else seq(|points| - 1, i requires 0 <= i < |points| - 1 => Segment(points[i], points[i + 1]))
  }

  /** One segment per pair of neighbours; each joins points i and i + 1, so the end of one
      segment is the start of the next and the list forms a single unbroken trace. */
  lemma SegmentsChain(points: seq<Point>)
    ensures |Segments(points)| == if |points| == 0 then 0 else |points| - 1
    ensures forall i :: 0 <= i < |Segments(points)| ==>
      Segments(points)[i].start == points[i] && Segments(points)[i].end == points[i + 1]
    ensures forall i :: 0 <= i < |Segments(points)| - 1 ==>
      Segments(points)[i].end == Segments(points)[i + 1].start
  {
  }

  /** A horizontal or a vertical segment. */
  predicate AxisAligned(s: Segment)
  {
    s.start.x == s.end.x || s.start.y == s.end.y
  }

  /** The reflection (x, y) |-> (-y, -x) across the line y = -x. */
  function Reflect(p: Point): Point
  {
    Point(-p.y, -p.x)
  }

  function ReflectAll(points: seq<Point>): (qs: seq<Point>)
    ensures |qs| == |points|
    ensures forall i :: 0 <= i < |points| ==> qs[i] == Reflect(points[i])
  {
    seq(|points|, i requires 0 <= i < |points| => Reflect(points[i]))
  }

  /** The length |dx| + |dy| of an axis-aligned step, as the sum of the absolute coordinate
      differences. */
  function ManhattanLength(a: Point, b: Point): (r: real)
    ensures r >= 0.0
    ensures r == 0.0 <==> a == b
  {
    (if a.x <= b.x then b.x - a.x else a.x - b.x) + (if a.y <= b.y then b.y - a.y else a.y - b.y)
  }

  /** The total length of a trace, each piece measured as |dx| + |dy| (its true length when,
      as in the square coil, every piece is horizontal or vertical). */
  function PathLength(segs: seq<Segment>): (len: real)
    ensures len >= 0.0
  {
    if |segs| == 0 then 0.0
    else PathLength(segs[..|segs| - 1]) + ManhattanLength(segs[|segs| - 1].start, segs[|segs| - 1].end)
  }

  /** A trace through four points measures the sum of its three steps. */
  lemma FourPointPathLength(a: Point, b: Point, c: Point, d: Point)
    ensures PathLength(Segments([a, b, c, d])) == ManhattanLength(a, b) + ManhattanLength(b, c) + ManhattanLength(c, d)
  {
    var one := [Segment(a, b)];
    var two := one + [Segment(b, c)];
    var three := two + [Segment(c, d)];
    assert one[..0] == [] && two[..1] == one && three[..2] == two;
    assert PathLength(one) == ManhattanLength(a, b);
    assert PathLength(two) == ManhattanLength(a, b) + ManhattanLength(b, c);
    assert Segments([a, b, c, d]) == three;
  }

  /** The length of two traces laid end to end is the sum of their lengths. */
  lemma {:induction false} PathLengthAppend(a: seq<Segment>, b: seq<Segment>)
    ensures PathLength(a + b) == PathLength(a) + PathLength(b)
    decreases |b|
  {
    if |b| > 0 {
      assert (a + b)[..|a + b| - 1] == a + b[..|b| - 1];
      PathLengthAppend(a, b[..|b| - 1]);
    } else {
      assert a + b == a;
    }
  }

  /** Joining two point lists joins their segment lists with one more segment between the
      last point of the first and the first point of the second. */
  lemma SegmentsAppend(a: seq<Point>, b: seq<Point>)
    requires |a| >= 1 && |b| >= 1
    ensures Segments(a + b) == Segments(a) + [Segment(a[|a| - 1], b[0])] + Segments(b)
  {
    var lhs := Segments(a + b);
    var rhs := Segments(a) + [Segment(a[|a| - 1], b[0])] + Segments(b);
    assert |lhs| == |rhs|;
    forall i | 0 <= i < |lhs|
      ensures lhs[i] == rhs[i]
    {
      if i < |a| - 1 {
        assert rhs[i] == Segments(a)[i];
      } else if i == |a| - 1 {
        assert rhs[i] == Segment(a[|a| - 1], b[0]);
      } else {
        assert rhs[i] == Segments(b)[i - |a|];
      }
    }
  }
}
