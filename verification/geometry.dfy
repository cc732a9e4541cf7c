/** The drag-span normalisers of the editor (the geometry half of `renderFunctions`)
    and the partial lookup from a tool id to its normaliser.

    Coordinates are exact reals: `min`, absolute difference and halving are exact,
    unlike the browser's floating-point numbers. */
module Geometry {
  import opened Wrappers

  /** A raw drag span, tagged with the tool that was selected when the drag began.
      This is what the drawing stores; canonical geometry is derived at render time. */
  datatype Drawable = Drawable(tool: string, startX: real, startY: real, endX: real, endY: real)

  datatype Point = Point(px: real, py: real)

  /** Canonical geometry, one variant per registered tool. */
  datatype Shape =
    | Rect(x: real, y: real, width: real, height: real)
    | Circle(cx: real, cy: real, r: real)
    | Ellipse(cx: real, cy: real, rx: real, ry: real)
    | Line(x1: real, y1: real, x2: real, y2: real)
    | Polyline(points: seq<Point>)

  /** The shape kinds that have a normaliser. */
  datatype Kind = RectKind | CircleKind | EllipseKind | LineKind | PolylineKind

  /** The smaller of two coordinates, written as App.tsx's `a < b ? a : b`. */
  function Lesser(a: real, b: real): (m: real)
    ensures m <= a && m <= b
    ensures m == a || m == b
  {
    if a < b then a else b
  }

  /** The distance between two coordinates, written as App.tsx's
      `a < b ? b - a : a - b`. */
  function Extent(a: real, b: real): (e: real)
    ensures e >= 0.0
    ensures e == b - a || e == a - b
  {
    if a < b then b - a else a - b
  }

  /** The interval covered by `lo` and a non-negative `len` has exactly `a` and `b` as its ends. */
  predicate Spans(lo: real, len: real, a: real, b: real) {
    len >= 0.0 && {lo, lo + len} == {a, b}
  }

  /** Rectangle normaliser: top-left corner and non-negative size. */
  function NormalizeRect(d: Drawable): (s: Shape)
    ensures s.Rect?
    ensures Spans(s.x, s.width, d.startX, d.endX)
    ensures Spans(s.y, s.height, d.startY, d.endY)
  {
    Rect(Lesser(d.startX, d.endX), Lesser(d.startY, d.endY),
         Extent(d.startX, d.endX), Extent(d.startY, d.endY))
  }

  /** Circle normaliser: the radius is the larger half-extent, and the circle is
      anchored at the span's top-left corner, not centred on the span. */
  function NormalizeCircle(d: Drawable): (s: Shape)
    ensures s.Circle?
    ensures 2.0 * s.r >= Extent(d.startX, d.endX) && 2.0 * s.r >= Extent(d.startY, d.endY)
    ensures 2.0 * s.r == Extent(d.startX, d.endX) || 2.0 * s.r == Extent(d.startY, d.endY)
    ensures s.cx - s.r <= d.startX && s.cx - s.r <= d.endX
    ensures s.cx - s.r == d.startX || s.cx - s.r == d.endX
    ensures s.cy - s.r <= d.startY && s.cy - s.r <= d.endY
    ensures s.cy - s.r == d.startY || s.cy - s.r == d.endY
  {
    var rx := Extent(d.startX, d.endX) / 2.0;
    var ry := Extent(d.startY, d.endY) / 2.0;
    var r := if rx < ry then ry else rx;
    Circle(Lesser(d.startX, d.endX) + r, Lesser(d.startY, d.endY) + r, r)
  }

  /** Ellipse normaliser: centre and half-extents, so the ellipse's bounding box
      has the span's two corners as opposite corners. */
  function NormalizeEllipse(d: Drawable): (s: Shape)
    ensures s.Ellipse?
    ensures Spans(s.cx - s.rx, 2.0 * s.rx, d.startX, d.endX)
    ensures Spans(s.cy - s.ry, 2.0 * s.ry, d.startY, d.endY)
  {
    var rx := Extent(d.startX, d.endX) / 2.0;
    var ry := Extent(d.startY, d.endY) / 2.0;
    Ellipse(Lesser(d.startX, d.endX) + rx, Lesser(d.startY, d.endY) + ry, rx, ry)
  }

  /** Line normaliser: the drag's start and end, in drag order. */
  function NormalizeLine(d: Drawable): (s: Shape)
    ensures s.Line?
    ensures Point(s.x1, s.y1) == Point(d.startX, d.startY)
    ensures Point(s.x2, s.y2) == Point(d.endX, d.endY)
  {
    Line(d.startX, d.startY, d.endX, d.endY)
  }

  /** Polyline normaliser: the two-point path from drag start to drag end. */
  function NormalizePolyline(d: Drawable): (s: Shape)
    ensures s.Polyline? && |s.points| == 2
    ensures s.points[0] == Point(d.startX, d.startY)
    ensures s.points[1] == Point(d.endX, d.endY)
  {
    Polyline([Point(d.startX, d.startY), Point(d.endX, d.endY)])
  }

  /** The tool ids offered by the toolbar, in toolbar order. */
  const ToolbarIds: seq<string> :=
    ["pointer", "rectangle", "circle", "ellipse", "line", "polyline", "polygon", "path"]

  /** The tool ids that have an entry in the normaliser table. */
  const RegisteredTools: set<string> := {"rectangle", "circle", "ellipse", "line", "polyline"}

  function KindOf(s: Shape): Kind {
    match s
    case Rect(_, _, _, _) => RectKind
    case Circle(_, _, _) => CircleKind
    case Ellipse(_, _, _, _) => EllipseKind
    case Line(_, _, _, _) => LineKind
    case Polyline(_) => PolylineKind
  }

  /** The tool id under which each kind is registered. */
  function ToolOf(k: Kind): string {
    match k
    case RectKind => "rectangle"
    case CircleKind => "circle"
    case EllipseKind => "ellipse"
    case LineKind => "line"
    case PolylineKind => "polyline"
  }

  /** Looking a tool id up in the normaliser table; ids without an entry give None. */
  function Lookup(tool: string): (k: Option<Kind>)
    ensures k.Some? <==> tool in RegisteredTools
    ensures k.Some? ==> ToolOf(k.value) == tool
  {
    if tool == "rectangle" then Some(RectKind)
    else if tool == "circle" then Some(CircleKind)
    else if tool == "ellipse" then Some(EllipseKind)
    else if tool == "line" then Some(LineKind)
    else if tool == "polyline" then Some(PolylineKind)
    else None
  }

  /** Runs the normaliser of kind `k` on a span. */
  function Normalize(k: Kind, d: Drawable): (s: Shape)
    ensures KindOf(s) == k
    ensures k == RectKind ==>
      Spans(s.x, s.width, d.startX, d.endX) && Spans(s.y, s.height, d.startY, d.endY)
    ensures k == CircleKind ==>
      && 2.0 * s.r >= Extent(d.startX, d.endX) && 2.0 * s.r >= Extent(d.startY, d.endY)
      && (2.0 * s.r == Extent(d.startX, d.endX) || 2.0 * s.r == Extent(d.startY, d.endY))
      && s.cx - s.r == Lesser(d.startX, d.endX) && s.cy - s.r == Lesser(d.startY, d.endY)
    ensures k == EllipseKind ==>
      Spans(s.cx - s.rx, 2.0 * s.rx, d.startX, d.endX) && Spans(s.cy - s.ry, 2.0 * s.ry, d.startY, d.endY)
    ensures k == LineKind ==> s == Line(d.startX, d.startY, d.endX, d.endY)
    ensures k == PolylineKind ==> s.points == [Point(d.startX, d.startY), Point(d.endX, d.endY)]
  {
    match k
    case RectKind => NormalizeRect(d)
    case CircleKind => NormalizeCircle(d)
    case EllipseKind => NormalizeEllipse(d)
    case LineKind => NormalizeLine(d)
    case PolylineKind => NormalizePolyline(d)
  }

  /** The geometry drawn for a stored span: the normaliser selected by the span's own
      tool tag, or None when the tag has no entry (App.tsx would call `undefined`). */
  function Render(d: Drawable): (s: Option<Shape>)
    ensures s.Some? <==> d.tool in RegisteredTools
    ensures s.Some? ==> ToolOf(KindOf(s.value)) == d.tool
    ensures s.Some? ==> s.value == Normalize(Lookup(d.tool).value, d)
  {
    match Lookup(d.tool)
    case None => None
    case Some(k) => Some(Normalize(k, d))
  }

  /** The span with start and end exchanged. */
  function Reversed(d: Drawable): Drawable {
    Drawable(d.tool, d.endX, d.endY, d.startX, d.startY)
  }

  /** The span has extent in both axes (the commit condition of mouse-up). */
  predicate Committable(d: Drawable) {
    d.startX != d.endX && d.startY != d.endY
  }

  /** The shape covers a region or segment of positive size along every axis it uses. */
  predicate PositiveExtent(s: Shape) {
    match s
    case Rect(_, _, w, h) => w > 0.0 && h > 0.0
    case Circle(_, _, r) => r > 0.0
    case Ellipse(_, _, rx, ry) => rx > 0.0 && ry > 0.0
    case Line(x1, y1, x2, y2) => Point(x1, y1) != Point(x2, y2)
    case Polyline(ps) => |ps| >= 2 && forall i :: 0 < i < |ps| ==> ps[i - 1] != ps[i]
  }

  // ---------------------------------------------------------------------------
  // Properties of the normalisers

  /** The rectangle does not depend on the drag's direction. */
  lemma RectIgnoresDirection(d: Drawable)
    ensures NormalizeRect(Reversed(d)) == NormalizeRect(d)
  {
  }

  /** Neither does the ellipse. */
  lemma EllipseIgnoresDirection(d: Drawable)
    ensures NormalizeEllipse(Reversed(d)) == NormalizeEllipse(d)
  {
  }

  /** Nor the circle. */
  lemma CircleIgnoresDirection(d: Drawable)
    ensures NormalizeCircle(Reversed(d)) == NormalizeCircle(d)
  {
  }

  /** Reversing the drag reverses the line and the polyline. */
  lemma LineFollowsDirection(d: Drawable)
    ensures var l := NormalizeLine(Reversed(d)); var m := NormalizeLine(d);
      l == Line(m.x2, m.y2, m.x1, m.y1)
    ensures var p := NormalizePolyline(Reversed(d)); var q := NormalizePolyline(d);
      p.points == [q.points[1], q.points[0]]
  {
  }

  /** The ellipse's bounding box is the rectangle drawn for the same span. */
  lemma EllipseBoxIsRect(d: Drawable)
    ensures var e := NormalizeEllipse(d); var b := NormalizeRect(d);
      e.cx - e.rx == b.x && e.cx + e.rx == b.x + b.width &&
      e.cy - e.ry == b.y && e.cy + e.ry == b.y + b.height
  {
  }

  /** The circle's left and top edges are the rectangle's, and its bounding box
      covers the rectangle. */
  lemma CircleAnchoredAtRectCorner(d: Drawable)
    ensures var c := NormalizeCircle(d); var b := NormalizeRect(d);
      c.cx - c.r == b.x && c.cy - c.r == b.y &&
      c.cx + c.r >= b.x + b.width && c.cy + c.r >= b.y + b.height
  {
  }

  /** The circle's radius is the larger of the ellipse's two radii. */
  lemma CircleRadiusIsLargerEllipseRadius(d: Drawable)
    ensures var c := NormalizeCircle(d); var e := NormalizeEllipse(d);
      c.r >= e.rx && c.r >= e.ry && (c.r == e.rx || c.r == e.ry)
  {
  }

  /** A committable span has positive extent under every normaliser. For the rectangle and
      the ellipse the converse holds too; the circle, the line and the polyline already have
      positive extent when the span moves along one axis only. */
  lemma CommittableGivesPositiveExtent(d: Drawable)
    ensures Committable(d) <==> PositiveExtent(NormalizeRect(d))
    ensures Committable(d) <==> PositiveExtent(NormalizeEllipse(d))
    ensures Committable(d) ==> PositiveExtent(NormalizeCircle(d))
    ensures Committable(d) ==> PositiveExtent(NormalizeLine(d))
    ensures Committable(d) ==> PositiveExtent(NormalizePolyline(d))
    ensures PositiveExtent(NormalizeCircle(d)) <==> d.startX != d.endX || d.startY != d.endY
    ensures PositiveExtent(NormalizeLine(d)) <==> d.startX != d.endX || d.startY != d.endY
    ensures PositiveExtent(NormalizePolyline(d)) <==> d.startX != d.endX || d.startY != d.endY
  {
  }

  /** The commit rule is stricter than the geometry needs: a horizontal line drag from
      (0, 5) to (10, 5) is a segment of length 10, yet it is not committable. */
  lemma HorizontalLineIsNotCommittable()
    ensures var d := Drawable("line", 0.0, 5.0, 10.0, 5.0);
      && PositiveExtent(NormalizeLine(d))
      && PositiveExtent(NormalizePolyline(d.(tool := "polyline")))
      && !Committable(d)
  {
  }

  /** The toolbar ids that have no normaliser are exactly pointer, polygon and path. */
  lemma UnregisteredToolbarIds()
    ensures (set t | t in ToolbarIds && Lookup(t).None?) == {"pointer", "polygon", "path"}
  {
  }
}
