/** The holder ("H"-like bracket) shape drawn between the two covers.
    Its outline is an open polyline of four points placed around the
    midpoint of the rectangle it is drawn in. */
module BookHold {

  /** A point in the drawing plane (CGPoint). */
  datatype Point = Point(x: real, y: real)

  /** A rectangle given by its origin and size (CGRect). */
  datatype Rect = Rect(x: real, y: real, width: real, height: real)

  /** Horizontal midpoint of a rectangle: as far from the left edge as from
      the right. For a negative width the standardised rectangle has the same
      midpoint, so no case split. */
  function MidX(rect: Rect): (m: real)
    ensures m - rect.x == rect.x + rect.width - m
  {
    rect.x + rect.width / 2.0
  }

  /** Vertical midpoint of a rectangle: as far from the top edge as from
      the bottom. */
  function MidY(rect: Rect): (m: real)
    ensures m - rect.y == rect.y + rect.height - m
  {
    rect.y + rect.height / 2.0
  }

  /** How far left of the midpoint the bracket starts. */
  const HalfSpan: real := 28.0
  /** Height of the bracket's two arms. */
  const ArmHeight: real := 12.0
  /** Total width of the bracket. */
  const Span: real := 56.0

  /** The holder outline: down from the start point, across, and back up. */
  function HoldPath(rect: Rect): (path: seq<Point>)
    ensures |path| == 4
    // the bracket starts and ends on the midpoint's horizontal line
    ensures path[0].y == MidY(rect) && path[3].y == path[0].y
    // both arms drop by the same height
    ensures path[1].y == path[0].y + ArmHeight && path[2].y == path[1].y
    // the arms are vertical
    ensures path[1].x == path[0].x && path[3].x == path[2].x
    // the bracket is Span wide and centred on the midpoint
    ensures path[3].x - path[0].x == Span
    ensures path[0].x + path[3].x == 2.0 * MidX(rect)
  {
    var cX := MidX(rect) - HalfSpan;
    var cY := MidY(rect);
    [Point(cX, cY), Point(cX, cY + ArmHeight), Point(cX + Span, cY + ArmHeight), Point(cX + Span, cY)]
  }

  /** The outline depends on the rectangle only through its midpoint. */
  lemma HoldPathDependsOnlyOnMidpoint(r1: Rect, r2: Rect)
    requires MidX(r1) == MidX(r2) && MidY(r1) == MidY(r2)
    ensures HoldPath(r1) == HoldPath(r2)
  {
  }

  /** The rectangle moved by (dx, dy). */
  function Translate(rect: Rect, dx: real, dy: real): Rect
  {
    Rect(rect.x + dx, rect.y + dy, rect.width, rect.height)
  }

  /** Moving the rectangle moves every point of the outline by the same
      amount. */
  lemma HoldPathTranslates(rect: Rect, dx: real, dy: real)
    ensures var p, q := HoldPath(rect), HoldPath(Translate(rect, dx, dy));
      forall i :: 0 <= i < 4 ==> q[i] == Point(p[i].x + dx, p[i].y + dy)
  {
  }

  /** A point reflected in the vertical line x == axis. */
  function Reflect(p: Point, axis: real): (q: Point)
    ensures q.y == p.y && q.x + p.x == 2.0 * axis
  {
    Point(2.0 * axis - p.x, p.y)
  }

  /** The outline is mirror-symmetric about the vertical line through the
      midpoint: reflecting it gives the same points in reverse order. */
  lemma HoldPathSymmetric(rect: Rect)
    ensures var p := HoldPath(rect);
      forall i :: 0 <= i < 4 ==> Reflect(p[i], MidX(rect)) == p[3 - i]
  {
  }
}
