/**
 * The collision primitives of the `util` crate: collider tags, the three
 * collider shapes (circle, line segment, circular arc) with their
 * intersection, normal, overshoot and closest-point queries, the collider
 * sum type that dispatches over them, and the per-cell scroll-stop record.
 */
module Util {
  import opened Fixnum
  import opened Wrappers

  datatype ColliderTag = CollisionOnly | CollisionGravitational | Killision {

    predicate IsGravitational() { this == CollisionGravitational }

    predicate IsKillsPlayer() { this == Killision }

    predicate IsCollision() { this == CollisionGravitational || this == CollisionOnly }
  }

  /** Every tag either kills the player or blocks it, never both; a gravity source always blocks. */
  lemma TagPartition(t: ColliderTag)
    ensures t.IsKillsPlayer() != t.IsCollision()
    ensures t.IsGravitational() ==> t.IsCollision()
    ensures t.IsGravitational() <==> t == CollisionGravitational
    ensures t.IsKillsPlayer() <==> t == Killision
  {
  }

  datatype Circle = Circle(position: Vec, radius: Number) {

    /** Touching counts: the squared centre distance may equal the squared sum of radii. */
    predicate CollidesCircle(other: Circle) {
      var distance := radius + other.radius;
      MagnitudeSquared(Sub(position, other.position)) <= Mul(distance, distance)
    }

    predicate CollidesLine(line: Line)
      requires line.Valid()
    {
      line.CollidesCircle(this)
    }

    function NormalPoint(ops: Numerics, point: Vec): Vec {
      ops.fastNormalise(Sub(point, position))
    }

    function OvershootCircle(ops: Numerics, other: Circle): Vec {
      var distance := ops.magnitude(Sub(other.position, position));
      Scale(NormalPoint(ops, other.position), radius + other.radius - distance)
    }

    function ClosestPoint(ops: Numerics, point: Vec): Vec {
      Add(Scale(NormalPoint(ops, point), radius), position)
    }
  }

  /** Circle-circle intersection does not depend on which circle asks. */
  lemma CircleCollidesSymmetric(a: Circle, b: Circle)
    ensures a.CollidesCircle(b) == b.CollidesCircle(a)
  {
    DistanceSymmetric(a.position, b.position);
    assert a.radius + b.radius == b.radius + a.radius;
  }

  /** Two circles whose centres are exactly the sum of their radii apart need no correction. */
  lemma CircleOvershootAtContact(ops: Numerics, a: Circle, b: Circle)
    requires ops.magnitude(Sub(b.position, a.position)) == a.radius + b.radius
    ensures a.OvershootCircle(ops, b) == Zero
  {
  }

  datatype Line = Line(start: Vec, end: Vec, normal: Vec, length: Number) {

    /**
     * A line at least one unit long. The projection in `ClosestPoint` divides
     * by the integer part of length², which is zero for shorter lines.
     */
    predicate Valid() { length >= ONE }

    /** The integer divisor of the projection: the whole part of length². */
    function ProjectionDivisor(): (d: int)
      requires Valid()
      ensures d >= 1
    {
      assert length * length >= ONE * length >= ONE * ONE;
      Floor(Mul(length, length))
    }

    /** `dot(end - start, point - start)`, compared against length² to choose the branch. */
    function Discriminant(point: Vec): Number {
      Dot(Sub(end, start), Sub(point, start))
    }

    /** `start + (end - start) * dot / floor(length²)`: the interior projection. */
    function Projection(point: Vec): Vec
      requires Valid()
    {
      Add(start, DivInt(Scale(Sub(end, start), Discriminant(point)), ProjectionDivisor()))
    }

    function ClosestPoint(point: Vec): Vec
      requires Valid()
    {
      var discriminant := Discriminant(point);
      if discriminant <= 0 then start
      else if discriminant >= Mul(length, length) then end
      else Projection(point)
    }

    predicate CollidesCircle(circle: Circle)
      requires Valid()
    {
      MagnitudeSquared(Sub(ClosestPoint(circle.position), circle.position))
        <= Mul(circle.radius, circle.radius)
    }

    /** Unsigned distance from `point` to the infinite line through start and end. */
    function Distance(point: Vec): (d: Number)
      requires Valid()
      ensures d >= 0
    {
      var (x1, y1) := (start.x, start.y);
      var (x2, y2) := (end.x, end.y);
      var (x0, y0) := (point.x, point.y);
      Div(Abs(Mul(y2 - y1, x0) - Mul(x2 - x1, y0) + Mul(x2, y1) - Mul(y2, x1)), length)
    }

    function OvershootCircle(circle: Circle): Vec
      requires Valid()
    {
      Scale(normal, circle.radius - Distance(circle.position))
    }
  }

  /** The three branches of `Line::closest_point`, by the sign and size of the discriminant. */
  lemma LineClosestPointCases(l: Line, point: Vec)
    requires l.Valid()
    ensures var d := Dot(Sub(l.end, l.start), Sub(point, l.start));
      && (d <= 0 ==> l.ClosestPoint(point) == l.start)
      && (0 < d && d >= Mul(l.length, l.length) ==> l.ClosestPoint(point) == l.end)
      && (0 < d < Mul(l.length, l.length) ==> l.ClosestPoint(point) == l.Projection(point))
      && (l.ClosestPoint(point) == l.start || l.ClosestPoint(point) == l.end
          || l.ClosestPoint(point) == l.Projection(point))
  {
  }

  /**
   * Each end of a line is its own closest point (for the end: when the stored
   * length does not exceed the real length of the segment).
   */
  lemma LineClosestPointAtEnds(l: Line)
    requires l.Valid()
    ensures l.ClosestPoint(l.start) == l.start
    ensures Mul(l.length, l.length) <= MagnitudeSquared(Sub(l.end, l.start)) ==> l.ClosestPoint(l.end) == l.end
  {
    assert l.Discriminant(l.start) == 0;
    assert l.ProjectionDivisor() >= 1;
  }

  /**
   * A circle centred on the start of a line touches it whatever its radius,
   * and so does one centred on the end when the stored length does not
   * exceed the segment's real length; `Circle::collides_line` agrees.
   */
  lemma {:induction false} LineCollidesAtEnds(l: Line, radius: Number)
    requires l.Valid()
    ensures l.CollidesCircle(Circle(l.start, radius))
    ensures Circle(l.start, radius).CollidesLine(l)
    ensures Mul(l.length, l.length) <= MagnitudeSquared(Sub(l.end, l.start)) ==> l.CollidesCircle(Circle(l.end, radius))
  {
    LineClosestPointAtEnds(l);
    assert Mul(radius, radius) >= 0 by {
      assert radius * radius >= 0;
    }
  }

  /** The correction a line applies is along its stored normal, and never exceeds the circle's radius. */
  lemma LineOvershootAlongNormal(l: Line, c: Circle)
    requires l.Valid()
    ensures exists amount :: amount <= c.radius && l.OvershootCircle(c) == Scale(l.normal, amount)
  {
    var amount := c.radius - l.Distance(c.position);
    assert l.OvershootCircle(c) == Scale(l.normal, amount);
  }

  datatype Arc = Arc(circle: Circle, startPos: Vec, endPos: Vec) {

    /** Strict: an arc only collides with a circle that crosses it, not one that touches it. */
    predicate CollidesCircle(ops: Numerics, c: Circle) {
      MagnitudeSquared(Sub(ClosestPoint(ops, c.position), c.position)) < Mul(c.radius, c.radius)
    }

    /** The arc's surface faces its centre, so its normal is the circle's, reversed. */
    function NormalPoint(ops: Numerics, position: Vec): Vec {
      Neg(circle.NormalPoint(ops, position))
    }

    function OvershootCircle(ops: Numerics, c: Circle): Vec {
      var distance := ops.magnitude(Sub(c.position, circle.position));
      Scale(NormalPoint(ops, c.position), distance + c.radius - circle.radius)
    }

    /** Whether a direction from the centre lies within the arc's span, by cross-product signs. */
    predicate InSpan(direction: Vec) {
      var axc := Cross(startPos, endPos);
      var axb := Cross(startPos, direction);
      var cxb := Cross(endPos, direction);
      var cxa := Cross(endPos, startPos);
      Mul(axb, axc) >= 0 && Mul(cxb, cxa) >= 0
    }

    function ClosestPoint(ops: Numerics, point: Vec): (r: Vec)
      ensures r == circle.ClosestPoint(ops, point)
        || r == Add(circle.position, Scale(startPos, circle.radius))
        || r == Add(circle.position, Scale(endPos, circle.radius))
    {
      var closestCirclePoint := Sub(circle.ClosestPoint(ops, point), circle.position);
      Add(circle.position,
        if InSpan(closestCirclePoint) then closestCirclePoint
        else if Dot(closestCirclePoint, startPos) > Dot(closestCirclePoint, endPos) then Scale(startPos, circle.radius)
        else Scale(endPos, circle.radius))
    }
  }

  /**
   * Which of the three candidates `Arc::closest_point` returns: the full
   * circle's closest point when it lies in the span, otherwise the end of the
   * span whose direction agrees better with it (the end direction on ties).
   */
  lemma ArcClosestPointChoice(ops: Numerics, a: Arc, point: Vec)
    ensures var d := Sub(a.circle.ClosestPoint(ops, point), a.circle.position);
      && (a.InSpan(d) ==> a.ClosestPoint(ops, point) == a.circle.ClosestPoint(ops, point))
      && (!a.InSpan(d) && Dot(d, a.startPos) > Dot(d, a.endPos) ==>
            a.ClosestPoint(ops, point) == Add(a.circle.position, Scale(a.startPos, a.circle.radius)))
      && (!a.InSpan(d) && Dot(d, a.startPos) <= Dot(d, a.endPos) ==>
            a.ClosestPoint(ops, point) == Add(a.circle.position, Scale(a.endPos, a.circle.radius)))
  {
  }

  /**
   * At exact tangency (closest point at distance equal to the radius) a circle
   * or a line reports a collision and an arc does not.
   */
  lemma TangentContact(ops: Numerics, c: Circle, other: Circle, l: Line, a: Arc)
    requires l.Valid()
    ensures var d := c.radius + other.radius;
      MagnitudeSquared(Sub(c.position, other.position)) == Mul(d, d) ==> c.CollidesCircle(other)
    ensures var r2 := Mul(other.radius, other.radius);
      MagnitudeSquared(Sub(l.ClosestPoint(other.position), other.position)) == r2 ==> l.CollidesCircle(other)
    ensures var r2 := Mul(other.radius, other.radius);
      MagnitudeSquared(Sub(a.ClosestPoint(ops, other.position), other.position)) == r2 ==> !a.CollidesCircle(ops, other)
  {
  }

  /**
   * A circle lying inside an arc's circle and touching it from within, at
   * `distance + radius == arc radius`, gets a zero correction.
   */
  lemma ArcOvershootAtContact(ops: Numerics, a: Arc, c: Circle)
    requires ops.magnitude(Sub(c.position, a.circle.position)) + c.radius == a.circle.radius
    ensures a.OvershootCircle(ops, c) == Zero
  {
  }

  datatype ColliderKind = CircleKind(circle: Circle) | LineKind(line: Line) | ArcKind(arc: Arc)

  datatype Collider = Collider(kind: ColliderKind, tag: ColliderTag) {

    predicate Valid() { kind.LineKind? ==> kind.line.Valid() }

    predicate CollidesCircle(ops: Numerics, circle: Circle)
      requires Valid()
    {
      match kind
      case CircleKind(c) => c.CollidesCircle(circle)
      case LineKind(l) => l.CollidesCircle(circle)
      case ArcKind(a) => a.CollidesCircle(ops, circle)
    }

    function NormalCircle(ops: Numerics, circle: Circle): Vec {
      match kind
      case CircleKind(c) => c.NormalPoint(ops, circle.position)
      case LineKind(l) => l.normal
      case ArcKind(a) => a.NormalPoint(ops, circle.position)
    }

    function Overshoot(ops: Numerics, circle: Circle): Vec
      requires Valid()
    {
      match kind
      case CircleKind(c) => c.OvershootCircle(ops, circle)
      case LineKind(l) => l.OvershootCircle(circle)
      case ArcKind(a) => a.OvershootCircle(ops, circle)
    }

    function ClosestPoint(ops: Numerics, point: Vec): Vec
      requires Valid()
    {
      match kind
      case CircleKind(c) => c.ClosestPoint(ops, point)
      case LineKind(l) => l.ClosestPoint(point)
      case ArcKind(a) => a.ClosestPoint(ops, point)
    }
  }

  /**
   * For every kind of collider, the correction `overshoot` applies is a
   * multiple of the normal `normal_circle` reports for the same circle, so
   * pushing the player out moves it along that normal.
   */
  lemma ColliderOvershootAlongNormal(ops: Numerics, c: Collider, circle: Circle)
    requires c.Valid()
    ensures exists amount :: c.Overshoot(ops, circle) == Scale(c.NormalCircle(ops, circle), amount)
  {
    match c.kind
    case CircleKind(k) =>
      var amount := k.radius + circle.radius - ops.magnitude(Sub(circle.position, k.position));
      assert c.Overshoot(ops, circle) == Scale(c.NormalCircle(ops, circle), amount);
    case LineKind(l) =>
      var amount := circle.radius - l.Distance(circle.position);
      assert c.Overshoot(ops, circle) == Scale(c.NormalCircle(ops, circle), amount);
    case ArcKind(a) =>
      var amount := ops.magnitude(Sub(circle.position, a.circle.position)) + circle.radius - a.circle.radius;
      assert c.Overshoot(ops, circle) == Scale(c.NormalCircle(ops, circle), amount);
  }

  /** Two circle colliders agree on whether they touch, whichever is asked. */
  lemma ColliderCirclesSymmetric(ops: Numerics, a: Circle, b: Circle, tag: ColliderTag)
    ensures Collider(CircleKind(a), tag).CollidesCircle(ops, b) == Collider(CircleKind(b), tag).CollidesCircle(ops, a)
  {
    CircleCollidesSymmetric(a, b);
  }

  /** Camera bounds for one scroll-stop cell; `Default` has none. */
  datatype ScrollStop = ScrollStop(
    minimumX: Option<Number>,
    minimumY: Option<Number>,
    maximumX: Option<Number>,
    maximumY: Option<Number>)

  const NoScrollStop := ScrollStop(None, None, None, None)
}
