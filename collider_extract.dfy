/**
 * The build-time collider pipeline of the map compiler: rasterising
 * colliders into grid boxes (`occupied_boxes`), the box-to-collider index
 * built from them (`spacial_colliders`), and the lowering of Tiled object
 * layers into colliders (`extract_from_layer`, `extract_colliders`).
 *
 * The Bresenham walk and the floating-point corner rounding are outside
 * the model; they are passed in as function parameters.
 */
module ColliderExtract {
  import opened Fixnum
  import opened Wrappers
  import opened Util

  /** A grid box, or an integer pixel, as an (x, y) pair. */
  type Cell = (int, int)

  const I32_MIN: int := -0x8000_0000

  /** The box the line walk starts from: no real box has been reported yet. */
  const NoBox: Cell := (I32_MIN, I32_MIN)

  /** The integer pixel of a fixed-point position. */
  function FloorPoint(p: Vec): (c: Cell)
    ensures ONE * c.0 <= p.x < ONE * c.0 + ONE
    ensures ONE * c.1 <= p.y < ONE * c.1 + ONE
  {
    (Floor(p.x), Floor(p.y))
  }

  // ---------------------------------------------------------------------
  // Circles

  /** The first and last box column or row a circle may touch, by truncating division. */
  function MinBox(centre: int, radius: int, boxSize: int): int
    requires boxSize > 0
  {
    TruncDiv(centre - radius, boxSize)
  }

  function MaxBox(centre: int, radius: int, boxSize: int): int
    requires boxSize > 0
  {
    TruncDiv(centre + radius + boxSize - 1, boxSize)
  }

  /** The integer point (x, y) lies within `radius + 8` of the integer centre. */
  predicate InCircle(centre: Cell, radius: int, x: int, y: int) {
    (centre.0 - x) * (centre.0 - x) + (centre.1 - y) * (centre.1 - y) <= (radius + 8) * (radius + 8)
  }

  /**
   * The test a box inside the candidate range must pass: one of its two
   * diagonal corners is near the centre, or the centre lies in its column
   * or in its row.
   */
  predicate BoxHit(centre: Cell, radius: int, boxSize: int, b: Cell) {
    || InCircle(centre, radius, b.0 * boxSize, b.1 * boxSize)
    || InCircle(centre, radius, (b.0 + 1) * boxSize, (b.1 + 1) * boxSize)
    || (b.0 * boxSize <= centre.0 < (b.0 + 1) * boxSize)
    || (b.1 * boxSize <= centre.1 < (b.1 + 1) * boxSize)
  }

  /** The boxes reported for a circle: those in the candidate range that pass `BoxHit`. */
  predicate CircleReports(c: Circle, boxSize: int, b: Cell)
    requires boxSize > 0
  {
    var centre := FloorPoint(c.position);
    var radius := Floor(c.radius);
    && MinBox(centre.0, radius, boxSize) <= b.0 <= MaxBox(centre.0, radius, boxSize)
    && MinBox(centre.1, radius, boxSize) <= b.1 <= MaxBox(centre.1, radius, boxSize)
    && BoxHit(centre, radius, boxSize, b)
  }

  /** Column-major order: the order in which the nested loops visit boxes. */
  predicate Before(a: Cell, b: Cell) {
    a.0 < b.0 || (a.0 == b.0 && a.1 < b.1)
  }

  /**
   * The callbacks `occupied_boxes` makes for a circle: exactly the boxes of
   * `CircleReports`, in strictly increasing column-major order, so no box twice.
   */
  method OccupiedCircle(c: Circle, boxSize: int) returns (boxes: seq<Cell>)
    requires boxSize > 0
    ensures forall b :: b in boxes <==> CircleReports(c, boxSize, b)
    ensures forall i, j :: 0 <= i < j < |boxes| ==> Before(boxes[i], boxes[j])
    ensures forall i, j :: 0 <= i < j < |boxes| ==> boxes[i] != boxes[j]
  {
    var centre := FloorPoint(c.position);
    var radius := Floor(c.radius);
    var minX := MinBox(centre.0, radius, boxSize);
    var maxX := MaxBox(centre.0, radius, boxSize);
    var minY := MinBox(centre.1, radius, boxSize);
    var maxY := MaxBox(centre.1, radius, boxSize);
    boxes := [];
    var x := minX;
    while x <= maxX
      invariant minX <= x || maxX < minX
      invariant forall b :: b in boxes <==> CircleReports(c, boxSize, b) && b.0 < x
      invariant forall i, j :: 0 <= i < j < |boxes| ==> Before(boxes[i], boxes[j])
      invariant forall i :: 0 <= i < |boxes| ==> boxes[i].0 < x
      decreases maxX - x
    {
      var y := minY;
      while y <= maxY
        invariant minY <= y || maxY < minY
        invariant forall b :: b in boxes <==> CircleReports(c, boxSize, b) && (b.0 < x || (b.0 == x && b.1 < y))
        invariant forall i, j :: 0 <= i < j < |boxes| ==> Before(boxes[i], boxes[j])
        invariant forall i :: 0 <= i < |boxes| ==> Before(boxes[i], (x, y))
        decreases maxY - y
      {
        if BoxHit(centre, radius, boxSize, (x, y)) {
          boxes := boxes + [(x, y)];
        }
        y := y + 1;
      }
      x := x + 1;
    }
  }

  // ---------------------------------------------------------------------
  // Lines

  /** The box of an integer pixel, by truncating division. */
  function BoxOf(p: Cell, boxSize: int): Cell
    requires boxSize > 0
  {
    (TruncDiv(p.0, boxSize), TruncDiv(p.1, boxSize))
  }

  function BoxesOf(points: seq<Cell>, boxSize: int): (r: seq<Cell>)
    requires boxSize > 0
    ensures |r| == |points|
    ensures forall i :: 0 <= i < |points| ==> r[i] == BoxOf(points[i], boxSize)
  {
    seq(|points|, i requires 0 <= i < |points| => BoxOf(points[i], boxSize))
  }

  /** Drop every box equal to the one before it, the first compared against `prev`. */
  function Collapse(prev: Cell, s: seq<Cell>): seq<Cell>
    decreases |s|
  {
    if s == [] then []
    else (if s[0] == prev then [] else [s[0]]) + Collapse(s[0], s[1..])
  }

  /** The box the walk is in after `s`, starting from `prev`. */
  function LastBox(prev: Cell, s: seq<Cell>): Cell {
    if s == [] then prev else s[|s| - 1]
  }

  /** Extending the walk by one point reports that point's box iff it differs from the current box. */
  lemma {:induction false} CollapseSnoc(prev: Cell, s: seq<Cell>, b: Cell)
    ensures Collapse(prev, s + [b]) == Collapse(prev, s) + (if b == LastBox(prev, s) then [] else [b])
    decreases |s|
  {
    if s == [] {
      assert Collapse(b, []) == [];
    } else {
      assert (s + [b])[0] == s[0];
      assert (s + [b])[1..] == s[1..] + [b];
      CollapseSnoc(s[0], s[1..], b);
      assert LastBox(s[0], s[1..]) == LastBox(prev, s);
    }
  }

  /** No two consecutive reports carry the same box, and the first differs from `prev`. */
  lemma {:induction false} CollapseNoRepeat(prev: Cell, s: seq<Cell>)
    ensures var r := Collapse(prev, s); |r| > 0 ==> r[0] != prev
    ensures var r := Collapse(prev, s); forall i :: 0 <= i < |r| - 1 ==> r[i] != r[i + 1]
    decreases |s|
  {
    if s != [] {
      CollapseNoRepeat(s[0], s[1..]);
      var rest := Collapse(s[0], s[1..]);
      var r := Collapse(prev, s);
      if s[0] != prev {
        assert r == [s[0]] + rest;
        forall i | 0 <= i < |r| - 1
          ensures r[i] != r[i + 1]
        {
          if i > 0 {
            assert r[i] == rest[i - 1] && r[i + 1] == rest[i];
          }
        }
      } else {
        assert r == rest;
      }
    }
  }

  /** Every reported box is the box of some point, and every box other than `prev` is reported. */
  lemma {:induction false} CollapseMembers(prev: Cell, s: seq<Cell>)
    ensures forall b :: b in Collapse(prev, s) ==> b in s
    ensures forall b :: b in s && b != prev ==> b in Collapse(prev, s)
    decreases |s|
  {
    if s != [] {
      CollapseMembers(s[0], s[1..]);
      assert s == [s[0]] + s[1..];
    }
  }

  /** A run of points that all share one box produces a single report (none if it is the current box). */
  lemma {:induction false} CollapseRun(prev: Cell, b: Cell, n: nat)
    ensures Collapse(prev, seq(n, _ => b)) == if n == 0 || b == prev then [] else [b]
    decreases n
  {
    if n > 0 {
      var s := seq(n, _ => b);
      assert s[1..] == seq(n - 1, _ => b);
      CollapseRun(b, b, n - 1);
    }
  }

  /** Collapsing a walk in two pieces: the second piece starts from the box the first ended in. */
  lemma {:induction false} CollapseAppend(prev: Cell, s: seq<Cell>, t: seq<Cell>)
    ensures Collapse(prev, s + t) == Collapse(prev, s) + Collapse(LastBox(prev, s), t)
    decreases |s|
  {
    if s == [] {
      assert s + t == t;
    } else {
      assert (s + t)[0] == s[0];
      assert (s + t)[1..] == s[1..] + t;
      CollapseAppend(s[0], s[1..], t);
      assert LastBox(s[0], s[1..]) == LastBox(prev, s);
    }
  }

  /**
   * A non-empty run of points sharing one box, anywhere in the walk, adds at
   * most that one report (none if the walk was already in that box), and the
   * rest of the walk is compared against that box.
   */
  lemma CollapseRunInside(prev: Cell, s: seq<Cell>, b: Cell, n: nat, t: seq<Cell>)
    requires n > 0
    ensures Collapse(prev, s + seq(n, _ => b) + t)
      == Collapse(prev, s) + (if b == LastBox(prev, s) then [] else [b]) + Collapse(b, t)
  {
    var run := seq(n, _ => b);
    assert s + run + t == s + (run + t);
    CollapseAppend(prev, s, run + t);
    CollapseAppend(LastBox(prev, s), run, t);
    CollapseRun(LastBox(prev, s), b, n);
    assert LastBox(LastBox(prev, s), run) == b;
  }

  /**
   * The callbacks `occupied_boxes` makes for a line: the boxes of the
   * walked pixels with consecutive repeats dropped, starting from `NoBox`.
   * `walk` stands for the Bresenham rasteriser from start pixel to end pixel.
   */
  method OccupiedLine(l: Line, boxSize: int, walk: (Cell, Cell) -> seq<Cell>) returns (boxes: seq<Cell>)
    requires boxSize > 0
    ensures boxes == Collapse(NoBox, BoxesOf(walk(FloorPoint(l.start), FloorPoint(l.end)), boxSize))
  {
    var points := walk(FloorPoint(l.start), FloorPoint(l.end));
    ghost var all := BoxesOf(points, boxSize);
    var current := NoBox;
    boxes := [];
    var i := 0;
    while i < |points|
      invariant 0 <= i <= |points|
      invariant boxes == Collapse(NoBox, all[..i])
      invariant current == LastBox(NoBox, all[..i])
    {
      var thisBox := BoxOf(points[i], boxSize);
      assert all[..i + 1] == all[..i] + [thisBox];
      CollapseSnoc(NoBox, all[..i], thisBox);
      if current != thisBox {
        boxes := boxes + [thisBox];
        current := thisBox;
      }
      i := i + 1;
    }
    assert all[..|points|] == all;
  }

  // ---------------------------------------------------------------------
  // Any collider

  /** The set of boxes `occupied_boxes` reports for a circle or line collider. */
  ghost function Occupied(c: Collider, boxSize: int, walk: (Cell, Cell) -> seq<Cell>): set<Cell>
    requires boxSize > 0
    requires !c.kind.ArcKind?
  {
    match c.kind
    case CircleKind(circle) =>
      var centre := FloorPoint(circle.position);
      var radius := Floor(circle.radius);
      set x, y | && MinBox(centre.0, radius, boxSize) <= x <= MaxBox(centre.0, radius, boxSize)
                 && MinBox(centre.1, radius, boxSize) <= y <= MaxBox(centre.1, radius, boxSize)
                 && BoxHit(centre, radius, boxSize, (x, y))
        :: (x, y)
    case LineKind(line) =>
      var r := Collapse(NoBox, BoxesOf(walk(FloorPoint(line.start), FloorPoint(line.end)), boxSize));
      set b: Cell | b in r
  }

  /**
   * `occupied_boxes`: the callbacks for a circle or a line collider. Every
   * reported box is in `Occupied`, and every box of `Occupied` is reported.
   * The source has no arm for arcs.
   */
  method OccupiedBoxes(c: Collider, boxSize: int, walk: (Cell, Cell) -> seq<Cell>) returns (boxes: seq<Cell>)
    requires boxSize > 0
    requires !c.kind.ArcKind?
    ensures forall b :: b in boxes <==> b in Occupied(c, boxSize, walk)
    ensures c.kind.CircleKind? ==> forall i, j :: 0 <= i < j < |boxes| ==> boxes[i] != boxes[j]
    ensures c.kind.LineKind? ==> forall i :: 0 <= i < |boxes| - 1 ==> boxes[i] != boxes[i + 1]
  {
    match c.kind {
      case CircleKind(circle) =>
        boxes := OccupiedCircle(circle, boxSize);
      case LineKind(line) =>
        boxes := OccupiedLine(line, boxSize, walk);
        CollapseNoRepeat(NoBox, BoxesOf(walk(FloorPoint(line.start), FloorPoint(line.end)), boxSize));
    }
  }

  /** A list of indices is nondecreasing. */
  predicate Nondecreasing(s: seq<nat>) {
    forall i, j :: 0 <= i < j < |s| ==> s[i] <= s[j]
  }

  /** Index `k` is listed under box `b`. */
  predicate Listed(hs: map<Cell, seq<nat>>, b: Cell, k: nat) {
    b in hs && k in hs[b]
  }

  /** Every list is non-empty, nondecreasing and holds only indices below `bound`. */
  predicate IndexLists(hs: map<Cell, seq<nat>>, bound: nat) {
    forall b :: b in hs ==> hs[b] != [] && Nondecreasing(hs[b]) && forall i :: 0 <= i < |hs[b]| ==> hs[b][i] < bound
  }

  /** Index `k` is listed under box `b` iff `k < n` and collider `k` occupies `b`. */
  ghost predicate Indexes(hs: map<Cell, seq<nat>>, occupied: seq<set<Cell>>, n: nat)
    requires n <= |occupied|
  {
    forall b, k: nat :: Listed(hs, b, k) <==> k < n && b in occupied[k]
  }

  /** Pushing collider `idx` onto the list of each of its boxes, creating missing lists. */
  method PushIndex(hs0: map<Cell, seq<nat>>, boxes: seq<Cell>, idx: nat) returns (hs: map<Cell, seq<nat>>)
    requires IndexLists(hs0, idx)
    ensures forall b, k: nat :: Listed(hs, b, k) <==> Listed(hs0, b, k) || (k == idx && b in boxes)
    ensures IndexLists(hs, idx + 1)
  {
    hs := hs0;
    var j := 0;
    while j < |boxes|
      invariant 0 <= j <= |boxes|
      invariant forall b, k: nat :: Listed(hs, b, k) <==> Listed(hs0, b, k) || (k == idx && b in boxes[..j])
      invariant IndexLists(hs, idx + 1)
    {
      var b := boxes[j];
      var entry := if b in hs then hs[b] else [];
      AppendLargest(entry, idx);
      ghost var prev := hs;
      hs := hs[b := entry + [idx]];
      assert boxes[..j + 1] == boxes[..j] + [b];
      forall c, k: nat
        ensures Listed(hs, c, k) <==> Listed(hs0, c, k) || (k == idx && c in boxes[..j + 1])
      {
        if c == b {
          assert k in entry + [idx] <==> k in entry || k == idx;
        } else {
          assert Listed(hs, c, k) == Listed(prev, c, k);
        }
      }
      j := j + 1;
    }
    assert boxes[..|boxes|] == boxes;
  }

  /** Appending an index no smaller than any listed keeps a list nondecreasing. */
  lemma AppendLargest(s: seq<nat>, x: nat)
    requires Nondecreasing(s)
    requires forall i :: 0 <= i < |s| ==> s[i] < x + 1
    ensures Nondecreasing(s + [x])
    ensures forall i :: 0 <= i < |s + [x]| ==> (s + [x])[i] < x + 1
  {
  }

  /** After pushing collider `idx`, the index lists cover exactly the colliders up to and including `idx`. */
  lemma PushIndexExtends(before: map<Cell, seq<nat>>, after: map<Cell, seq<nat>>, boxes: seq<Cell>, occupied: seq<set<Cell>>, idx: nat)
    requires idx < |occupied|
    requires forall b :: b in boxes <==> b in occupied[idx]
    requires Indexes(before, occupied, idx) && IndexLists(before, idx)
    requires forall b, k: nat :: Listed(after, b, k) <==> Listed(before, b, k) || (k == idx && b in boxes)
    ensures Indexes(after, occupied, idx + 1)
  {
    forall b, k: nat
      ensures Listed(after, b, k) <==> k < idx + 1 && b in occupied[k]
    {
      if Listed(before, b, k) {
        var i :| 0 <= i < |before[b]| && before[b][i] == k;
        assert k < idx;
      }
    }
  }

  /**
   * `spacial_colliders`: for every box, the indices of the colliders that
   * occupy it. An index is listed under a box iff that collider reports the
   * box; lists are nondecreasing and never empty.
   */
  method SpacialColliders(colliders: seq<Collider>, boxSize: int, walk: (Cell, Cell) -> seq<Cell>)
    returns (hs: map<Cell, seq<nat>>)
    requires boxSize > 0
    requires forall i :: 0 <= i < |colliders| ==> !colliders[i].kind.ArcKind?
    ensures forall b, idx: nat :: Listed(hs, b, idx) <==> idx < |colliders| && b in Occupied(colliders[idx], boxSize, walk)
    ensures forall b :: b in hs ==> hs[b] != [] && Nondecreasing(hs[b])
  {
    ghost var occupied := seq(|colliders|, k requires 0 <= k < |colliders| => Occupied(colliders[k], boxSize, walk));
    hs := map[];
    var idx := 0;
    while idx < |colliders|
      invariant 0 <= idx <= |colliders|
      invariant Indexes(hs, occupied, idx) && IndexLists(hs, idx)
    {
      var boxes := OccupiedBoxes(colliders[idx], boxSize, walk);
      assert forall b :: b in boxes <==> b in occupied[idx];
      ghost var before := hs;
      hs := PushIndex(hs, boxes, idx);
      PushIndexExtends(before, hs, boxes, occupied, idx);
      idx := idx + 1;
    }
    assert forall k :: 0 <= k < |colliders| ==> occupied[k] == Occupied(colliders[k], boxSize, walk);
  }

  // ---------------------------------------------------------------------
  // Object layers

  /** A point in Tiled's floating-point pixel space. */
  type FPoint = (real, real)

  datatype Shape =
    | Rect(width: real, height: real)
    | Ellipse(width: real, height: real)
    | Polygon(points: seq<FPoint>)
    | Polyline(points: seq<FPoint>)
    | OtherShape

  datatype MapObject = MapObject(x: real, y: real, shape: Shape)

  /** The ways lowering a layer panics in the source. */
  datatype ExtractError =
    | RectNotImplemented
    | EllipseNotCircle
    | UnsupportedShape
    | TooFewPoints
    | MissingLayer

  /** What `rounded_line_collider` yields for a corner a-o-b: the corner circle's centre and the new ends of o's two sides. */
  datatype Corner = Corner(centre: Vec, newEnd: FPoint, nextStart: FPoint)

  /**
   * The floating-point geometry: `from_f32`, the corner rounding of
   * `rounded_line_collider` with radius 2, and `get_line_collider`.
   */
  datatype Lowering = Lowering(
    fromF32: real -> Number,
    roundCorner: (FPoint, FPoint, FPoint) -> Corner,
    lineBetween: (FPoint, FPoint) -> Line)

  /** The collider tag of a layer: the gravity layer's colliders are gravitational. */
  function TagFor(gravitational: bool): (t: ColliderTag)
    ensures t.IsCollision()
    ensures t.IsGravitational() <==> gravitational
  {
    if gravitational then CollisionGravitational else CollisionOnly
  }

  function Offset(p: FPoint, origin: FPoint): FPoint {
    (p.0 + origin.0, p.1 + origin.1)
  }

  /** The corners a-o-b visited for a polygon (closed) or polyline of at least two points, in order. */
  function Corners(points: seq<FPoint>, closed: bool): (r: seq<(FPoint, FPoint, FPoint)>)
    requires |points| >= 2
    ensures |r| == if closed then |points| else |points| - 1
    ensures r[0] == (points[|points| - 1], points[0], points[1])
    ensures forall i {:trigger r[i]} :: 1 <= i < |points| - 1 ==> r[i] == (points[i - 1], points[i], points[i + 1])
    ensures closed ==> r[|points| - 1] == (points[|points| - 2], points[|points| - 1], points[0])
  {
    var n := |points|;
    [(points[n - 1], points[0], points[1])]
    + seq(n - 2, i requires 0 <= i < n - 2 => (points[i], points[i + 1], points[i + 2]))
    + (if closed then [(points[n - 2], points[n - 1], points[0])] else [])
  }

  /** `rounded_line_collider` applied to a corner given relative to the object's origin. */
  function RoundCorner(lower: Lowering, origin: FPoint, abc: (FPoint, FPoint, FPoint)): Corner {
    lower.roundCorner(Offset(abc.0, origin), Offset(abc.1, origin), Offset(abc.2, origin))
  }

  function RoundCorners(lower: Lowering, origin: FPoint, corners: seq<(FPoint, FPoint, FPoint)>): (m: seq<Corner>)
    ensures |m| == |corners|
    ensures forall k :: 0 <= k < |corners| ==> m[k] == RoundCorner(lower, origin, corners[k])
  {
    seq(|corners|, k requires 0 <= k < |corners| => RoundCorner(lower, origin, corners[k]))
  }

  function CornerCircle(lower: Lowering, c: Corner, tag: ColliderTag): Collider {
    Collider(CircleKind(Circle(c.centre, lower.fromF32(2.0))), tag)
  }

  function LineCollider(lower: Lowering, start: FPoint, end: FPoint, tag: ColliderTag): Collider {
    Collider(LineKind(lower.lineBetween(start, end)), tag)
  }

  /** One circle of radius 2 per rounded corner, in corner order. */
  function CornerCircles(lower: Lowering, m: seq<Corner>, tag: ColliderTag): (r: seq<Collider>)
    ensures |r| == |m|
    ensures forall k :: 0 <= k < |m| ==> r[k] == CornerCircle(lower, m[k], tag)
  {
    seq(|m|, k requires 0 <= k < |m| => CornerCircle(lower, m[k], tag))
  }

  /** The line from each corner's outgoing side start to the next corner's incoming side end. */
  function SideLines(lower: Lowering, m: seq<Corner>, tag: ColliderTag): (r: seq<Collider>)
    ensures |r| == if m == [] then 0 else |m| - 1
    ensures forall k {:trigger r[k]} :: 0 <= k < |m| - 1 ==> r[k] == LineCollider(lower, m[k].nextStart, m[k + 1].newEnd, tag)
  {
    if m == [] then [] else seq(|m| - 1, k requires 0 <= k < |m| - 1 => LineCollider(lower, m[k].nextStart, m[k + 1].newEnd, tag))
  }

  /** One more corner adds the line from the previous corner to it. */
  lemma SideLinesSnoc(lower: Lowering, m: seq<Corner>, j: nat, tag: ColliderTag)
    requires 1 <= j < |m|
    ensures SideLines(lower, m[..j + 1], tag) == SideLines(lower, m[..j], tag) + [LineCollider(lower, m[j - 1].nextStart, m[j].newEnd, tag)]
  {
    var longer := SideLines(lower, m[..j + 1], tag);
    var shorter := SideLines(lower, m[..j], tag);
    assert |longer| == |shorter| + 1;
    forall k | 0 <= k < |shorter|
      ensures longer[k] == shorter[k]
    {
      assert m[..j + 1][k] == m[..j][k] && m[..j + 1][k + 1] == m[..j][k + 1];
    }
    assert longer[j - 1] == LineCollider(lower, m[j - 1].nextStart, m[j].newEnd, tag);
  }

  /**
   * The colliders of a polygon or polyline: one circle per corner, then a
   * line from each corner's outgoing side start to the next corner's
   * incoming side end, and for a polygon a closing line back to the first.
   */
  function PolyColliders(lower: Lowering, origin: FPoint, points: seq<FPoint>, closed: bool, tag: ColliderTag): seq<Collider>
    requires |points| >= 2
  {
    CornerColliders(lower, RoundCorners(lower, origin, Corners(points, closed)), closed, tag)
  }

  /** The colliders built from the rounded corners `m`. */
  function CornerColliders(lower: Lowering, m: seq<Corner>, closed: bool, tag: ColliderTag): seq<Collider>
    requires |m| >= 1
  {
    CornerCircles(lower, m, tag) + JoinLines(lower, m, closed, tag)
  }

  /** The side lines, then for a polygon the closing line from the last corner back to the first. */
  function JoinLines(lower: Lowering, m: seq<Corner>, closed: bool, tag: ColliderTag): seq<Collider>
    requires |m| >= 1
  {
    SideLines(lower, m, tag) + (if closed then [LineCollider(lower, m[|m| - 1].nextStart, m[0].newEnd, tag)] else [])
  }

  /** The first phase of the polygon / polyline arm: rounding every corner, pushing one circle per corner. */
  method RoundAllCorners(lower: Lowering, origin: FPoint, points: seq<FPoint>, closed: bool, tag: ColliderTag)
    returns (modified: seq<Corner>, circles: seq<Collider>)
    requires |points| >= 2
    ensures modified == RoundCorners(lower, origin, Corners(points, closed))
    ensures circles == CornerCircles(lower, modified, tag)
  {
    ghost var m := RoundCorners(lower, origin, Corners(points, closed));
    var n := |points|;
    var c := RoundCorner(lower, origin, (points[n - 1], points[0], points[1]));
    modified := [c];
    circles := [CornerCircle(lower, c, tag)];
    var i := 0;
    while i < n - 2
      invariant 0 <= i <= n - 2
      invariant modified == m[..i + 1]
      invariant circles == CornerCircles(lower, modified, tag)
    {
      c := RoundCorner(lower, origin, (points[i], points[i + 1], points[i + 2]));
      assert m[..i + 2] == modified + [c];
      modified := modified + [c];
      circles := circles + [CornerCircle(lower, c, tag)];
      i := i + 1;
    }
    if closed {
      c := RoundCorner(lower, origin, (points[n - 2], points[n - 1], points[0]));
      assert m == modified + [c];
      modified := modified + [c];
      circles := circles + [CornerCircle(lower, c, tag)];
    }
    assert modified == m;
  }

  /** The second phase: the lines between consecutive rounded corners, and the closing line of a polygon. */
  method JoinCorners(lower: Lowering, modified: seq<Corner>, closed: bool, tag: ColliderTag)
    returns (lines: seq<Collider>)
    requires |modified| >= 1
    ensures lines == JoinLines(lower, modified, closed, tag)
  {
    lines := [];
    var current := modified[0].nextStart;
    var j := 1;
    while j < |modified|
      invariant 1 <= j <= |modified|
      invariant current == modified[j - 1].nextStart
      invariant lines == SideLines(lower, modified[..j], tag)
    {
      SideLinesSnoc(lower, modified, j, tag);
      lines := lines + [LineCollider(lower, current, modified[j].newEnd, tag)];
      current := modified[j].nextStart;
      j := j + 1;
    }
    assert modified[..j] == modified;
    if closed {
      lines := lines + [LineCollider(lower, current, modified[0].newEnd, tag)];
    }
  }

  /** The polygon / polyline arm of `extract_from_layer`. */
  method LowerPoly(lower: Lowering, origin: FPoint, points: seq<FPoint>, closed: bool, tag: ColliderTag)
    returns (colliders: seq<Collider>)
    requires |points| >= 2
    ensures colliders == PolyColliders(lower, origin, points, closed, tag)
  {
    var modified, circles := RoundAllCorners(lower, origin, points, closed, tag);
    var lines := JoinCorners(lower, modified, closed, tag);
    colliders := circles + lines;
  }

  /** The colliders of one object, or the panic it causes. */
  function LowerObject(lower: Lowering, obj: MapObject, gravitational: bool): Result<seq<Collider>, ExtractError> {
    var tag := TagFor(gravitational);
    match obj.shape
    case Rect(_, _) => Failure(RectNotImplemented)
    case Ellipse(w, h) =>
      if w != h then Failure(EllipseNotCircle)
      else
        var centre := Vec(lower.fromF32(obj.x + w / 2.0), lower.fromF32(obj.y + w / 2.0));
        Success([Collider(CircleKind(Circle(centre, lower.fromF32(w / 2.0))), tag)])
    case Polygon(points) =>
      if |points| < 2 then Failure(TooFewPoints)
      else Success(PolyColliders(lower, (obj.x, obj.y), points, true, tag))
    case Polyline(points) =>
      if |points| < 2 then Failure(TooFewPoints)
      else Success(PolyColliders(lower, (obj.x, obj.y), points, false, tag))
    case OtherShape => Failure(UnsupportedShape)
  }

  /** The objects whose lowering panics. */
  predicate Unsupported(shape: Shape) {
    || shape.Rect?
    || shape.OtherShape?
    || (shape.Ellipse? && shape.width != shape.height)
    || ((shape.Polygon? || shape.Polyline?) && |shape.points| < 2)
  }

  /**
   * Lowering one object panics exactly for a rectangle, an unsupported shape,
   * a non-circular ellipse or a polygon/polyline of fewer than two points,
   * each with its own reason; a circular ellipse gives exactly one circle,
   * centred on the ellipse's centre with half its width as radius, carrying
   * the layer's tag; a polygon or polyline gives its rounded colliders.
   */
  lemma LowerObjectOutcome(lower: Lowering, obj: MapObject, gravitational: bool)
    ensures var r := LowerObject(lower, obj, gravitational);
      && (r.Failure? <==> Unsupported(obj.shape))
      && (obj.shape.Rect? ==> r == Failure(RectNotImplemented))
      && (obj.shape.OtherShape? ==> r == Failure(UnsupportedShape))
      && (obj.shape.Ellipse? && obj.shape.width != obj.shape.height ==> r == Failure(EllipseNotCircle))
      && ((obj.shape.Polygon? || obj.shape.Polyline?) && |obj.shape.points| < 2 ==> r == Failure(TooFewPoints))
      && (obj.shape.Ellipse? && obj.shape.width == obj.shape.height ==>
            var radius := obj.shape.width / 2.0;
            && r.Success? && |r.value| == 1
            && r.value[0].tag == TagFor(gravitational)
            && r.value[0].kind == CircleKind(Circle(Vec(lower.fromF32(obj.x + radius), lower.fromF32(obj.y + radius)), lower.fromF32(radius))))
      && ((obj.shape.Polygon? || obj.shape.Polyline?) && |obj.shape.points| >= 2 ==>
            r == Success(PolyColliders(lower, (obj.x, obj.y), obj.shape.points, obj.shape.Polygon?, TagFor(gravitational))))
  {
  }

  /** Prefix `a` to a successful result; a failure stays as it is. */
  function Prepend(a: seq<Collider>, r: Result<seq<Collider>, ExtractError>): Result<seq<Collider>, ExtractError> {
    match r
    case Success(v) => Success(a + v)
    case Failure(e) => Failure(e)
  }

  /** The colliders of a whole layer, in object order, or the first object's panic. */
  function LowerLayer(lower: Lowering, objects: seq<MapObject>, gravitational: bool): Result<seq<Collider>, ExtractError>
  {
    if objects == [] then Success([])
    else match LowerObject(lower, objects[0], gravitational)
      case Failure(e) => Failure(e)
      case Success(first) => Prepend(first, LowerLayer(lower, objects[1..], gravitational))
  }

  /** One step of the layer loop: the colliders so far, then object `i`'s, then the rest; or object `i`'s panic. */
  lemma LowerLayerStep(lower: Lowering, objects: seq<MapObject>, i: nat, gravitational: bool, sofar: seq<Collider>,
                       one: Result<seq<Collider>, ExtractError>)
    requires i < |objects| && one == LowerObject(lower, objects[i], gravitational)
    ensures one.Failure? ==> Prepend(sofar, LowerLayer(lower, objects[i..], gravitational)) == Failure(one.error)
    ensures one.Success? ==>
      Prepend(sofar, LowerLayer(lower, objects[i..], gravitational))
      == Prepend(sofar + one.value, LowerLayer(lower, objects[i + 1..], gravitational))
  {
    assert objects[i..][0] == objects[i] && objects[i..][1..] == objects[i + 1..];
    var rest := LowerLayer(lower, objects[i + 1..], gravitational);
    if rest.Success? && one.Success? {
      assert sofar + (one.value + rest.value) == (sofar + one.value) + rest.value;
    }
  }

  /** Before the loop nothing is collected, and after it nothing remains. */
  lemma LowerLayerEnds(lower: Lowering, objects: seq<MapObject>, gravitational: bool, sofar: seq<Collider>)
    ensures Prepend([], LowerLayer(lower, objects[0..], gravitational)) == LowerLayer(lower, objects, gravitational)
    ensures Prepend(sofar, LowerLayer(lower, objects[|objects|..], gravitational)) == Success(sofar)
  {
    assert objects[0..] == objects;
    assert objects[|objects|..] == [];
    assert sofar + [] == sofar;
    var all := LowerLayer(lower, objects, gravitational);
    if all.Success? {
      assert [] + all.value == all.value;
    }
  }

  /** The body of `extract_from_layer`'s loop for one object: its colliders, or the panic it causes. */
  method ExtractFromObject(lower: Lowering, obj: MapObject, gravitational: bool)
    returns (r: Result<seq<Collider>, ExtractError>)
    ensures r == LowerObject(lower, obj, gravitational)
    ensures r.Failure? <==> Unsupported(obj.shape)
  {
    LowerObjectOutcome(lower, obj, gravitational);
    var tag := TagFor(gravitational);
    match obj.shape {
      case Rect(_, _) =>
        r := Failure(RectNotImplemented);
      case Ellipse(w, h) =>
        if w != h {
          return Failure(EllipseNotCircle);
        }
        var centre := Vec(lower.fromF32(obj.x + w / 2.0), lower.fromF32(obj.y + w / 2.0));
        r := Success([Collider(CircleKind(Circle(centre, lower.fromF32(w / 2.0))), tag)]);
      case Polygon(points) =>
        if |points| < 2 {
          return Failure(TooFewPoints);
        }
        var colliders := LowerPoly(lower, (obj.x, obj.y), points, true, tag);
        r := Success(colliders);
      case Polyline(points) =>
        if |points| < 2 {
          return Failure(TooFewPoints);
        }
        var colliders := LowerPoly(lower, (obj.x, obj.y), points, false, tag);
        r := Success(colliders);
      case OtherShape =>
        r := Failure(UnsupportedShape);
    }
  }

  /** `extract_from_layer`: the loop over the layer's objects pushing their colliders; the first panic ends it. */
  method ExtractFromLayer(lower: Lowering, objects: seq<MapObject>, gravitational: bool)
    returns (r: Result<seq<Collider>, ExtractError>)
    ensures r == LowerLayer(lower, objects, gravitational)
  {
    var colliders: seq<Collider> := [];
    var i := 0;
    ghost var all := LowerLayer(lower, objects, gravitational);
    LowerLayerEnds(lower, objects, gravitational, colliders);
    while i < |objects|
      invariant 0 <= i <= |objects|
      invariant all == Prepend(colliders, LowerLayer(lower, objects[i..], gravitational))
    {
      var one := ExtractFromObject(lower, objects[i], gravitational);
      LowerLayerStep(lower, objects, i, gravitational, colliders, one);
      if one.Failure? {
        return Failure(one.error);
      }
      colliders := colliders + one.value;
      i := i + 1;
    }
    LowerLayerEnds(lower, objects, gravitational, colliders);
    r := Success(colliders);
  }

  /**
   * `extract_colliders`: the "Colliders" layer lowered as gravitational,
   * followed by the "Colliders No Gravity" layer lowered as collision-only.
   * A missing layer panics before anything is lowered.
   */
  function ExtractColliders(lower: Lowering, gravityLayer: Option<seq<MapObject>>, plainLayer: Option<seq<MapObject>>)
    : (r: Result<seq<Collider>, ExtractError>)
    ensures (gravityLayer.None? || plainLayer.None?) ==> r == Failure(MissingLayer)
    ensures r.Success? <==>
      && gravityLayer.Some? && plainLayer.Some?
      && LowerLayer(lower, gravityLayer.value, true).Success?
      && LowerLayer(lower, plainLayer.value, false).Success?
    ensures r.Success? ==>
      r.value == LowerLayer(lower, gravityLayer.value, true).value + LowerLayer(lower, plainLayer.value, false).value
  {
    if gravityLayer.None? || plainLayer.None? then Failure(MissingLayer)
    else
      match LowerLayer(lower, gravityLayer.value, true)
      case Failure(e) => Failure(e)
      case Success(a) =>
        match LowerLayer(lower, plainLayer.value, false)
        case Failure(e) => Failure(e)
        case Success(b) => Success(a + b)
  }

  /**
   * A polygon of n points yields n corner circles of radius 2 followed by n
   * lines; a polyline yields n - 1 circles followed by n - 2 lines; all carry
   * the layer's tag.
   */
  lemma PolyCounts(lower: Lowering, origin: FPoint, points: seq<FPoint>, closed: bool, tag: ColliderTag)
    requires |points| >= 2
    ensures var r := PolyColliders(lower, origin, points, closed, tag);
      var circles := if closed then |points| else |points| - 1;
      && |r| == circles + (if closed then |points| else |points| - 2)
      && (forall k :: 0 <= k < circles ==> r[k].kind.CircleKind? && r[k].kind.circle.radius == lower.fromF32(2.0))
      && (forall k :: circles <= k < |r| ==> r[k].kind.LineKind?)
      && (forall k :: 0 <= k < |r| ==> r[k].tag == tag)
  {
    var m := RoundCorners(lower, origin, Corners(points, closed));
    CornerCollidersShape(lower, m, closed, tag);
  }

  /** `|m|` circles of radius 2, then the lines, all tagged `tag`. */
  lemma CornerCollidersShape(lower: Lowering, m: seq<Corner>, closed: bool, tag: ColliderTag)
    requires |m| >= 1
    ensures var r := CornerColliders(lower, m, closed, tag);
      && |r| == |m| + (if closed then |m| else |m| - 1)
      && (forall k :: 0 <= k < |m| ==> r[k].kind.CircleKind? && r[k].kind.circle.radius == lower.fromF32(2.0))
      && (forall k :: |m| <= k < |r| ==> r[k].kind.LineKind?)
      && (forall k :: 0 <= k < |r| ==> r[k].tag == tag)
  {
    var circ := CornerCircles(lower, m, tag);
    var lines := JoinLines(lower, m, closed, tag);
    JoinLinesShape(lower, m, closed, tag);
    var r := CornerColliders(lower, m, closed, tag);
    forall k | 0 <= k < |r|
      ensures r[k].tag == tag
      ensures k < |m| ==> r[k].kind.CircleKind? && r[k].kind.circle.radius == lower.fromF32(2.0)
      ensures |m| <= k ==> r[k].kind.LineKind?
    {
      if k < |m| {
        assert r[k] == circ[k];
      } else {
        assert r[k] == lines[k - |m|];
      }
    }
  }

  /** The joining part holds one line per side: as many as corners for a polygon, one fewer for a polyline. */
  lemma JoinLinesShape(lower: Lowering, m: seq<Corner>, closed: bool, tag: ColliderTag)
    requires |m| >= 1
    ensures var r := JoinLines(lower, m, closed, tag);
      && |r| == (if closed then |m| else |m| - 1)
      && (forall k :: 0 <= k < |r| ==> r[k].kind.LineKind? && r[k].tag == tag)
  {
    var sides := SideLines(lower, m, tag);
    var r := JoinLines(lower, m, closed, tag);
    forall k | 0 <= k < |r|
      ensures r[k].kind.LineKind? && r[k].tag == tag
    {
      if k < |sides| {
        assert r[k] == sides[k];
      }
    }
  }

  /** Every collider of a successfully lowered layer carries that layer's tag. */
  lemma {:induction false} LayerTags(lower: Lowering, objects: seq<MapObject>, gravitational: bool)
    requires LowerLayer(lower, objects, gravitational).Success?
    ensures forall c :: c in LowerLayer(lower, objects, gravitational).value ==> c.tag == TagFor(gravitational)
    decreases |objects|
  {
    if objects != [] {
      var first := LowerObject(lower, objects[0], gravitational);
      LayerTags(lower, objects[1..], gravitational);
      match objects[0].shape {
        case Polygon(points) =>
          PolyCounts(lower, (objects[0].x, objects[0].y), points, true, TagFor(gravitational));
        case Polyline(points) =>
          PolyCounts(lower, (objects[0].x, objects[0].y), points, false, TagFor(gravitational));
        case _ =>
      }
    }
  }

  /** Lowering fails exactly when some object is a rectangle, a non-circular ellipse, an unsupported shape or a polygon/polyline of fewer than two points. */
  lemma {:induction false} LayerFailsIffBadObject(lower: Lowering, objects: seq<MapObject>, gravitational: bool)
    ensures LowerLayer(lower, objects, gravitational).Failure? <==>
      exists i :: 0 <= i < |objects| && Unsupported(objects[i].shape)
    decreases |objects|
  {
    if objects != [] {
      LayerFailsIffBadObject(lower, objects[1..], gravitational);
      LowerObjectOutcome(lower, objects[0], gravitational);
      if Unsupported(objects[0].shape) {
      } else {
        assert forall i :: 1 <= i < |objects| ==> objects[i] == objects[1..][i - 1];
        if exists i :: 0 <= i < |objects| && Unsupported(objects[i].shape) {
          var i :| 0 <= i < |objects| && Unsupported(objects[i].shape);
          assert i > 0;
          assert objects[1..][i - 1] == objects[i];
        }
      }
    }
  }
}
