/**
 * The scroll-stop compiler: every segment of every polyline on the
 * "Scroll stops" layer becomes a camera bound written into the cells of a
 * 128-pixel grid. A vertical segment bounds the camera's x on the three
 * columns on one side of it, a horizontal one bounds y on the three rows
 * below its row. Coordinates are whole pixels.
 */
module ScrollStops {
  import opened Fixnum
  import opened Wrappers
  import opened Util

  const SCREEN_WIDTH: int := 240
  const SCREEN_HEIGHT: int := 160
  const SCROLL_BOX_SIZE: int := 128

  type Cell = (int, int)

  /** A segment between two pixel positions. */
  type Segment = (Cell, Cell)

  datatype StopShape = StopPolyline(points: seq<Cell>) | OtherStopShape

  datatype StopObject = StopObject(x: int, y: int, shape: StopShape)

  datatype ScrollStopError = MissingLayer | NotAxisAligned

  /** The four bounds of a scroll stop. */
  datatype Field = MinimumX | MinimumY | MaximumX | MaximumY

  // ---------------------------------------------------------------------
  // Segments of the layer

  /** The segments of one object: consecutive point pairs of a polyline, moved by the object's position. */
  function ObjectSegments(o: StopObject): (r: seq<Segment>)
    ensures o.shape.OtherStopShape? ==> r == []
    ensures o.shape.StopPolyline? ==> |r| == if o.shape.points == [] then 0 else |o.shape.points| - 1
    ensures o.shape.StopPolyline? ==> forall i {:trigger r[i]} :: 0 <= i < |r| ==>
      var p := o.shape.points;
      r[i] == ((p[i].0 + o.x, p[i].1 + o.y), (p[i + 1].0 + o.x, p[i + 1].1 + o.y))
  {
    match o.shape
    case OtherStopShape => []
    case StopPolyline(p) =>
      if p == [] then []
      else seq(|p| - 1, i requires 0 <= i < |p| - 1 => ((p[i].0 + o.x, p[i].1 + o.y), (p[i + 1].0 + o.x, p[i + 1].1 + o.y)))
  }

  /** All segments of the layer, object after object. */
  function Segments(objects: seq<StopObject>): seq<Segment>
  {
    if objects == [] then [] else ObjectSegments(objects[0]) + Segments(objects[1..])
  }

  /** A polyline of k points contributes k - 1 segments; other shapes contribute none. */
  lemma {:induction false} SegmentsCount(objects: seq<StopObject>)
    ensures |Segments(objects)| == SegmentTotal(objects)
  {
    if objects != [] {
      SegmentsCount(objects[1..]);
    }
  }

  function SegmentTotal(objects: seq<StopObject>): nat {
    if objects == [] then 0
    else
      var o := objects[0];
      (if o.shape.StopPolyline? && o.shape.points != [] then |o.shape.points| - 1 else 0) + SegmentTotal(objects[1..])
  }

  // ---------------------------------------------------------------------
  // What one segment writes

  /** `f32::signum` of a whole difference: +0.0 counts as positive. */
  function Signum(d: int): (s: int)
    ensures s == 1 || s == -1
    ensures s == 1 <==> d >= 0
  {
    if d >= 0 then 1 else -1
  }

  /** The cells `[colLo, colHi) x [rowLo, rowHi)` all get `field := value`. */
  datatype Effect = Effect(colLo: int, colHi: int, rowLo: int, rowHi: int, field: Field, value: Number)

  predicate InRect(e: Effect, c: Cell) {
    e.colLo <= c.0 < e.colHi && e.rowLo <= c.1 < e.rowHi
  }

  /** What one segment writes; `None` for a segment that is neither vertical nor horizontal. */
  function SegmentEffect(line: Segment): (r: Option<Effect>)
    ensures r.None? <==> line.0.0 != line.1.0 && line.0.1 != line.1.1
  {
    var (p, q) := line;
    if p.0 != q.0 && p.1 != q.1 then None
    else if p.0 == q.0 then
      var direction := Signum(p.1 - q.1);
      var start := Min(p.1, q.1);
      var end := Max(p.1, q.1);
      var x := TruncDiv(p.0, SCROLL_BOX_SIZE);
      var directionX := x + direction * 3;
      Some(Effect(
        Min(x, directionX), Max(x, directionX),
        TruncDiv(start, SCROLL_BOX_SIZE), CeilDiv(end, SCROLL_BOX_SIZE),
        if direction > 0 then MinimumX else MaximumX,
        if direction > 0 then FromInt(p.0) + FromInt(SCREEN_WIDTH / 2) else FromInt(p.0) - FromInt(SCREEN_WIDTH / 2)))
    else
      var direction := Signum(p.0 - q.0);
      var start := Min(p.0, q.0);
      var end := Max(p.0, q.0);
      var y := TruncDiv(p.1, SCROLL_BOX_SIZE);
      var directionY := y + Abs(direction) * 3;
      Some(Effect(
        TruncDiv(start, SCROLL_BOX_SIZE), CeilDiv(end, SCROLL_BOX_SIZE),
        Min(y, directionY), Max(y, directionY),
        if direction > 0 then MaximumY else MinimumY,
        if direction > 0 then FromInt(p.1) - FromInt(SCREEN_HEIGHT / 2) else FromInt(p.1) + FromInt(SCREEN_HEIGHT / 2)))
  }

  /**
   * A vertical segment bounds x on three columns: with the first point at or
   * below the second, the three columns from its own on get a minimum 120
   * pixels right of it (the camera centre may not go further left);
   * otherwise the three columns before its own get a maximum 120 pixels left
   * of it. The rows run from the start's row to the end's row rounded up.
   */
  lemma VerticalEffect(p: Cell, q: Cell)
    requires p.0 == q.0
    ensures var e := SegmentEffect((p, q)).value; var col := TruncDiv(p.0, SCROLL_BOX_SIZE);
      && e.rowLo == TruncDiv(Min(p.1, q.1), SCROLL_BOX_SIZE)
      && e.rowHi == CeilDiv(Max(p.1, q.1), SCROLL_BOX_SIZE)
      && e.colHi - e.colLo == 3
      && (p.1 >= q.1 ==> e.colLo == col && e.field == MinimumX && e.value == ONE * (p.0 + 120))
      && (p.1 < q.1 ==> e.colHi == col && e.field == MaximumX && e.value == ONE * (p.0 - 120))
  {
  }

  /**
   * A horizontal segment bounds y on the three rows from its own row down,
   * whichever way it points: a maximum 80 pixels above it when the first
   * point is right of the second, a minimum 80 pixels below it otherwise.
   */
  lemma HorizontalEffect(p: Cell, q: Cell)
    requires p.0 != q.0 && p.1 == q.1
    ensures var e := SegmentEffect((p, q)).value; var row := TruncDiv(p.1, SCROLL_BOX_SIZE);
      && e.colLo == TruncDiv(Min(p.0, q.0), SCROLL_BOX_SIZE)
      && e.colHi == CeilDiv(Max(p.0, q.0), SCROLL_BOX_SIZE)
      && e.rowLo == row && e.rowHi == row + 3
      && (p.0 > q.0 ==> e.field == MaximumY && e.value == ONE * (p.1 - 80))
      && (p.0 < q.0 ==> e.field == MinimumY && e.value == ONE * (p.1 + 80))
  {
  }

  /**
   * On non-negative coordinates, the rows of a vertical segment are exactly
   * the rows whose pixel span overlaps the open span between its ends.
   */
  lemma VerticalRowsOverlap(p: Cell, q: Cell, row: int)
    requires p.0 == q.0 && p.1 >= 0 && q.1 >= 0
    ensures var e := SegmentEffect((p, q)).value;
      e.rowLo <= row < e.rowHi <==>
        row * SCROLL_BOX_SIZE < Max(p.1, q.1) && Min(p.1, q.1) < (row + 1) * SCROLL_BOX_SIZE
  {
    var e := SegmentEffect((p, q)).value;
    var start := Min(p.1, q.1);
    var end := Max(p.1, q.1);
    assert e.rowLo == FloorDiv(start, SCROLL_BOX_SIZE);
    assert e.rowHi == CeilDiv(end, SCROLL_BOX_SIZE);
  }

  /**
   * A zero-length segment counts as vertical and pointing down (the sign of
   * +0.0 is positive), so it still writes a minimum x into three cells when
   * its y is positive and not a multiple of 128.
   */
  lemma ZeroLengthSegmentWrites(x: int, y: int)
    requires y > 0 && y % SCROLL_BOX_SIZE != 0
    ensures var e := SegmentEffect(((x, y), (x, y))).value;
      && e.field == MinimumX && e.value == ONE * (x + 120)
      && e.rowLo == y / SCROLL_BOX_SIZE && e.rowHi == e.rowLo + 1
      && e.colHi - e.colLo == 3
  {
  }

  /**
   * Columns and rows are found by truncating division, so a segment just
   * left of x = 0 lands in column 0, the same as one just right of it.
   */
  lemma NegativeColumnTruncates()
    ensures SegmentEffect(((-10, 256), (-10, 0))).value.colLo == 0
    ensures SegmentEffect(((10, 256), (10, 0))).value.colLo == 0
    ensures FloorDiv(-10, SCROLL_BOX_SIZE) == -1
  {
  }

  // ---------------------------------------------------------------------
  // Writing cells

  function Get(m: map<Cell, ScrollStop>, c: Cell): ScrollStop {
    if c in m then m[c] else NoScrollStop
  }

  /** Set one bound, keeping the other three. */
  function SetField(s: ScrollStop, f: Field, v: Number): (r: ScrollStop)
    ensures f == MinimumX ==> r.minimumX == Some(v)
    ensures f == MinimumY ==> r.minimumY == Some(v)
    ensures f == MaximumX ==> r.maximumX == Some(v)
    ensures f == MaximumY ==> r.maximumY == Some(v)
    ensures f != MinimumX ==> r.minimumX == s.minimumX
    ensures f != MinimumY ==> r.minimumY == s.minimumY
    ensures f != MaximumX ==> r.maximumX == s.maximumX
    ensures f != MaximumY ==> r.maximumY == s.maximumY
  {
    match f
    case MinimumX => s.(minimumX := Some(v))
    case MinimumY => s.(minimumY := Some(v))
    case MaximumX => s.(maximumX := Some(v))
    case MaximumY => s.(maximumY := Some(v))
  }

  function RectCells(e: Effect): set<Cell> {
    set x, y | e.colLo <= x < e.colHi && e.rowLo <= y < e.rowHi :: (x, y)
  }

  lemma RectCellsMembers(e: Effect)
    ensures forall c :: c in RectCells(e) <==> InRect(e, c)
  {
    forall c | InRect(e, c)
      ensures c in RectCells(e)
    {
      var (x, y) := c;
      assert (x, y) in RectCells(e);
    }
  }

  /** The map after one segment: every cell of its rectangle gets the bound, created if missing. */
  function ApplyEffect(m: map<Cell, ScrollStop>, e: Effect): map<Cell, ScrollStop> {
    map c | c in m.Keys + RectCells(e) :: if InRect(e, c) then SetField(Get(m, c), e.field, e.value) else m[c]
  }

  /**
   * A segment writes its bound into exactly the cells of its rectangle,
   * leaves the other three bounds of those cells alone, and leaves every
   * other cell as it was.
   */
  lemma ApplyEffectCells(m: map<Cell, ScrollStop>, e: Effect, c: Cell)
    ensures c in ApplyEffect(m, e) <==> c in m || InRect(e, c)
    ensures InRect(e, c) ==> ApplyEffect(m, e)[c] == SetField(Get(m, c), e.field, e.value)
    ensures !InRect(e, c) && c in m ==> ApplyEffect(m, e)[c] == m[c]
  {
    RectCellsMembers(e);
  }

  /** Of two segments writing the same bound of a cell, the later one wins. */
  lemma LaterSegmentOverwrites(m: map<Cell, ScrollStop>, e1: Effect, e2: Effect, c: Cell)
    requires InRect(e1, c) && InRect(e2, c) && e1.field == e2.field
    ensures Get(ApplyEffect(ApplyEffect(m, e1), e2), c) == SetField(Get(m, c), e2.field, e2.value)
  {
    ApplyEffectCells(m, e1, c);
    ApplyEffectCells(ApplyEffect(m, e1), e2, c);
  }

  /** The cell-filling nested loops of one segment. */
  method FillRect(m0: map<Cell, ScrollStop>, e: Effect) returns (m: map<Cell, ScrollStop>)
    ensures m == ApplyEffect(m0, e)
  {
    m := m0;
    var y := e.rowLo;
    while y < e.rowHi
      invariant e.rowLo <= y <= Max(e.rowLo, e.rowHi)
      invariant forall c :: c in m <==> c in m0 || (InRect(e, c) && c.1 < y)
      invariant forall c :: c in m ==> m[c] == if InRect(e, c) && c.1 < y then SetField(Get(m0, c), e.field, e.value) else m0[c]
    {
      var x := e.colLo;
      while x < e.colHi
        invariant e.colLo <= x <= Max(e.colLo, e.colHi)
        invariant forall c :: c in m <==> c in m0 || (InRect(e, c) && (c.1 < y || (c.1 == y && c.0 < x)))
        invariant forall c :: c in m ==>
          m[c] == (if InRect(e, c) && (c.1 < y || (c.1 == y && c.0 < x)) then SetField(Get(m0, c), e.field, e.value) else m0[c])
      {
        var entry := if (x, y) in m then m[(x, y)] else NoScrollStop;
        m := m[(x, y) := SetField(entry, e.field, e.value)];
        x := x + 1;
      }
      y := y + 1;
    }
    RectCellsMembers(e);
    ghost var want := ApplyEffect(m0, e);
    assert forall c :: c in m <==> c in want;
  }

  /** The map after all segments, or the error of the first that is not axis aligned. */
  function Fill(m: map<Cell, ScrollStop>, lines: seq<Segment>): Result<map<Cell, ScrollStop>, ScrollStopError>
    decreases |lines|
  {
    if lines == [] then Success(m)
    else match SegmentEffect(lines[0])
      case None => Failure(NotAxisAligned)
      case Some(e) => Fill(ApplyEffect(m, e), lines[1..])
  }

  /** Filling fails exactly when some segment is neither vertical nor horizontal. */
  lemma {:induction false} FillFailsIffSlanted(m: map<Cell, ScrollStop>, lines: seq<Segment>)
    ensures Fill(m, lines).Failure? <==> exists i :: 0 <= i < |lines| && lines[i].0.0 != lines[i].1.0 && lines[i].0.1 != lines[i].1.1
    decreases |lines|
  {
    if lines != [] {
      match SegmentEffect(lines[0]) {
        case None =>
        case Some(e) =>
          FillFailsIffSlanted(ApplyEffect(m, e), lines[1..]);
          assert forall i :: 1 <= i < |lines| ==> lines[i] == lines[1..][i - 1];
          if exists i :: 0 <= i < |lines| && lines[i].0.0 != lines[i].1.0 && lines[i].0.1 != lines[i].1.1 {
            var i :| 0 <= i < |lines| && lines[i].0.0 != lines[i].1.0 && lines[i].0.1 != lines[i].1.1;
            assert lines[1..][i - 1] == lines[i];
          }
      }
    }
  }

  /** The loop of `get_scroll_stops` over all segments. */
  method FillScrollStops(lines: seq<Segment>) returns (r: Result<map<Cell, ScrollStop>, ScrollStopError>)
    ensures r == Fill(map[], lines)
  {
    var m: map<Cell, ScrollStop> := map[];
    var i := 0;
    assert lines[0..] == lines;
    while i < |lines|
      invariant 0 <= i <= |lines|
      invariant Fill(map[], lines) == Fill(m, lines[i..])
    {
      assert lines[i..][0] == lines[i] && lines[i..][1..] == lines[i + 1..];
      var effect := SegmentEffect(lines[i]);
      if effect.None? {
        return Failure(NotAxisAligned);
      }
      m := FillRect(m, effect.value);
      i := i + 1;
    }
    r := Success(m);
  }

  /** `get_scroll_stops` up to code generation: a missing "Scroll stops" layer panics. */
  method GetScrollStops(layer: Option<seq<StopObject>>) returns (r: Result<map<Cell, ScrollStop>, ScrollStopError>)
    ensures layer.None? ==> r == Failure(MissingLayer)
    ensures layer.Some? ==> r == Fill(map[], Segments(layer.value))
  {
    if layer.None? {
      return Failure(MissingLayer);
    }
    r := FillScrollStops(Segments(layer.value));
  }
}
