/**
 * The square-ring cell generator of the map compiler: starting at a centre
 * cell it walks outwards ring by ring (right along the top edge, down the
 * right edge, left along the bottom edge, up the left edge), one cell per step.
 */
module Spiral {
  import opened Wrappers

  datatype Side = Center | Top | Right | Bottom | Left

  /** The fields of a `SpiralIterator` that `next` changes. */
  datatype Cursor = Cursor(side: Side, sideLength: int, x: int, y: int)

  const Start := Cursor(Center, 1, 0, 0)

  /** One call of `next`: move one cell along the current side, turning at its end. */
  function Step(c: Cursor): Cursor {
    match c.side
    case Center => c.(side := Top)
    case Top =>
      var x := c.x + 1;
      c.(x := x, side := if x == c.sideLength then Right else Top)
    case Right =>
      var y := c.y + 1;
      c.(y := y, side := if y == c.sideLength then Bottom else Right)
    case Bottom =>
      var x := c.x - 1;
      c.(x := x, side := if x == -c.sideLength then Left else Bottom)
    case Left =>
      var y := c.y - 1;
      if y == -c.sideLength then c.(y := y, sideLength := c.sideLength + 1, side := Top)
      else c.(y := y)
  }

  /** Where on its current ring every cursor reachable from `Start` stands. */
  predicate Inv(c: Cursor) {
    var n := c.sideLength;
    n >= 1 &&
    match c.side
    case Center => c == Start
    case Top => c.y == 1 - n && 1 - n <= c.x < n
    case Right => c.x == n && 1 - n <= c.y < n
    case Bottom => c.y == n && -n < c.x <= n
    case Left => c.x == -n && -n < c.y <= n
  }

  /** The invariant holds initially, is kept by every step, and bounds the offsets by the side length. */
  lemma StepKeepsInv(c: Cursor)
    requires Inv(c)
    ensures Inv(Start) && Inv(Step(c))
    ensures var n := Step(c).sideLength;
      n >= 1 && -n <= Step(c).x <= n && -n <= Step(c).y <= n
  {
  }

  /**
   * Every step after the first moves to a cell adjacent to the previous one:
   * one coordinate changes by exactly one and the other stays put.
   */
  lemma StepMovesToNeighbour(c: Cursor)
    requires c.side != Center
    ensures var d := Step(c);
      (d.x == c.x && (d.y == c.y + 1 || d.y == c.y - 1)) ||
      (d.y == c.y && (d.x == c.x + 1 || d.x == c.x - 1))
  {
  }

  /** The side length grows by exactly one, and only when the left side reaches the top corner. */
  lemma StepGrowsRing(c: Cursor)
    ensures Step(c).sideLength == c.sideLength || Step(c).sideLength == c.sideLength + 1
    ensures Step(c).sideLength == c.sideLength + 1 <==> c.side == Left && c.y - 1 == -c.sideLength
  {
  }

  /** The offsets returned by `n` consecutive calls of `next` from cursor `c`. */
  function Outputs(c: Cursor, n: nat): (s: seq<(int, int)>)
    ensures |s| == n
    decreases n
  {
    if n == 0 then [] else
      var next := Step(c);
      [(next.x, next.y)] + Outputs(next, n - 1)
  }

  /** The cursors after each of the first 25 calls, starting from `Start`. */
  const FirstCursors := [
    Start,
    Cursor(Top, 1, 0, 0), Cursor(Right, 1, 1, 0), Cursor(Bottom, 1, 1, 1), Cursor(Bottom, 1, 0, 1),
    Cursor(Left, 1, -1, 1), Cursor(Left, 1, -1, 0), Cursor(Top, 2, -1, -1), Cursor(Top, 2, 0, -1),
    Cursor(Top, 2, 1, -1), Cursor(Right, 2, 2, -1), Cursor(Right, 2, 2, 0), Cursor(Right, 2, 2, 1),
    Cursor(Bottom, 2, 2, 2), Cursor(Bottom, 2, 1, 2), Cursor(Bottom, 2, 0, 2), Cursor(Bottom, 2, -1, 2),
    Cursor(Left, 2, -2, 2), Cursor(Left, 2, -2, 1), Cursor(Left, 2, -2, 0), Cursor(Left, 2, -2, -1),
    Cursor(Top, 3, -2, -2), Cursor(Top, 3, -1, -2), Cursor(Top, 3, 0, -2), Cursor(Top, 3, 1, -2),
    Cursor(Top, 3, 2, -2)]

  /** The offsets of the first 25 calls, as the source's unit test lists them. */
  const FirstOffsets := [
    (0, 0),
    (1, 0), (1, 1), (0, 1), (-1, 1), (-1, 0), (-1, -1), (0, -1), (1, -1),
    (2, -1), (2, 0), (2, 1), (2, 2), (1, 2), (0, 2), (-1, 2), (-2, 2),
    (-2, 1), (-2, 0), (-2, -1), (-2, -2), (-1, -2), (0, -2), (1, -2), (2, -2)]

  /** Each listed cursor is the step of the one before it. */
  lemma FirstCursorsStep()
    ensures |FirstCursors| == 26
    ensures forall i :: 0 <= i < 25 ==> Step(FirstCursors[i]) == FirstCursors[i + 1]
  {
    var cs := FirstCursors;
    forall i | 0 <= i < 25
      ensures Step(cs[i]) == cs[i + 1]
    {
    }
  }

  /** The listed offsets are the positions of the cursors after each step. */
  lemma FirstCursorsOffsets()
    ensures |FirstOffsets| == 25
    ensures forall i :: 0 <= i < 25 ==> FirstOffsets[i] == (FirstCursors[i + 1].x, FirstCursors[i + 1].y)
  {
    var cs := FirstCursors;
    forall i | 0 <= i < 25
      ensures FirstOffsets[i] == (cs[i + 1].x, cs[i + 1].y)
    {
    }
  }

  /** The first 25 calls of `next` from the centre yield the offsets of the source's unit test. */
  lemma {:induction false} FirstTwentyFive()
    ensures Outputs(Start, 25) == FirstOffsets
  {
    var cs := FirstCursors;
    FirstCursorsStep();
    FirstCursorsOffsets();
    var k := 25;
    while k > 0
      invariant 0 <= k <= 25
      invariant Outputs(cs[k], 25 - k) == FirstOffsets[k..]
    {
      k := k - 1;
      assert Step(cs[k]) == cs[k + 1];
      assert FirstOffsets[k..] == [FirstOffsets[k]] + FirstOffsets[k + 1..];
    }
  }

  /** No cell appears twice among the first 25 offsets. */
  lemma FirstOffsetsDistinct()
    ensures forall i, j :: 0 <= i < j < |FirstOffsets| ==> FirstOffsets[i] != FirstOffsets[j]
  {
    var s := FirstOffsets;
    forall i, j | 0 <= i < j < |s|
      ensures s[i] != s[j]
    {
    }
  }

  /** The first 9 offsets stay within the 3x3 square, the first 25 within the 5x5 square. */
  lemma FirstOffsetsBounded()
    ensures forall i :: 0 <= i < 9 ==> -1 <= FirstOffsets[i].0 <= 1 && -1 <= FirstOffsets[i].1 <= 1
    ensures forall i :: 0 <= i < 25 ==> -2 <= FirstOffsets[i].0 <= 2 && -2 <= FirstOffsets[i].1 <= 2
  {
  }

  /** Every cell of the 3x3 square is among the first 9 offsets, every cell of the 5x5 among the first 25. */
  lemma FirstOffsetsCover()
    ensures forall x, y :: -1 <= x <= 1 && -1 <= y <= 1 ==> (x, y) in FirstOffsets[..9]
    ensures forall x, y :: -2 <= x <= 2 && -2 <= y <= 2 ==> (x, y) in FirstOffsets
  {
    assert FirstOffsets[..9] == [(0, 0), (1, 0), (1, 1), (0, 1), (-1, 1), (-1, 0), (-1, -1), (0, -1), (1, -1)];
  }

  /**
   * The first 9 outputs are exactly the 3x3 square around the centre and the
   * first 25 exactly the 5x5 square, each cell once.
   */
  lemma FirstSquaresCovered()
    ensures var s := Outputs(Start, 25);
      && (forall i, j :: 0 <= i < j < 25 ==> s[i] != s[j])
      && (forall i :: 0 <= i < 9 ==> -1 <= s[i].0 <= 1 && -1 <= s[i].1 <= 1)
      && (forall i :: 0 <= i < 25 ==> -2 <= s[i].0 <= 2 && -2 <= s[i].1 <= 2)
      && (forall x, y :: -1 <= x <= 1 && -1 <= y <= 1 ==> (x, y) in s[..9])
      && (forall x, y :: -2 <= x <= 2 && -2 <= y <= 2 ==> (x, y) in s)
  {
    FirstTwentyFive();
    FirstOffsetsDistinct();
    FirstOffsetsBounded();
    FirstOffsetsCover();
  }

  class SpiralIterator {
    var side: Side
    var sideLength: int
    var x: int
    var y: int
    const centerX: int
    const centerY: int

    function State(): Cursor
      reads this
    {
      Cursor(side, sideLength, x, y)
    }

    ghost predicate Valid()
      reads this
    {
      Inv(State())
    }

    constructor (center: (int, int))
      ensures Valid() && State() == Start
      ensures centerX == center.0 && centerY == center.1
    {
      side, sideLength, x, y := Center, 1, 0, 0;
      centerX, centerY := center.0, center.1;
    }

    /** Never exhausted: always yields the cell at the new offset from the centre. */
    method Next() returns (item: Option<(int, int)>)
      requires Valid()
      modifies this
      ensures Valid() && State() == Step(old(State()))
      ensures item == Some((centerX + x, centerY + y))
      ensures old(side) == Center ==> item == Some((centerX, centerY))
      ensures -sideLength <= x <= sideLength && -sideLength <= y <= sideLength
      ensures old(side) != Center ==>
        (x == old(x) && (y == old(y) + 1 || y == old(y) - 1)) ||
        (y == old(y) && (x == old(x) + 1 || x == old(x) - 1))
    {
      ghost var before := State();
      match side {
        case Center => side := Top;
        case Top =>
          x := x + 1;
          if x == sideLength {
            side := Right;
          }
        case Right =>
          y := y + 1;
          if y == sideLength {
            side := Bottom;
          }
        case Bottom =>
          x := x - 1;
          if x == -sideLength {
            side := Left;
          }
        case Left =>
          y := y - 1;
          if y == -sideLength {
            sideLength := sideLength + 1;
            side := Top;
          }
      }
      StepKeepsInv(before);
      item := Some((centerX + x, centerY + y));
    }
  }
}
