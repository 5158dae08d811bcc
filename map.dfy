/**
 * Runtime lookups into the tables the map compiler generates: colliders
 * and scroll stops by grid cell, the nearest recovery point, and the 8x8
 * tile chunks of the two background layers.
 */
module MapLib {
  import opened Wrappers
  import opened Fixnum
  import opened Util

  type Cell = (int, int)

  /** Side of a scroll-stop cell, in pixels. */
  const SCROLL_STOP_BOX: int := 128

  datatype MapTileSet = Planets | Planets2 | Platforms

  datatype MapTileSetting = MapTileSetting(tileId: int, hflip: bool, vflip: bool, mapTileSet: MapTileSet)

  /** The transparent tile: the last of the 1024 tile ids. */
  const BLANK_TILE: MapTileSetting := MapTileSetting(1023, false, false, Planets)

  /** n copies of the blank tile. */
  function Blanks(n: nat): (r: seq<MapTileSetting>)
    ensures |r| == n && forall i :: 0 <= i < n ==> r[i] == BLANK_TILE
  {
    if n == 0 then [] else Blanks(n - 1) + [BLANK_TILE]
  }

  const ALL_TRANSPARENT: seq<MapTileSetting> := Blanks(64)

  datatype PowerUpKind = JumpBoost | SpeedBoost

  datatype PowerUp = PowerUp(location: Vec, kind: PowerUpKind)

  /**
   * The generated tables. `boxSize` is the collider grid's cell side
   * (a positive constant of the generated code).
   */
  datatype Tables = Tables(
    boxSize: int,
    nearbyColliders: map<Cell, seq<Collider>>,
    scrollStops: map<Cell, ScrollStop>,
    recoveryPoints: seq<Vec>,
    planetMapTiles: map<Cell, seq<MapTileSetting>>,
    platformMapTiles: map<Cell, seq<MapTileSetting>>,
    powerUps: seq<PowerUp>)
  {
    /** A positive cell side, and every listed line collider at least one unit long. */
    predicate Valid() {
      && boxSize > 0
      && forall c, i :: c in nearbyColliders && 0 <= i < |nearbyColliders[c]| ==> nearbyColliders[c][i].Valid()
    }
  }

  /** Pixel (x, y) lies in grid cell c of side `size`. */
  predicate InCell(c: Cell, size: int, x: int, y: int) {
    size * c.0 <= x < size * c.0 + size && size * c.1 <= y < size * c.1 + size
  }

  /** The cell of a pixel, by flooring division: negative coordinates fall into the lower cell. */
  function CellOf(size: int, x: int, y: int): (c: Cell)
    requires size > 0
    ensures InCell(c, size, x, y)
  {
    (FloorDiv(x, size), FloorDiv(y, size))
  }

  /** A coordinate lies in exactly one interval [size*a, size*a + size). */
  lemma IntervalUnique(a: int, b: int, size: int, x: int)
    requires size > 0
    requires size * a <= x < size * a + size && size * b <= x < size * b + size
    ensures a == b
  {
    if a < b {
      MulMonotone(size, a + 1, b);
    } else if b < a {
      MulMonotone(size, b + 1, a);
    }
  }

  lemma MulMonotone(s: int, p: int, q: int)
    requires s > 0 && p <= q
    ensures s * p <= s * q
  {
    assert s * q - s * p == s * (q - p);
  }

  /** A pixel lies in exactly one cell. */
  lemma CellUnique(c: Cell, d: Cell, size: int, x: int, y: int)
    requires size > 0 && InCell(c, size, x, y) && InCell(d, size, x, y)
    ensures c == d
  {
    IntervalUnique(c.0, d.0, size, x);
    IntervalUnique(c.1, d.1, size, y);
  }

  lemma CellOfUnique(size: int, x: int, y: int)
    requires size > 0
    ensures forall d :: InCell(d, size, x, y) ==> d == CellOf(size, x, y)
  {
    forall d | InCell(d, size, x, y) ensures d == CellOf(size, x, y) {
      CellUnique(CellOf(size, x, y), d, size, x, y);
    }
  }

  /** `get_nearby`: the colliders listed for the cell holding (x, y), or none. */
  function GetNearby(t: Tables, x: int, y: int): (r: seq<Collider>)
    requires t.Valid()
    ensures forall c :: InCell(c, t.boxSize, x, y) ==>
      (c in t.nearbyColliders ==> r == t.nearbyColliders[c]) && (c !in t.nearbyColliders ==> r == [])
    ensures forall i :: 0 <= i < |r| ==> r[i].Valid()
  {
    var c := CellOf(t.boxSize, x, y);
    CellOfUnique(t.boxSize, x, y);
    if c in t.nearbyColliders then t.nearbyColliders[c] else []
  }

  /** `get_scroll_stop`: the scroll stop of the 128-pixel cell holding (x, y), if there is one. */
  function GetScrollStop(t: Tables, x: int, y: int): (r: Option<ScrollStop>)
    ensures forall c :: InCell(c, SCROLL_STOP_BOX, x, y) ==>
      (c in t.scrollStops ==> r == Some(t.scrollStops[c])) && (c !in t.scrollStops ==> r == None)
  {
    var c := CellOf(SCROLL_STOP_BOX, x, y);
    CellOfUnique(SCROLL_STOP_BOX, x, y);
    if c in t.scrollStops then Some(t.scrollStops[c]) else None
  }

  /** A pixel one left of the origin is looked up in cell -1, not cell 0. */
  lemma NegativeCoordinatesFloor(t: Tables)
    requires t.Valid()
    ensures (-1, 0) in t.nearbyColliders ==> GetNearby(t, -1, 0) == t.nearbyColliders[(-1, 0)]
    ensures (-1, -1) !in t.scrollStops ==> GetScrollStop(t, -1, -1) == None
  {
    assert InCell((-1, 0), t.boxSize, -1, 0);
    assert InCell((-1, -1), SCROLL_STOP_BOX, -1, -1);
  }

  /** Squared distance used to rank recovery points. */
  function Distance2(a: Vec, b: Vec): Number {
    MagnitudeSquared(Sub(a, b))
  }

  /**
   * `min_by_key` over the points: the index of a point at minimal squared
   * distance from `p`; on ties the first such point is kept.
   */
  function NearestIndex(points: seq<Vec>, p: Vec): (i: nat)
    requires |points| > 0
    ensures i < |points|
    ensures forall j :: 0 <= j < |points| ==> Distance2(points[i], p) <= Distance2(points[j], p)
    ensures forall j :: 0 <= j < i ==> Distance2(points[j], p) > Distance2(points[i], p)
    decreases |points|
  {
    if |points| == 1 then 0
    else
      var init := points[..|points| - 1];
      var i := NearestIndex(init, p);
      assert forall j :: 0 <= j < |init| ==> init[j] == points[j];
      if Distance2(points[|points| - 1], p) < Distance2(points[i], p) then |points| - 1 else i
  }

  /** `get_recovery_point`: the nearest recovery point, the first on ties; None where the source panics. */
  function GetRecoveryPoint(t: Tables, position: Vec): (r: Option<Vec>)
    ensures r.None? <==> t.recoveryPoints == []
    ensures r.Some? ==> r.value in t.recoveryPoints
    ensures r.Some? ==> forall q :: q in t.recoveryPoints ==> Distance2(r.value, position) <= Distance2(q, position)
  {
    if t.recoveryPoints == [] then None
    else Some(t.recoveryPoints[NearestIndex(t.recoveryPoints, position)])
  }

  /** A recovery point strictly nearer than all the others is the one chosen. */
  lemma UniqueNearestChosen(t: Tables, position: Vec, k: int)
    requires 0 <= k < |t.recoveryPoints|
    requires forall j :: 0 <= j < |t.recoveryPoints| && j != k ==>
      Distance2(t.recoveryPoints[k], position) < Distance2(t.recoveryPoints[j], position)
    ensures GetRecoveryPoint(t, position) == Some(t.recoveryPoints[k])
  {
    var i := NearestIndex(t.recoveryPoints, position);
  }

  /** A stored chunk, or 64 blank tiles when the layer has none at (x, y). */
  function TileChunk(tiles: map<Cell, seq<MapTileSetting>>, x: int, y: int): (r: seq<MapTileSetting>)
    ensures (x, y) in tiles ==> r == tiles[(x, y)]
    ensures (x, y) !in tiles ==> |r| == 64 && forall i :: 0 <= i < 64 ==> r[i] == BLANK_TILE
  {
    if (x, y) in tiles then tiles[(x, y)] else ALL_TRANSPARENT
  }

  /** `get_planet_tile_chunk`. */
  function GetPlanetTileChunk(t: Tables, x: int, y: int): (r: seq<MapTileSetting>)
    ensures (x, y) in t.planetMapTiles ==> r == t.planetMapTiles[(x, y)]
    ensures (x, y) !in t.planetMapTiles ==> |r| == 64 && forall i :: 0 <= i < 64 ==> r[i].tileId == 1023 && r[i].mapTileSet == Planets
  {
    TileChunk(t.planetMapTiles, x, y)
  }

  /** `get_platform_tile_chunk`. */
  function GetPlatformTileChunk(t: Tables, x: int, y: int): (r: seq<MapTileSetting>)
    ensures (x, y) in t.platformMapTiles ==> r == t.platformMapTiles[(x, y)]
    ensures (x, y) !in t.platformMapTiles ==> |r| == 64 && forall i :: 0 <= i < 64 ==> r[i].tileId == 1023 && !r[i].hflip && !r[i].vflip
  {
    TileChunk(t.platformMapTiles, x, y)
  }
}
