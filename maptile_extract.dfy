/**
 * Re-chunking of an infinite Tiled tile layer: every 16x16 chunk of the
 * layer becomes four 8x8 chunks of 64 tile settings, keyed by their own
 * chunk coordinates.
 */
module MaptileExtract {
  import opened Wrappers

  type Cell = (int, int)

  datatype GameTileSet = Planets | Platforms

  datatype TileSetting = TileSetting(tileset: GameTileSet, hflip: bool, vflip: bool, tileId: int)

  /** A tile as the layer stores it: the name of its tileset, its id and its flips. */
  datatype LayerTile = LayerTile(tilesetName: string, id: nat, flipH: bool, flipV: bool)

  /** `get_tile` of a 16x16 chunk, for 0 <= x, y < 16. */
  type Chunk = (int, int) -> Option<LayerTile>

  datatype TileError = UnknownTileSet(name: string)

  const U16_MAX: int := 0xFFFF

  /** The setting of one tile position; an unknown tileset name panics. */
  function Setting(t: Option<LayerTile>): (r: Result<TileSetting, TileError>)
    ensures t.None? ==> r == Success(TileSetting(Planets, false, false, U16_MAX))
    ensures t.Some? ==> (r.Failure? <==> t.value.tilesetName != "planets" && t.value.tilesetName != "platforms")
    ensures t.Some? && r.Success? ==>
      && r.value.tileId == t.value.id % 0x1_0000
      && r.value.hflip == t.value.flipH && r.value.vflip == t.value.flipV
      && (r.value.tileset == Planets <==> t.value.tilesetName == "planets")
  {
    match t
    case None => Success(TileSetting(Planets, false, false, U16_MAX))
    case Some(tile) =>
      var id := tile.id % 0x1_0000;
      if tile.tilesetName == "planets" then Success(TileSetting(Planets, tile.flipH, tile.flipV, id))
      else if tile.tilesetName == "platforms" then Success(TileSetting(Platforms, tile.flipH, tile.flipV, id))
      else Failure(UnknownTileSet(tile.tilesetName))
  }

  /** The 64 tile positions of the 8x8 sub-chunk (cx, cy), in row-major order. */
  function SubChunkTiles(chunk: Chunk, cx: int, cy: int): (r: seq<Option<LayerTile>>)
    ensures |r| == 64
    ensures forall i :: 0 <= i < 64 ==> r[i] == chunk(8 * cx + i % 8, 8 * cy + i / 8)
  {
    seq(64, i requires 0 <= i < 64 => chunk(8 * cx + i % 8, 8 * cy + i / 8))
  }

  /** The settings of a run of tile positions, or the first panic. */
  function Settings(tiles: seq<Option<LayerTile>>): Result<seq<TileSetting>, TileError>
    decreases |tiles|
  {
    if tiles == [] then Success([])
    else match Setting(tiles[0])
      case Failure(e) => Failure(e)
      case Success(s) =>
        match Settings(tiles[1..])
        case Failure(e) => Failure(e)
        case Success(rest) => Success([s] + rest)
  }

  /** A successful run has one setting per position; a run fails iff some position fails. */
  lemma {:induction false} SettingsPointwise(tiles: seq<Option<LayerTile>>)
    ensures Settings(tiles).Success? ==> |Settings(tiles).value| == |tiles|
    ensures Settings(tiles).Success? ==> forall i :: 0 <= i < |tiles| ==>
      Setting(tiles[i]).Success? && Settings(tiles).value[i] == Setting(tiles[i]).value
    ensures Settings(tiles).Failure? <==> exists i :: 0 <= i < |tiles| && Setting(tiles[i]).Failure?
    decreases |tiles|
  {
    if tiles != [] {
      SettingsPointwise(tiles[1..]);
      assert forall i :: 1 <= i < |tiles| ==> tiles[i] == tiles[1..][i - 1];
      if Setting(tiles[0]).Success? && Settings(tiles[1..]).Success? {
        var r := Settings(tiles).value;
        assert r == [Setting(tiles[0]).value] + Settings(tiles[1..]).value;
        forall i | 0 <= i < |tiles|
          ensures r[i] == Setting(tiles[i]).value
        {
          if i > 0 {
            assert r[i] == Settings(tiles[1..]).value[i - 1];
          }
        }
      }
      if exists i :: 0 <= i < |tiles| && Setting(tiles[i]).Failure? {
        var i :| 0 <= i < |tiles| && Setting(tiles[i]).Failure?;
        if i > 0 {
          assert Setting(tiles[1..][i - 1]).Failure?;
        }
      }
    }
  }

  function Snoc(r: Result<seq<TileSetting>, TileError>, t: Option<LayerTile>): Result<seq<TileSetting>, TileError> {
    match r
    case Failure(e) => Failure(e)
    case Success(v) =>
      match Setting(t)
      case Failure(e) => Failure(e)
      case Success(s) => Success(v + [s])
  }

  /** Settings of a run extended by one position, when the run so far succeeded. */
  lemma {:induction false} SettingsSnoc(tiles: seq<Option<LayerTile>>, t: Option<LayerTile>)
    requires Settings(tiles).Success?
    ensures Settings(tiles + [t]) == Snoc(Settings(tiles), t)
    decreases |tiles|
  {
    if tiles == [] {
      assert [t][1..] == [];
      assert tiles + [t] == [t];
      if Setting(t).Success? {
        assert [Setting(t).value] + [] == [] + [Setting(t).value];
      }
    } else {
      assert (tiles + [t])[0] == tiles[0];
      assert (tiles + [t])[1..] == tiles[1..] + [t];
      SettingsSnoc(tiles[1..], t);
      if Setting(t).Success? {
        assert [Setting(tiles[0]).value] + (Settings(tiles[1..]).value + [Setting(t).value])
            == ([Setting(tiles[0]).value] + Settings(tiles[1..]).value) + [Setting(t).value];
      }
    }
  }

  /** Once a run fails, extending it keeps the same failure: the first panic wins. */
  lemma {:induction false} SettingsFailureSticks(tiles: seq<Option<LayerTile>>, more: seq<Option<LayerTile>>)
    requires Settings(tiles).Failure?
    ensures Settings(tiles + more) == Settings(tiles)
    decreases |tiles|
  {
    assert (tiles + more)[0] == tiles[0];
    assert (tiles + more)[1..] == tiles[1..] + more;
    if Setting(tiles[0]).Success? {
      SettingsFailureSticks(tiles[1..], more);
    }
  }

  /** The two innermost loops: the 64 settings of sub-chunk (cx, cy), row by row. */
  method SplitChunk(chunk: Chunk, cx: int, cy: int) returns (r: Result<seq<TileSetting>, TileError>)
    ensures r == Settings(SubChunkTiles(chunk, cx, cy))
  {
    ghost var all := SubChunkTiles(chunk, cx, cy);
    var chunkData: seq<TileSetting> := [];
    var y := cy * 8;
    while y < (cy + 1) * 8
      invariant cy * 8 <= y <= (cy + 1) * 8
      invariant Settings(all[..(y - cy * 8) * 8]) == Success(chunkData)
    {
      var x := cx * 8;
      while x < (cx + 1) * 8
        invariant cx * 8 <= x <= (cx + 1) * 8
        invariant Settings(all[..(y - cy * 8) * 8 + (x - cx * 8)]) == Success(chunkData)
      {
        ghost var k := (y - cy * 8) * 8 + (x - cx * 8);
        assert all[k] == chunk(x, y);
        assert all[..k + 1] == all[..k] + [all[k]];
        SettingsSnoc(all[..k], all[k]);
        var setting := Setting(chunk(x, y));
        if setting.Failure? {
          SettingsFailureSticks(all[..k + 1], all[k + 1..]);
          assert all[..k + 1] + all[k + 1..] == all;
          return Failure(setting.error);
        }
        chunkData := chunkData + [setting.value];
        x := x + 1;
      }
      y := y + 1;
    }
    assert all[..64] == all;
    r := Success(chunkData);
  }

  /** The 16x16 chunk an 8x8 key belongs to: each chunk (sx, sy) owns keys (2sx + cx, 2sy + cy), cx, cy in {0, 1}. */
  function Parent(k: Cell): (s: Cell)
    ensures 2 * s.0 <= k.0 < 2 * s.0 + 2 && 2 * s.1 <= k.1 < 2 * s.1 + 2
  {
    (k.0 / 2, k.1 / 2)
  }

  /** The key of quarter (cx, cy) of chunk s. */
  function Key(s: Cell, cx: int, cy: int): Cell {
    (s.0 * 2 + cx, s.1 * 2 + cy)
  }

  /** The order in which the chunk_y / chunk_x loops visit the quarters of a chunk. */
  function Quarter(k: Cell): (q: int)
    ensures 0 <= q < 4
  {
    var s := Parent(k);
    2 * (k.1 - 2 * s.1) + (k.0 - 2 * s.0)
  }

  /** Distinct chunks produce disjoint keys: a key determines its chunk and its quarter. */
  lemma KeyParts(s: Cell, cx: int, cy: int)
    requires 0 <= cx < 2 && 0 <= cy < 2
    ensures Parent(Key(s, cx, cy)) == s && Quarter(Key(s, cx, cy)) == 2 * cy + cx
    ensures forall k :: Parent(k) == s && Quarter(k) == 2 * cy + cx ==> k == Key(s, cx, cy)
  {
  }

  /** The settings stored under key `k`: those of its quarter of its chunk. */
  function KeyEntry(chunks: map<Cell, Chunk>, k: Cell): Result<seq<TileSetting>, TileError>
    requires Parent(k) in chunks
  {
    var s := Parent(k);
    Settings(SubChunkTiles(chunks[s], k.0 - 2 * s.0, k.1 - 2 * s.1))
  }

  /** `tiles` is `tiles0` with the first n quarters of chunk s inserted. */
  ghost predicate Filled(tiles0: map<Cell, seq<TileSetting>>, tiles: map<Cell, seq<TileSetting>>,
                         chunks: map<Cell, Chunk>, s: Cell, n: int)
    requires s in chunks
  {
    && (forall k :: k in tiles <==> k in tiles0 || (Parent(k) == s && Quarter(k) < n))
    && (forall k :: k in tiles && !(Parent(k) == s && Quarter(k) < n) ==> tiles[k] == tiles0[k])
    && (forall k :: k in tiles && Parent(k) == s && Quarter(k) < n ==> KeyEntry(chunks, k) == Success(tiles[k]))
  }

  lemma FilledStep(tiles0: map<Cell, seq<TileSetting>>, tiles: map<Cell, seq<TileSetting>>,
                   chunks: map<Cell, Chunk>, s: Cell, cx: int, cy: int, data: seq<TileSetting>)
    requires s in chunks && 0 <= cx < 2 && 0 <= cy < 2
    requires Filled(tiles0, tiles, chunks, s, 2 * cy + cx)
    requires Settings(SubChunkTiles(chunks[s], cx, cy)) == Success(data)
    ensures Filled(tiles0, tiles[Key(s, cx, cy) := data], chunks, s, 2 * cy + cx + 1)
  {
    KeyParts(s, cx, cy);
  }

  /** The chunk_y / chunk_x loops for one 16x16 chunk: four inserts, or the first panic. */
  method InsertQuarters(tiles0: map<Cell, seq<TileSetting>>, chunks: map<Cell, Chunk>, s: Cell)
    returns (r: Result<map<Cell, seq<TileSetting>>, TileError>)
    requires s in chunks
    ensures r.Failure? <==> exists cx, cy :: 0 <= cx < 2 && 0 <= cy < 2 && Settings(SubChunkTiles(chunks[s], cx, cy)).Failure?
    ensures r.Success? ==> forall k :: k in r.value <==> k in tiles0 || Parent(k) == s
    ensures r.Success? ==> forall k :: k in r.value && Parent(k) != s ==> r.value[k] == tiles0[k]
    ensures r.Success? ==> forall k :: k in r.value && Parent(k) == s ==> KeyEntry(chunks, k) == Success(r.value[k])
  {
    var tiles := tiles0;
    var chunkY := 0;
    while chunkY < 2
      invariant 0 <= chunkY <= 2
      invariant Filled(tiles0, tiles, chunks, s, 2 * chunkY)
      invariant forall cx, cy :: 0 <= cx < 2 && 0 <= cy < chunkY ==> Settings(SubChunkTiles(chunks[s], cx, cy)).Success?
    {
      var chunkX := 0;
      while chunkX < 2
        invariant 0 <= chunkX <= 2
        invariant Filled(tiles0, tiles, chunks, s, 2 * chunkY + chunkX)
        invariant forall cx, cy :: 0 <= cx < 2 && 0 <= cy < 2 && 2 * cy + cx < 2 * chunkY + chunkX ==>
          Settings(SubChunkTiles(chunks[s], cx, cy)).Success?
      {
        var chunkData := SplitChunk(chunks[s], chunkX, chunkY);
        if chunkData.Failure? {
          return Failure(chunkData.error);
        }
        FilledStep(tiles0, tiles, chunks, s, chunkX, chunkY, chunkData.value);
        tiles := tiles[Key(s, chunkX, chunkY) := chunkData.value];
        chunkX := chunkX + 1;
      }
      chunkY := chunkY + 1;
    }
    r := Success(tiles);
  }

  /**
   * `extract_tiles`: every 16x16 chunk of the layer, in any order, split into
   * four 8x8 chunks of 64 settings. The result has a key exactly for the
   * quarters of the layer's chunks; a tile of an unknown tileset panics.
   */
  method ExtractTiles(chunks: map<Cell, Chunk>) returns (r: Result<map<Cell, seq<TileSetting>>, TileError>)
    ensures r.Failure? <==>
      exists s, cx, cy :: s in chunks && 0 <= cx < 2 && 0 <= cy < 2 && Settings(SubChunkTiles(chunks[s], cx, cy)).Failure?
    ensures r.Success? ==> forall k :: k in r.value <==> Parent(k) in chunks
    ensures r.Success? ==> forall k :: k in r.value ==> Parent(k) in chunks && KeyEntry(chunks, k) == Success(r.value[k])
  {
    var tiles: map<Cell, seq<TileSetting>> := map[];
    var remaining := chunks.Keys;
    while remaining != {}
      invariant remaining <= chunks.Keys
      invariant forall s, cx, cy :: s in chunks && s !in remaining && 0 <= cx < 2 && 0 <= cy < 2 ==>
        Settings(SubChunkTiles(chunks[s], cx, cy)).Success?
      invariant forall k :: k in tiles <==> Parent(k) in chunks && Parent(k) !in remaining
      invariant forall k :: k in tiles ==> Parent(k) in chunks && KeyEntry(chunks, k) == Success(tiles[k])
      decreases |remaining|
    {
      var s :| s in remaining;
      var quarters := InsertQuarters(tiles, chunks, s);
      if quarters.Failure? {
        return Failure(quarters.error);
      }
      tiles := quarters.value;
      remaining := remaining - {s};
    }
    r := Success(tiles);
  }

  /** Every stored 8x8 chunk holds 64 settings, and entry i is tile (8cx + i mod 8, 8cy + i div 8) of its 16x16 chunk. */
  lemma EntryLayout(chunks: map<Cell, Chunk>, k: Cell, data: seq<TileSetting>, i: int)
    requires Parent(k) in chunks && KeyEntry(chunks, k) == Success(data)
    requires 0 <= i < 64
    ensures var s := Parent(k); var cx := k.0 - 2 * s.0; var cy := k.1 - 2 * s.1;
      && |data| == 64
      && Setting(chunks[s](8 * cx + i % 8, 8 * cy + i / 8)) == Success(data[i])
  {
    var s := Parent(k);
    SettingsPointwise(SubChunkTiles(chunks[s], k.0 - 2 * s.0, k.1 - 2 * s.1));
  }
}
