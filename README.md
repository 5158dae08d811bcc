# Khiera Quest core, in Dafny

A model of the core of Khiera Quest, a Game Boy Advance platformer with
radial gravity: the player walks around planets and is pulled towards the
nearest gravitational surface. The model has two halves.

- **Build time (the map compiler).**
  - `ColliderExtract` lowers the Tiled object layers into colliders. It then
    rasterises each collider into grid boxes (`occupied_boxes`) and builds
    the box-to-collider index (`spacial_colliders`).
  - `ScrollStops` turns the "Scroll stops" polylines into per-cell camera
    bounds.
  - `MaptileExtract` splits 16x16 tile chunks into 8x8 chunks.
  - `Spiral` is the square-ring cell generator.
- **Run time.**
  - `Util` holds the collision primitives: circles, line segments and arcs,
    and the tagged collider that dispatches over them.
  - `MapLib` holds the lookups into the generated tables.
  - `PowerUps` holds the collectable objects.
  - `GameScene` holds the player and the game scene: input, gravity,
    collisions, ground classification, death and recovery, the camera and
    the power-up pass.

Numbers are agb's `Num<i32, 8>`, modelled as their raw integer. The value
1.0 is 256, and `*` floors the raw product divided by 256 (`Fixnum`).

The functions of agb that are not part of this model are `magnitude`,
`fast_normalise` and `Rect::contains_point`. They appear as fields of a
`Numerics` parameter, so every property proved here holds for any
implementation of them.

Each imperative routine becomes a method with loops or field updates: the
`Player` and `Game` classes, the spiral iterator, and the map-compiler loops.
Most methods are proved equal to a pure function that states their meaning,
and the properties are proved about that function. `Game.PhysicsFrame` and
`Game.Update` are the exceptions. They chain several such methods, and their
contracts state chosen properties of the result rather than one composed
function (see "Left out").

## Model

| member | source | states |
|---|---|---|
| Util.TagPartition | util/src/lib.rs:21-33 | every tag either kills the player or is a collision, never both; a gravitational tag is a collision |
| Util.CircleCollidesSymmetric | util/src/lib.rs:88-92 | circle-circle intersection gives the same answer whichever circle asks |
| Util.CircleOvershootAtContact | util/src/lib.rs:98-103 | circles exactly the sum of their radii apart get a zero correction |
| Util.LineClosestPointCases | util/src/lib.rs:145-165 | the closest point on a line is its start when dot <= 0, its end when dot >= length², otherwise the projection divided by floor(length²) |
| Util.LineClosestPointAtEnds | util/src/lib.rs:145-165 | a line's start is its own closest point, and so is its end when the stored length does not exceed the real one |
| Util.LineCollidesAtEnds | util/src/lib.rs:123-127 | a circle centred on a line's start touches the line whatever its radius, and so does one centred on its end when the stored length does not exceed the real one; `Circle::collides_line` agrees |
| Util.LineOvershootAlongNormal | util/src/lib.rs:129-143 | a line's correction is a multiple of its stored normal by at most the circle's radius |
| Util.Line.ProjectionDivisor | util/src/lib.rs:161 | the integer divisor floor(length²) is at least 1 for a line at least one unit long |
| Util.Line.Distance | util/src/lib.rs:139 | the point-to-line distance is never negative |
| Util.Arc.ClosestPoint | util/src/lib.rs:193-211 | an arc's closest point is the circle's closest point, or the start end or the end end of the span |
| Util.ArcClosestPointChoice | util/src/lib.rs:193-211 | the circle's point when it is in the span; otherwise the end whose direction has the larger dot product, the end direction on ties |
| Util.TangentContact | util/src/lib.rs:177-180 | at exact tangency circles and lines report a collision and arcs do not (strict comparison) |
| Util.ArcOvershootAtContact | util/src/lib.rs:186-191 | a circle touching an arc's circle from inside gets a zero correction |
| Util.ColliderOvershootAlongNormal | util/src/lib.rs:50-64 | for every collider kind, the correction `overshoot` applies is a multiple of the normal `normal_circle` reports for the same circle |
| Util.ColliderCirclesSymmetric | util/src/lib.rs:42-48 | two circle colliders agree on whether they touch |
| Spiral.StepKeepsInv | map-compiler/src/spiral.rs:34-62 | every step keeps the cursor on the edge of its current ring, within the side length |
| Spiral.StepMovesToNeighbour | map-compiler/src/spiral.rs:37-61 | after the centre, each step moves exactly one cell horizontally or vertically |
| Spiral.StepGrowsRing | map-compiler/src/spiral.rs:55-61 | the side length grows by one exactly when the left side reaches the top corner |
| Spiral.FirstCursorsStep | map-compiler/src/spiral.rs:34-62 | the listed 26 cursor states follow each other under `next` |
| Spiral.FirstCursorsOffsets | map-compiler/src/spiral.rs:64 | the listed offsets are the positions those cursors return |
| Spiral.FirstTwentyFive | map-compiler/src/spiral.rs:72-103 | the first 25 calls from (0, 0) return exactly the sequence of the unit test |
| Spiral.FirstOffsetsDistinct | map-compiler/src/spiral.rs:76-102 | no cell is returned twice among the first 25 |
| Spiral.FirstOffsetsBounded | map-compiler/src/spiral.rs:76-102 | the first 9 offsets lie in the 3x3 square, the first 25 in the 5x5 square |
| Spiral.FirstOffsetsCover | map-compiler/src/spiral.rs:76-102 | every cell of the 3x3 square is among the first 9 offsets, every cell of the 5x5 among the first 25 |
| Spiral.FirstSquaresCovered | map-compiler/src/spiral.rs:72-103 | the first 9 outputs are exactly the 3x3 square and the first 25 exactly the 5x5 square, each cell once |
| Spiral.SpiralIterator.constructor | map-compiler/src/spiral.rs:19-28 | the iterator starts at the centre with side length 1 and keeps the centre |
| Spiral.SpiralIterator.Next | map-compiler/src/spiral.rs:34-65 | one step of the cursor; always Some(centre + offset); the first call yields the centre; later calls move to a neighbour |
| ColliderExtract.FloorPoint | map-compiler/src/collider_extract.rs:16 | the integer pixel containing a fixed-point position |
| ColliderExtract.OccupiedCircle | map-compiler/src/collider_extract.rs:15-38 | the reported boxes are exactly those in the candidate range where a diagonal corner is within radius + 8 or the centre is in the box's column or row; order is column-major and strictly increasing, so no box appears twice |
| ColliderExtract.BoxesOf | map-compiler/src/collider_extract.rs:47 | each walked pixel maps to its box by truncating division |
| ColliderExtract.CollapseSnoc | map-compiler/src/collider_extract.rs:47-51 | one more pixel is reported iff its box differs from the current one |
| ColliderExtract.CollapseNoRepeat | map-compiler/src/collider_extract.rs:42-51 | no two consecutive reports of a line are the same box, and the first differs from the start marker |
| ColliderExtract.CollapseMembers | map-compiler/src/collider_extract.rs:42-51 | every box of the walk is reported, and only boxes of the walk are |
| ColliderExtract.CollapseRun | map-compiler/src/collider_extract.rs:47-51 | a walk that is one run of pixels in one box gives a single report, none if it is the start box |
| ColliderExtract.CollapseAppend | map-compiler/src/collider_extract.rs:42-51 | collapsing a walk in two pieces gives the first piece's reports, then the second's compared against the box the first ended in |
| ColliderExtract.CollapseRunInside | map-compiler/src/collider_extract.rs:47-51 | a run of pixels in one box anywhere in the walk adds at most that one report, none if the walk was already in that box |
| ColliderExtract.OccupiedLine | map-compiler/src/collider_extract.rs:39-53 | the line's reports are the boxes of the walked pixels with consecutive repeats dropped |
| ColliderExtract.OccupiedBoxes | map-compiler/src/collider_extract.rs:10-55 | a box is reported iff it is in the collider's occupied set; a circle reports no box twice, a line no box twice in a row |
| ColliderExtract.PushIndex | map-compiler/src/collider_extract.rs:61-63 | index idx is added to the list of every reported box (created if missing); lists stay nondecreasing |
| ColliderExtract.AppendLargest | map-compiler/src/collider_extract.rs:62 | pushing an index no smaller than any listed keeps the list nondecreasing |
| ColliderExtract.PushIndexExtends | map-compiler/src/collider_extract.rs:60-64 | after collider idx the lists cover exactly the colliders up to idx |
| ColliderExtract.SpacialColliders | map-compiler/src/collider_extract.rs:57-67 | an index is listed under a box iff that collider occupies the box; every list is non-empty and nondecreasing |
| ColliderExtract.TagFor | map-compiler/src/collider_extract.rs:92 | the gravity layer gives gravitational collision tags; the other layer gives collision-only tags |
| ColliderExtract.Corners | map-compiler/src/collider_extract.rs:114-127 | the corners visited: (last, 0, 1), then each window of three, then for a polygon (n-2, n-1, 0) |
| ColliderExtract.RoundCorners | map-compiler/src/collider_extract.rs:99-112 | one rounded corner per visited corner, in order |
| ColliderExtract.CornerCircles | map-compiler/src/collider_extract.rs:193-199 | one corner circle per rounded corner, in order |
| ColliderExtract.SideLines | map-compiler/src/collider_extract.rs:129-135 | each line runs from one corner's outgoing side start to the next corner's incoming side end |
| ColliderExtract.SideLinesSnoc | map-compiler/src/collider_extract.rs:131-135 | one more corner appends exactly one line |
| ColliderExtract.RoundAllCorners | map-compiler/src/collider_extract.rs:95-127 | the corner loop yields the rounded corners and their circles |
| ColliderExtract.JoinCorners | map-compiler/src/collider_extract.rs:129-143 | the join loop yields the side lines, plus the closing line for a polygon |
| ColliderExtract.LowerPoly | map-compiler/src/collider_extract.rs:95-144 | the polygon/polyline arm yields the circles followed by the lines |
| ColliderExtract.JoinLinesShape | map-compiler/src/collider_extract.rs:129-143 | the join phase gives one line per corner for a polygon and one fewer for a polyline, all carrying the layer's tag |
| ColliderExtract.CornerCollidersShape | map-compiler/src/collider_extract.rs:95-144 | one radius-2 circle per rounded corner comes first, then only lines, all carrying the layer's tag |
| ColliderExtract.PolyCounts | map-compiler/src/collider_extract.rs:95-144 | a polygon of n points gives n circles of radius 2 then n lines; a polyline gives n-1 circles then n-2 lines; all carry the layer's tag |
| ColliderExtract.LowerLayerStep | map-compiler/src/collider_extract.rs:72-147 | one object of the loop appends its colliders, or ends the loop with its panic |
| ColliderExtract.LowerLayerEnds | map-compiler/src/collider_extract.rs:69-150 | the loop starts with nothing collected and, once every object is done, returns exactly what it collected |
| ColliderExtract.LowerObjectOutcome | map-compiler/src/collider_extract.rs:73-146 | one object panics iff it is a rectangle, an unsupported shape, a non-circular ellipse or a polygon/polyline of fewer than two points, each with its own reason; a circular ellipse gives one circle at its centre with half its width as radius and the layer's tag; a polygon or polyline gives its rounded colliders |
| ColliderExtract.ExtractFromObject | map-compiler/src/collider_extract.rs:73-146 | the loop body for one object computes `LowerObject`, and fails exactly for the unsupported shapes |
| ColliderExtract.ExtractFromLayer | map-compiler/src/collider_extract.rs:69-150 | the colliders of all objects in order, or the first panic |
| ColliderExtract.LayerTags | map-compiler/src/collider_extract.rs:69-150 | every collider of a lowered layer carries the layer's tag |
| ColliderExtract.LayerFailsIffBadObject | map-compiler/src/collider_extract.rs:72-147 | a layer fails iff one of its objects is a rectangle, an unsupported shape, a non-circular ellipse or a polygon/polyline of fewer than two points |
| ColliderExtract.ExtractColliders | map-compiler/src/collider_extract.rs:152-169 | a missing layer panics; otherwise the gravity layer's colliders followed by the other layer's, or the first panic |
| ScrollStops.ObjectSegments | map-compiler/src/scroll_stop.rs:20-37 | a polyline of k points gives its k-1 consecutive point pairs, moved by the object's position; other shapes give none |
| ScrollStops.SegmentsCount | map-compiler/src/scroll_stop.rs:20-37 | the layer's segment count is the sum over its polylines of (points - 1) |
| ScrollStops.Signum | map-compiler/src/scroll_stop.rs:50 | the sign is 1 for a non-negative difference (+0.0 counts as positive) and -1 otherwise |
| ScrollStops.SegmentEffect | map-compiler/src/scroll_stop.rs:42-96 | a segment is rejected iff it is neither vertical nor horizontal |
| ScrollStops.VerticalEffect | map-compiler/src/scroll_stop.rs:47-71 | a vertical segment writes minimum_x (x + 120) into the three columns from its own, or maximum_x (x - 120) into the three before, over rows start/128 up to ceil(end/128) |
| ScrollStops.HorizontalEffect | map-compiler/src/scroll_stop.rs:72-96 | a horizontal segment writes into the three rows from its own down: maximum_y (y - 80) when it points left, otherwise minimum_y (y + 80) |
| ScrollStops.VerticalRowsOverlap | map-compiler/src/scroll_stop.rs:52-62 | on non-negative coordinates, the rows written are exactly those overlapping the segment |
| ScrollStops.ZeroLengthSegmentWrites | map-compiler/src/scroll_stop.rs:47-71 | a zero-length segment counts as vertical and pointing down, and still writes |
| ScrollStops.NegativeColumnTruncates | map-compiler/src/scroll_stop.rs:55 | columns are found by truncating division, so x = -10 lands in column 0 |
| ScrollStops.SetField | map-compiler/src/scroll_stop.rs:64-69 | writing one bound keeps the other three |
| ScrollStops.RectCellsMembers | map-compiler/src/scroll_stop.rs:62-63 | the nested loops visit exactly the cells of the rectangle |
| ScrollStops.ApplyEffectCells | map-compiler/src/scroll_stop.rs:62-71 | a segment creates and writes exactly its rectangle's cells; other bounds and other cells are unchanged |
| ScrollStops.LaterSegmentOverwrites | map-compiler/src/scroll_stop.rs:41-97 | of two segments writing the same bound of a cell, the later one wins |
| ScrollStops.FillRect | map-compiler/src/scroll_stop.rs:62-71 | the nested loops compute the effect of one segment on the map |
| ScrollStops.FillFailsIffSlanted | map-compiler/src/scroll_stop.rs:41-45 | filling panics iff some segment is not axis aligned |
| ScrollStops.FillScrollStops | map-compiler/src/scroll_stop.rs:39-97 | the loop over all segments yields the filled map or the axis-alignment panic |
| ScrollStops.GetScrollStops | map-compiler/src/scroll_stop.rs:13-97 | a missing layer panics; otherwise the map filled from all the layer's segments |
| MaptileExtract.Setting | map-compiler/src/maptile_extract.rs:33-50 | an empty position gives (Planets, no flips, 65535); "planets" and "platforms" map to their tile sets; any other name panics; the id is truncated to 16 bits |
| MaptileExtract.SubChunkTiles | map-compiler/src/maptile_extract.rs:31-32 | the 64 positions of a sub-chunk in row-major order |
| MaptileExtract.SettingsPointwise | map-compiler/src/maptile_extract.rs:31-53 | a successful run has one setting per position, each that position's setting; a run fails iff some position fails |
| MaptileExtract.SettingsSnoc | map-compiler/src/maptile_extract.rs:33-51 | extending a successful run appends the next setting, or fails with it |
| MaptileExtract.SettingsFailureSticks | map-compiler/src/maptile_extract.rs:38 | the first panic wins |
| MaptileExtract.SplitChunk | map-compiler/src/maptile_extract.rs:29-53 | the two inner loops produce the sub-chunk's 64 settings, or the first panic |
| MaptileExtract.Parent | map-compiler/src/maptile_extract.rs:55-58 | each 16x16 chunk owns the four keys (2sx + cx, 2sy + cy) |
| MaptileExtract.Quarter | map-compiler/src/maptile_extract.rs:27-28 | the position of a key in the chunk_y / chunk_x loop order |
| MaptileExtract.KeyParts | map-compiler/src/maptile_extract.rs:55-58 | a key determines its chunk and its quarter, so different chunks never write the same key |
| MaptileExtract.FilledStep | map-compiler/src/maptile_extract.rs:55-58 | inserting one quarter extends the filled part by exactly that key |
| MaptileExtract.InsertQuarters | map-compiler/src/maptile_extract.rs:27-60 | one chunk adds exactly its four keys with their settings and keeps the other entries; it fails iff a quarter fails |
| MaptileExtract.ExtractTiles | map-compiler/src/maptile_extract.rs:17-64 | the result has a key exactly for the quarters of the layer's chunks, each holding its settings; it fails iff some quarter holds a tile of an unknown set |
| MaptileExtract.EntryLayout | map-compiler/src/maptile_extract.rs:31-58 | entry i of key k is the setting of tile (8cx + i mod 8, 8cy + i div 8) of its chunk, and every entry holds 64 settings |
| MapLib.Blanks | map/src/lib.rs:63 | the transparent chunk is 64 copies of the blank tile |
| MapLib.CellOf | map/src/lib.rs:25-26 | flooring division puts a pixel in the cell that contains it |
| MapLib.IntervalUnique | map/src/lib.rs:25-26 | a coordinate lies in exactly one cell interval |
| MapLib.CellUnique | map/src/lib.rs:25-26 | a pixel lies in exactly one cell |
| MapLib.CellOfUnique | map/src/lib.rs:25-26 | any cell containing the pixel is the computed cell |
| MapLib.GetNearby | map/src/lib.rs:24-32 | the colliders listed for the cell containing (x, y), or none |
| MapLib.GetScrollStop | map/src/lib.rs:34-39 | the scroll stop of the 128-pixel cell containing (x, y), if there is one |
| MapLib.NegativeCoordinatesFloor | map/src/lib.rs:24-39 | a pixel left of or above the origin is looked up in cell -1 |
| MapLib.NearestIndex | map/src/lib.rs:16-22 | an index at minimal squared distance; no earlier index is as near (the first minimum, as `min_by_key` keeps) |
| MapLib.GetRecoveryPoint | map/src/lib.rs:16-22 | None iff there are no recovery points; otherwise a listed point no farther than any other |
| MapLib.UniqueNearestChosen | map/src/lib.rs:16-22 | a strictly nearest recovery point is the one chosen |
| MapLib.TileChunk | map/src/lib.rs:63-77 | the stored chunk, or 64 blank tiles |
| MapLib.GetPlanetTileChunk | map/src/lib.rs:65-70 | the stored planet chunk, or 64 blank tiles of id 1023 in the planet set |
| MapLib.GetPlatformTileChunk | map/src/lib.rs:72-77 | the stored platform chunk, or 64 unflipped blank tiles of id 1023 |
| PowerUps.PowerUpObject.Update | built-to-scale/src/scenes/game/powerups.rs:37-43 | hands over the power-up iff the player is strictly within 16 pixels |
| PowerUps.PowerUpObject.Visible | built-to-scale/src/scenes/game/powerups.rs:45-48 | not drawn iff farther than a screen width from the camera |
| PowerUps.ExactlySixteenAway | built-to-scale/src/scenes/game/powerups.rs:38 | a player exactly 16 pixels away along an axis collects nothing |
| PowerUps.CollectedAtLocation | built-to-scale/src/scenes/game/powerups.rs:37-43 | a player standing on the power-up collects it |
| PowerUps.CollectableIsVisible | built-to-scale/src/scenes/game/powerups.rs:37-48 | with the camera on the player, a collectable power-up is also drawn |
| GameScene.InitialPlayer | built-to-scale/src/scenes/game.rs:225-244 | the player `Game::new` creates satisfies the player invariant |
| GameScene.FaceTowards | built-to-scale/src/scenes/game.rs:85-100 | after `update_facing`, `get_normal` returns the given direction; nothing else changes |
| GameScene.DirectionInput | built-to-scale/src/scenes/game.rs:102-146 | no input changes nothing; otherwise the facing follows the sign, the dash is spent iff allowed, and only speed, facing and dash change |
| GameScene.DashSpentOnce | built-to-scale/src/scenes/game.rs:104-111 | a spent dash cannot be spent again and stays spent |
| GameScene.JumpInput | built-to-scale/src/scenes/game.rs:148-164 | without a jump in hand nothing changes; otherwise the player jumps, uses one jump and restarts the frame count; the invariant is kept |
| GameScene.FrameTick | built-to-scale/src/scenes/game.rs:170-179 | the frame wraps at 2^32; after 32 frames a jump ends with a jump in hand if any remain, else a fall |
| GameScene.Ticks | built-to-scale/src/scenes/game.rs:170-179 | any number of frames keeps the player invariant |
| GameScene.TicksWhileJumping | built-to-scale/src/scenes/game.rs:170-179 | for the first 32 frames of a jump the player keeps jumping |
| GameScene.LastJumpFalls | built-to-scale/src/scenes/game.rs:148-179 | a jump with the last remaining jump ends in a fall 33 frames later |
| GameScene.ApplyPowerUp | built-to-scale/src/scenes/game.rs:199-206 | jump boost sets jump speed 3.5; speed boost enables the dash; nothing else changes |
| GameScene.ApplyPowerUpIdempotent | built-to-scale/src/scenes/game.rs:199-206 | collecting the same kind twice equals collecting it once |
| GameScene.Settle | built-to-scale/src/scenes/game.rs:386-388 | the speed is zeroed iff its squared magnitude is below 0.005 |
| GameScene.SettleThreshold | built-to-scale/src/scenes/game.rs:386-388 | in raw units: zeroed iff both components are below 16/256 in size |
| GameScene.SquareBelowOne | built-to-scale/src/scenes/game.rs:386 | the fixed-point square of a is zero iff abs(a) < 16/256 |
| GameScene.GroundContact | built-to-scale/src/scenes/game.rs:353-388 | on ground iff the contact cosine exceeds 0.7; ground restores jumps and dash; friction 0.8, 0.9 or 0.95; then the settle rule |
| GameScene.LandingAllowsJump | built-to-scale/src/scenes/game.rs:353-372 | after landing, the next jump input is taken |
| GameScene.Landing | built-to-scale/src/scenes/game.rs:353-392 | the end of the physics frame keeps the player invariant |
| GameScene.LandingClassifies | built-to-scale/src/scenes/game.rs:353-392 | the ground classification holds; the speed is zero or at least the settle threshold; the normal points away from gravity; the player moves by its new speed |
| GameScene.GravityIndex | built-to-scale/src/scenes/game.rs:443-454 | None iff no collider is gravitational; otherwise a gravitational collider whose closest point is nearest, the first on ties |
| GameScene.GravitySource | built-to-scale/src/scenes/game.rs:443-454 | the chosen gravitational collider and its closest point, no farther than any other gravitational collider's |
| GameScene.GravityIgnoresOthers | built-to-scale/src/scenes/game.rs:447-452 | adding a non-gravitational collider never changes the gravity source |
| GameScene.Nearby | built-to-scale/src/scenes/game.rs:576-578 | the colliders of the player's cell, all valid |
| GameScene.Death | built-to-scale/src/scenes/game.rs:265-285 | recovery starts, at time 0, from the death position towards the nearest recovery point; it panics (None) without a recovery point, a previous gravity source, or a gravity source near the recovery point |
| GameScene.StopInto | built-to-scale/src/scenes/game.rs:304-307 | the speed is untouched unless it moves into the surface |
| GameScene.CollideOne | built-to-scale/src/scenes/game.rs:291-317 | a miss changes nothing; a killing collider starts recovery; a solid one sets the surface normal, removes speed into it, pushes the player out and raises the max cosine |
| GameScene.CollideAll | built-to-scale/src/scenes/game.rs:288-321 | the loop leaves the player state unchanged or switches it to recovering |
| GameScene.NoContactIff | built-to-scale/src/scenes/game.rs:288-321 | no contact is reported iff no collision collider touches the player's starting circle; without contact the player is unchanged |
| GameScene.ContactAtLeastMinusOne | built-to-scale/src/scenes/game.rs:311 | a reported contact cosine is never below -1 |
| GameScene.CollideAllStops | built-to-scale/src/scenes/game.rs:296-298 | once a death panics, the rest of the loop does not matter |
| GameScene.ClampToScrollStop | built-to-scale/src/scenes/game.rs:408-437 | each bound applies only when the camera is already on its allowed side, and then holds for the destination; otherwise the destination passes through |
| GameScene.Chase | built-to-scale/src/scenes/game.rs:396-406 | the camera moves 1.25 towards the target only when the target leaves the 64x32 box |
| GameScene.CameraDestination | built-to-scale/src/scenes/game.rs:395-440 | chase, then clamp by the scroll stop of the camera's own cell, if any |
| GameScene.CameraStaysInBounds | built-to-scale/src/scenes/game.rs:408-437 | a camera inside its cell's x bounds stays inside them |
| GameScene.RecoveryParameter | built-to-scale/src/scenes/game.rs:485-486 | the interpolation parameter lies in [0, 1) and is 0 only at time 16 |
| GameScene.RecoveryStep | built-to-scale/src/scenes/game.rs:478-506 | frames 1-15 hold the player still; 16-63 move only its position; 64-79 wait; from 80 play resumes with the pop at the player |
| GameScene.RecoveryStartsWhereDied | built-to-scale/src/scenes/game.rs:484-497 | the interpolation starts exactly at the death position |
| GameScene.RecoveryTakesEightyFrames | built-to-scale/src/scenes/game.rs:478-506 | a recovery from time 0 returns to play after exactly 80 frames |
| GameScene.Uncollected | built-to-scale/src/scenes/game.rs:515-523 | the retained power-ups are exactly those not in reach |
| GameScene.Collect | built-to-scale/src/scenes/game.rs:515-523 | only jump speed and dash change; any jump boost in reach sets jump speed 3.5; nothing in reach changes nothing |
| GameScene.Player.constructor | built-to-scale/src/scenes/game.rs:225-244 | the initial player of `Game::new` |
| GameScene.Player.ApplyContact | built-to-scale/src/scenes/game.rs:353-388 | the fields after the contact classification are those of `GroundContact` |
| GameScene.Player.Land | built-to-scale/src/scenes/game.rs:353-392 | the fields after the end of the physics frame are those of `Landing` |
| GameScene.Player.Fall | built-to-scale/src/scenes/game.rs:343-351 | gravity is a tenth of the direction, or 1/128 while a held jump rises; only speed changes |
| GameScene.Player.UpdateFacing | built-to-scale/src/scenes/game.rs:85-96 | the fields after `update_facing` are those of `FaceTowards` |
| GameScene.Player.HandleDirectionInput | built-to-scale/src/scenes/game.rs:102-146 | the fields after the input are those of `DirectionInput` |
| GameScene.Player.HandleJumpInput | built-to-scale/src/scenes/game.rs:148-164 | the fields after the jump are those of `JumpInput` |
| GameScene.Player.Frame | built-to-scale/src/scenes/game.rs:170-179 | the fields after `frame` are those of `FrameTick` |
| GameScene.Player.ApplyPowerup | built-to-scale/src/scenes/game.rs:199-206 | the fields after `apply_powerup` are those of `ApplyPowerUp` |
| GameScene.Game.constructor | built-to-scale/src/scenes/game.rs:220-255 | camera at the map's start, the initial player, no gravity source, playing with no pop |
| GameScene.Game.HandlePlayerDeath | built-to-scale/src/scenes/game.rs:265-285 | switches to the recovery of `Death`, or reports the panic |
| GameScene.Game.CollideWith | built-to-scale/src/scenes/game.rs:292-317 | one loop iteration computes `CollideOne` on the game's state |
| GameScene.Game.HandleColliderCollisions | built-to-scale/src/scenes/game.rs:288-321 | the loop computes `CollideAll`; the camera, gravity source and power-ups are untouched |
| GameScene.Game.GetGravitySource | built-to-scale/src/scenes/game.rs:323-336 | with no colliders, the last source's closest point (a panic without one); otherwise the chosen source, which is remembered |
| GameScene.Game.PhysicsFrame | built-to-scale/src/scenes/game.rs:338-393 | after a frame the ground state matches the contact cosine; ground restores jumps and dash; the speed is zero or above the settle threshold; without contact the jumps are unchanged |
| GameScene.Game.UpdateCamera | built-to-scale/src/scenes/game.rs:395-440 | the new camera position is `CameraDestination` |
| GameScene.Game.CollectPowerUps | built-to-scale/src/scenes/game.rs:515-523 | the kept power-ups are `Uncollected` and the player is `Collect` of all in reach |
| GameScene.Game.FinishFrame | built-to-scale/src/scenes/game.rs:509-523 | the camera moves to `CameraDestination` of the player, then the power-up pass runs; the player's position and speed are unchanged |
| GameScene.Game.Update | built-to-scale/src/scenes/game.rs:461-524 | while playing, the pop timer counts down, saturating at 0; a recovering player never panics and takes its state, position and speed from `RecoveryStep`; the camera ends at `CameraDestination` of the final player; the power-up pass follows |

## Left out

- Rendering, sprites, sound, `display`, the screen position set by `update`, and `rendered_position` / `sprite`: these are output only.
- The floating-point geometry of the map compiler is a `Lowering` parameter: `from_f32`, `rounded_line_collider` (corner rounding with radius 2) and `get_line_collider`. The Bresenham rasteriser is the `walk` parameter.
- agb's `magnitude`, `fast_normalise` and `Rect::contains_point` are the `Numerics` parameter. No property depends on their values.
- The i32 range of `Num<i32, 8>` and of the map compiler's coordinates is not modelled: arithmetic is on unbounded integers. Only the player's `usize` frame counter wraps, at 2^32, as on the GBA.
- `Util.Line.ClosestPoint`: it requires a line at least one unit long. For a shorter line, floor(length²) is 0 and the source divides by zero.
- `ColliderExtract.OccupiedBoxes`: it requires a circle or line collider, because `occupied_boxes` has no arm for arcs.
- The grid cell side `BOX_SIZE` of the generated tables is not in any file of this model, so it is a positive parameter. The same holds for the length of the `BUBBLE_POP` animation (`bubblePopFrames`), the generated tables, `CAMERA_START` and `START_POINT`.
- Panics become error results: `Result`/`Option` in functions and an `ok` flag in methods. A recovering player's `u32` time would need 2^32 frames to overflow, so that overflow is not modelled.
- `HashMap` and `phf` iteration order, and the code generation of the map compiler (`optional_quote`, the `phf_codegen` output, map-compiler/src/lib.rs), are left out. The filled maps are modelled as values.
- `ScrollStops.ZeroLengthSegmentWrites`: the code takes `f32::signum` of a zero difference to be +1, so a zero-length segment is handled as a downward vertical segment and does write bounds. The model follows the code; it does not treat such a segment as a no-op.
- `ScrollStops.ObjectSegments`: polyline points are whole pixels. The source reads `f32` coordinates and truncates them with `as i32`; fractional coordinates are not modelled.
- `MaptileExtract.Setting`: the tile-set enum of the map compiler has no `Planets2`, although the runtime `MapTileSet` has one. The model follows each file as written.
- `GameScene.Game.constructor`: it takes the power-up objects as given. In `Game::new`, the call that builds them from the map's `POWER_UPS` table does not match the signature of `PowerUpObject::new`. `KindOf` maps the object's only kind, jump boost, to the map's `PowerUpKind`.
- `GameScene.Game.Update`: while playing, it states the pop timer, the invariant, the camera and the power-up pass. While recovering it also states the new state, position and speed. The per-step effects of input, physics, jump and frame are stated on `Player.HandleDirectionInput`, `Game.PhysicsFrame`, `Player.HandleJumpInput` and `Player.Frame`, not composed into one formula.
- `GameScene.Game.PhysicsFrame`: it states the ground classification and settle rule, not the exact new speed and position. Those are stated by `Player.Fall`, `Game.HandleColliderCollisions` and `Player.Land`, which it calls.
- The player's `AffineMatrix` translation fields (always 0 here) are not modelled.
- `state.rs`, `mission_logs.rs`, `resources.rs` and the web player are not part of this model.
