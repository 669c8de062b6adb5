# A verified model of the platformer's world core

This project models the core of a small libGDX platformer. It covers four parts:

- **GameWorld**: the collision list and coin blocks the constructor assembles from the Tiled map, and the per-frame `update`. The update predicts the move, resolves the X axis, then the Y axis with coin-block head bumps, then applies the backup floor, the clamp to the map and the coin-pop pruning. The score and stage counters are part of this too.
- **Block**: the grid block, including its moving poison variant.
- **GameCharacter**: its fields and the dash switch.
- **Constants**: the constants these parts read.

Modules:

| module | file | what it holds |
|---|---|---|
| `Geometry` | `geometry.dfy` | `Rect`, the open-interval `Overlaps`, `Max` and `Clamp` |
| `Constants` | `constants.dfy` | `TILE`, `MAX_JUMPS`, `DASH_TILES`, `DASH_DISTANCE`, `DASH_SPEED` |
| `Scoring` | `scoring.dfy` | the score/stage counters as a `Tally` value; `onCoinCollected` and `nextStage` as functions |
| `Coins` | `coins.dfy` | the coin-block record; `findCoinBlockByRect`; the coin-pop effect's lifetime and the pruning filter |
| `Collision` | `collision.dfy` | the update's passes as fold functions over the solid list (`XScan`, `DownScan`, `SettleScan`, `UpScan`) and the whole step `Step`; the X, falling and resting loops as methods proved equal to those folds |
| `CollisionFacts` | `collision_facts.dfy` | what the passes guarantee: when the player is stopped or grounded, coin conservation, when a coin is paid |
| `Loading` | `loading.dfy` | the constructor's object-layer loading and the merge by reference identity; the tile-layer scan as fold functions with exactness lemmas |
| `World` | `world.dfy` | class `GameWorld`, whose constructor, scan, update and counter methods change its fields and are proved against the functions above |
| `Blocks` | `block.dfy` | class `Block` |
| `Characters` | `character.dfy` | class `GameCharacter` |

Java object identity is modelled by indices:

- While the map loads, a map object is an index into an object table, so `containsRectInstance` becomes membership of an index.
- After loading, a coin block holds the position of its rectangle in the collision list, so `findCoinBlockByRect(r)` becomes a search for that position.

Float coordinates are modelled as reals.

## Model

| member | source | states |
|---|---|---|
| `Geometry.Max` | core/src/main/java/io/github/some_example_name/GameWorld.java:282 | the result is at least both arguments and is one of them |
| `Geometry.Clamp` | core/src/main/java/io/github/some_example_name/GameWorld.java:291-292 | with a non-empty range the result lies in it; a value in range is returned unchanged; a value below the range gives the lower bound; a value at or above the lower bound and above the upper one gives the upper bound |
| `Scoring.CollectKeepsTallyValid` | core/src/main/java/io/github/some_example_name/GameWorld.java:321-332 | collecting a non-negative amount keeps 0 <= score < 10 and stage >= 1; the stage rises by one iff score + amount reaches 10, and the score is then 0; otherwise the score is exactly score + amount |
| `Scoring.CollectDiscardsExcess` | core/src/main/java/io/github/some_example_name/GameWorld.java:321-332 | total progress (completed stages times 10 plus score) never grows by more than the amount, and grows by exactly the amount iff the stage boundary is not overshot |
| `Scoring.CollectOneCoin` | core/src/main/java/io/github/some_example_name/GameWorld.java:251 | the single coin of a head bump always counts as exactly one unit of progress and keeps the counters valid |
| `Coins.FindCoinBlock` | core/src/main/java/io/github/some_example_name/GameWorld.java:309-312 | a found block shares the rectangle and no earlier block does; nothing is found iff no block shares it |
| `Coins.ActiveCount` | core/src/main/java/io/github/some_example_name/GameWorld.java:43-48 | the number of blocks that can still pay is at most the number of blocks |
| `Coins.DeactivateCount` | core/src/main/java/io/github/some_example_name/GameWorld.java:252 | switching one active block off lowers the number of payable blocks by exactly one |
| `Coins.Spawn` | core/src/main/java/io/github/some_example_name/GameWorld.java:247-249 | a new coin pop starts alive, with nothing elapsed, at the given block centre and top |
| `Coins.AdvancePop` | core/src/main/java/io/github/some_example_name/CoinPopEffect.java:27-41 | a finished effect is unchanged; a running one keeps its anchor, adds dt to its elapsed time and stays alive iff the elapsed time is below the 0.45 s duration |
| `Coins.Survivors` | core/src/main/java/io/github/some_example_name/GameWorld.java:302-306 | pruning never lengthens the effect list |
| `Coins.SurvivorsFacts` | core/src/main/java/io/github/some_example_name/GameWorld.java:302-306 | every kept effect is alive and is the advanced form of some old effect; every effect still alive once advanced is kept |
| `Coins.SurvivorsFrom` | core/src/main/java/io/github/some_example_name/GameWorld.java:302-306 | the survivors of a suffix are its first effect, advanced, if still alive, followed by the survivors of the rest |
| `Collision.Collide` | core/src/main/java/io/github/some_example_name/GameWorld.java:217-277 | resolving both axes keeps the player's width and height |
| `Collision.Step` | core/src/main/java/io/github/some_example_name/GameWorld.java:204-295 | after one update the player lies inside the map: 0 <= x <= max(0, mapWidthPx - w), and likewise for y; the size is kept; when the resolved target fell below the floor line, the player is grounded and not moving down |
| `Collision.SweepX` | core/src/main/java/io/github/some_example_name/GameWorld.java:218-228 | the loop computes the X pass fold `XPass`; a player without horizontal velocity is not moved |
| `Collision.SweepDown` | core/src/main/java/io/github/some_example_name/GameWorld.java:259-266 | the falling loop computes the `DownScan` fold from the predicted target, ungrounded |
| `Collision.SweepSettle` | core/src/main/java/io/github/some_example_name/GameWorld.java:270-276 | the resting loop computes the `SettleScan` fold and leaves the velocity alone |
| `CollisionFacts.XScanUntouched` | core/src/main/java/io/github/some_example_name/GameWorld.java:218-228 | while the predicted rectangle overlaps no solid, the X pass changes nothing |
| `CollisionFacts.XScanStopsIff` | core/src/main/java/io/github/some_example_name/GameWorld.java:218-228 | a moving player ends the X pass stopped iff the predicted rectangle overlaps some solid; otherwise the pass changes nothing |
| `CollisionFacts.XScanAfterFirstHit` | core/src/main/java/io/github/some_example_name/GameWorld.java:219-226 | the first overlapped solid snaps the player to its near side for the direction of travel; later overlaps see the velocity already zero and snap to their right side, so the final position is the first snap or the right side of a later solid |
| `CollisionFacts.XPassStopsIff` | core/src/main/java/io/github/some_example_name/GameWorld.java:218-228 | the whole X pass: no horizontal velocity means no change; otherwise the velocity becomes zero iff some solid overlaps, and an unstopped player keeps its prediction |
| `CollisionFacts.DownScanLands` | core/src/main/java/io/github/some_example_name/GameWorld.java:259-266 | a falling player is grounded iff some solid overlaps the predicted rectangle; it then stands on the top of a solid with zero velocity, and otherwise nothing changes |
| `CollisionFacts.SettleMatchesDown` | core/src/main/java/io/github/some_example_name/GameWorld.java:268-276 | for a player at rest the safety-net pass gives exactly the falling pass, and the velocity stays zero |
| `CollisionFacts.UpScanStops` | core/src/main/java/io/github/some_example_name/GameWorld.java:235-256 | a rising player is stopped iff some solid overlaps the predicted rectangle, and its top then sits under a solid; with no overlap the whole rising state is unchanged |
| `CollisionFacts.UpScanSinks` | core/src/main/java/io/github/some_example_name/GameWorld.java:238-242 | the rising pass never raises the vertical target |
| `CollisionFacts.UpStepConserves` | core/src/main/java/io/github/some_example_name/GameWorld.java:238-255 | one solid of the rising pass keeps the counters valid: a payout switches one active block off and adds one coin and one pop; otherwise nothing of the coin accounting changes |
| `CollisionFacts.UpScanConservesCoins` | core/src/main/java/io/github/some_example_name/GameWorld.java:237-256 | over the rising pass, blocks keep their rectangles and are never switched back on; progress plus payable blocks is constant, pops spawned plus payable blocks is constant, and earlier pops are kept |
| `CollisionFacts.UpScanPaysFromBelow` | core/src/main/java/io/github/some_example_name/GameWorld.java:239-253 | a block switched off by the rising pass shares a solid the pass visited, and the player's old top was at or below that solid's bottom while the predicted top reached it |
| `CollisionFacts.UpScanUntouched` | core/src/main/java/io/github/some_example_name/GameWorld.java:237-238 | while the predicted rectangle overlaps no solid, the rising pass changes nothing |
| `CollisionFacts.ActiveCountMonotone` | core/src/main/java/io/github/some_example_name/GameWorld.java:252 | when no block is switched back on, the number of payable blocks can only drop |
| `CollisionFacts.UpScanStepConserves` | core/src/main/java/io/github/some_example_name/GameWorld.java:237-256 | each solid of the rising pass keeps the counters valid and the coin accounting balanced |
| `CollisionFacts.UpScanConservesFrom` | core/src/main/java/io/github/some_example_name/GameWorld.java:237-256 | from any point of the rising pass to a later one, the counters stay valid and the coin accounting stays balanced |
| `CollisionFacts.UpScanHeadBump` | core/src/main/java/io/github/some_example_name/GameWorld.java:238-253 | the first solid the predicted rectangle overlaps, crossed from below and with an active coin block, stops the player under it, collects one coin, spawns a pop at the block's centre and top, and switches the block off |
| `CollisionFacts.PaidStaysPaid` | core/src/main/java/io/github/some_example_name/GameWorld.java:252 | under balanced accounting a spent block stays spent, progress does not drop and earlier pops are kept in place |
| `CollisionFacts.UpScanPaysOnHeadBump` | core/src/main/java/io/github/some_example_name/GameWorld.java:237-256 | a head bump pays: after the whole rising pass, that block is off, progress has grown by at least one coin, and its pop is in the effect list right after the old ones |
| `CollisionFacts.CollideConservesCoins` | core/src/main/java/io/github/some_example_name/GameWorld.java:217-277 | the same coin accounting over both axis passes |
| `CollisionFacts.StepConservesCoins` | core/src/main/java/io/github/some_example_name/GameWorld.java:204-295 | the same coin accounting over a whole update |
| `CollisionFacts.CollidePaysOnlyOnHeadBump` | core/src/main/java/io/github/some_example_name/GameWorld.java:234-256 | a block is paid in the axis passes only when the player was rising and its head crossed the block's bottom edge in this frame |
| `CollisionFacts.CollidePaysOnHeadBump` | core/src/main/java/io/github/some_example_name/GameWorld.java:234-256 | in the axis passes, a rising player whose predicted rectangle, at the X-resolved position, first overlaps a solid crossed from below with an active coin block is paid: the block is off, progress grows by at least one coin, and the pop is spawned |
| `CollisionFacts.StepPaysOnHeadBump` | core/src/main/java/io/github/some_example_name/GameWorld.java:204-256 | the same over a whole update, with the target predicted from the velocity |
| `CollisionFacts.StepPaysOnlyOnHeadBump` | core/src/main/java/io/github/some_example_name/GameWorld.java:204-256 | the same over a whole update, with the target predicted from the velocity |
| `CollisionFacts.AxisSeparationExample` | core/src/main/java/io/github/some_example_name/GameWorld.java:218-266 | on a concrete diagonal approach, the falling pass probes from the X-resolved position: the player is stopped at a wall and does not land on a tile it would have landed on at the raw predicted X |
| `Loading.ContainsRef` | core/src/main/java/io/github/some_example_name/GameWorld.java:198-201 | true iff the list holds this very object |
| `Loading.IndexOfRef` | core/src/main/java/io/github/some_example_name/GameWorld.java:118-122 | the first position holding the object |
| `Loading.IndexIsIdentity` | core/src/main/java/io/github/some_example_name/GameWorld.java:198-201 | in a list without duplicates, holding the object at a position and being its index coincide, so identity and index agree |
| `Loading.MergedFacts` | core/src/main/java/io/github/some_example_name/GameWorld.java:118-122 | the merge keeps the loaded solids as a prefix; every coin block's rectangle ends up in the list; anything added comes from the coin blocks and was not already a solid; no object appears twice |
| `Loading.MergeCoinRefs` | core/src/main/java/io/github/some_example_name/GameWorld.java:118-122 | the merge loop computes the `Merged` fold |
| `Loading.MergedLayersInRange` | core/src/main/java/io/github/some_example_name/GameWorld.java:105-122 | the merged list names only objects of the map and holds every coin block's rectangle |
| `Loading.BrickCoinsAddNothing` | core/src/main/java/io/github/some_example_name/GameWorld.java:108-122 | with the Bricks fallback every coin block is already a solid, so the merge adds nothing |
| `Loading.BrickCoinsAddNothingFrom` | core/src/main/java/io/github/some_example_name/GameWorld.java:118-122 | merging objects that are all already present leaves the list unchanged |
| `Loading.CellFinds` | core/src/main/java/io/github/some_example_name/GameWorld.java:173-190 | a cell yields one rectangle iff it holds a tile with the solid, coinBlock or mushroomSolid flag; that rectangle is the tile's own, and it is marked as a coin block iff coinBlock is set |
| `Loading.CellStep` | core/src/main/java/io/github/some_example_name/GameWorld.java:180-190 | scanning one more cell appends its tile to the solids when flagged, and then an active coin block pointing at that new solid when it is a coin tile |
| `Loading.FindsApplied` | core/src/main/java/io/github/some_example_name/GameWorld.java:187-190 | appending finds to lists that already hold entries extends both lists in order |
| `Loading.RowStep` | core/src/main/java/io/github/some_example_name/GameWorld.java:172-192 | scanning cell x of a row extends the scanned lists by what that cell finds |
| `Loading.GridStep` | core/src/main/java/io/github/some_example_name/GameWorld.java:171-193 | scanning row y extends the scanned lists by what that row finds |
| `Loading.RowFindsExactly` | core/src/main/java/io/github/some_example_name/GameWorld.java:172-192 | a rectangle is found in a row iff one of its first n cells produced it |
| `Loading.GridFindsExactly` | core/src/main/java/io/github/some_example_name/GameWorld.java:171-193 | a rectangle is found in a grid iff some flagged cell inside the map produced it |
| `Loading.LayerFindsExactly` | core/src/main/java/io/github/some_example_name/GameWorld.java:167-193 | an object layer adds nothing; a tile layer adds exactly its flagged cells inside the map |
| `Loading.ScanFindsExactly` | core/src/main/java/io/github/some_example_name/GameWorld.java:160-195 | over all layers, a rectangle is found iff it is produced by a flagged cell, inside the map, of some tile layer |
| `Loading.RectsOf` | core/src/main/java/io/github/some_example_name/GameWorld.java:187 | the scan appends one rectangle per find |
| `Loading.RectsOfIndex` | core/src/main/java/io/github/some_example_name/GameWorld.java:187 | the i-th rectangle appended is the i-th one found |
| `Loading.CoinEntriesSound` | core/src/main/java/io/github/some_example_name/GameWorld.java:190 | every coin block the scan adds is active and points at the solid created for a coin-marked find |
| `Loading.CoinEntriesComplete` | core/src/main/java/io/github/some_example_name/GameWorld.java:190 | every coin-marked find gets its active coin block |
| `Loading.CoinEntriesOrdered` | core/src/main/java/io/github/some_example_name/GameWorld.java:187-190 | the added coin blocks point at strictly increasing solids, so no solid gets two |
| `Loading.AppendFinds` | core/src/main/java/io/github/some_example_name/GameWorld.java:187-190 | the scan's output over concatenated finds is the concatenation of the outputs |
| `World.RefCoins` | core/src/main/java/io/github/some_example_name/GameWorld.java:153-154 | each object-layer coin block is active and points at the position of its own rectangle among the merged solids |
| `World.RefCoinsShareOwnRect` | core/src/main/java/io/github/some_example_name/GameWorld.java:153-154 | reference identity survives loading: each object-layer coin block points at the solid that is its own map object's rectangle |
| `World.LoadedCoinsInRange` | core/src/main/java/io/github/some_example_name/GameWorld.java:114-125 | every coin block of the loaded world, from the object layers or the tile scan, points into the collision list |
| `World.GameWorld.constructor` | core/src/main/java/io/github/some_example_name/GameWorld.java:69-125 | map size in pixels; player at (100, floor), 16 by 32, grounded and at rest; score 0, stage 1, no effects; solids are the object layers in load order with the coin blocks merged in, then the scanned tiles; coin blocks are the object-layer ones, then the scanned ones; all coin blocks point into the solids, and each object-layer coin block points at its own object's rectangle |
| `World.GameWorld.ScanTileLayers` | core/src/main/java/io/github/some_example_name/GameWorld.java:160-195 | appends exactly `ScanFinds` of all layers to the solids and its coin entries to the coin blocks; nothing else changes |
| `World.GameWorld.ScanLayer` | core/src/main/java/io/github/some_example_name/GameWorld.java:167-170 | one layer's loop appends exactly `LayerFinds` |
| `World.GameWorld.ScanGrid` | core/src/main/java/io/github/some_example_name/GameWorld.java:171-193 | the row loop appends exactly `GridFinds` |
| `World.GameWorld.ScanRow` | core/src/main/java/io/github/some_example_name/GameWorld.java:172-192 | the cell loop appends exactly `RowFinds` |
| `World.GameWorld.ScanCell` | core/src/main/java/io/github/some_example_name/GameWorld.java:173-190 | one cell appends exactly `CellFinds` |
| `World.GameWorld.OnCoinCollected` | core/src/main/java/io/github/some_example_name/GameWorld.java:321-326 | the counters become `Collect(old counters, amount)` |
| `World.GameWorld.NextStage` | core/src/main/java/io/github/some_example_name/GameWorld.java:328-332 | the stage rises by one and the score is reset |
| `World.GameWorld.HeadBump` | core/src/main/java/io/github/some_example_name/GameWorld.java:237-256 | the rising loop's target, velocity, coin blocks, counters and effects are the `UpScan` fold, whose payout is stated both ways by `UpScanPaysOnHeadBump` and `UpScanPaysFromBelow` |
| `World.GameWorld.PruneEffects` | core/src/main/java/io/github/some_example_name/GameWorld.java:302-306 | the backward update-and-remove loop leaves exactly `Survivors` of the old effects, in order |
| `World.GameWorld.ResolveMotion` | core/src/main/java/io/github/some_example_name/GameWorld.java:208-295 | the player, coin blocks, counters and effects become `Step` of the old state |
| `World.GameWorld.Update` | core/src/main/java/io/github/some_example_name/GameWorld.java:204-307 | the solids are unchanged; player, coin blocks and counters are `Step` of the old state; the effects are the survivors of `Step`'s effects; the player is clamped into the map; the invariant (valid counters, coin blocks point into the solids) is kept |
| `Blocks.Oscillate` | core/src/main/java/io/github/some_example_name/Block.java:48-53 | only the velocity's sign may change; when the range holds a tile the block ends inside it; past the left bound it sits on it heading right, past the right bound against it heading left, and otherwise moves by vx * dt |
| `Blocks.Block.constructor` | core/src/main/java/io/github/some_example_name/Block.java:26-41 | the block sits on its grid cell; only POISON_MOVING moves, at PURPLE_SPEED, with a range of PURPLE_RANGE_TILES tiles centred on the cell; any other block is at rest |
| `Blocks.Block.Bounds` | core/src/main/java/io/github/some_example_name/Block.java:43-46 | the box is one tile, at the live position; for a still block that is the grid cell |
| `Blocks.Block.Update` | core/src/main/java/io/github/some_example_name/Block.java:48-53 | a still block is unchanged; a moving one advances by `Oscillate`, keeps its speed and stays inside its range; the block invariant is kept |
| `Characters.DashDirection` | core/src/main/java/io/github/some_example_name/GameCharacter.java:33 | the direction is -1 or 1, and -1 iff the request is negative |
| `Characters.GameCharacter.constructor` | core/src/main/java/io/github/some_example_name/GameCharacter.java:9-25 | placed at (x, y), at rest, 22 by 28, airborne, with MAX_JUMPS jumps, not dashing, no dash distance left and facing right |
| `Characters.GameCharacter.Bounds` | core/src/main/java/io/github/some_example_name/GameCharacter.java:27-29 | the box is at the position with the character's 22 by 28 size |
| `Characters.GameCharacter.StartDash` | core/src/main/java/io/github/some_example_name/GameCharacter.java:31-36 | dashing, facing the sign of the request, 160 px of dash ahead and a horizontal velocity of 900 that way; the vertical velocity and the box are unchanged |
| `Characters.GameCharacter.StopDash` | core/src/main/java/io/github/some_example_name/GameCharacter.java:38-41 | not dashing and horizontally at rest; the vertical velocity, the remaining distance, the direction and the box are kept |

## Left out

- GameWorld.update calls the player methods `preUpdate`, `setGrounded`, `tryConsumeJump`, `postCollisionUpdate` and `syncSpriteToPosition`, and reads the fields `position`, `velocity` and `sprite`. `GameCharacter.java` declares none of these. The world's player is therefore modelled as a plain value (`Collision.Body`): position, velocity, sprite size and grounded flag. The timers, jump buffering and jump cut those methods perform are not modelled, and the update starts from the velocity as it stands after `preUpdate`.
- The constructor's `setGrounded(true)` is modelled as the grounded flag. The player's initial velocity is taken as zero, because the constructor the world calls is not part of this model.
- TMX loading, layer lookup by name and tile-property lookup are not modelled. The map arrives as values: an object table, the named object layers as lists of object indices, and the tile layers as grids of optional flag triples.
- Textures, texture filters, the map renderer, camera, rendering, sounds (`playCoinSfx`), input delegation and `dispose` are not modelled: they are I/O.
- CoinPopEffect's sprite position, easing and alpha are not modelled. Only its anchor, elapsed time and alive flag are, since these decide pruning. `Coins.Spawn` records the block centre and top the effect is created with, not the sprite's offset position.
- Floats are modelled as reals, so rounding is not modelled. The map size `mapWidthTiles * tileWidth` and the tile positions `x * tileWidth` are int products that Java widens to float; they are modelled as exact real products. 32-bit overflow of those products is not modelled.
- `Geometry.Max`: NaN is not modelled.
- `Constants.java` has no `PURPLE_SPEED` or `PURPLE_RANGE_TILES`. `Blocks.Block.constructor` takes them as parameters and requires a range of at least one tile.
- Block.draw and GameCharacter.draw are rendering and are not modelled. GRAVITY, MOVE_SPEED, JUMP_VELOCITY, DASH_COST, BREAK_SCORE and the screen size are not read by any modelled operation.
- libGDX `Rectangle.overlaps` is not part of this model. `Geometry.Overlaps` takes it as strict overlap on both axes, so rectangles that only touch do not overlap.
- `World.GameWorld.constructor` requires the solid object layers to hold no object twice, since a Tiled object belongs to one layer. With that, reference identity and list position agree.
- The coin blocks are kept as a list searched first-match, as in the source, rather than as a map from rectangles.
- The update and the tile scan are split into helper methods, one per loop: `SweepX`, `HeadBump`, `SweepDown`, `SweepSettle`, `ResolveMotion`, `PruneEffects`, and `ScanLayer`/`ScanGrid`/`ScanRow`/`ScanCell`. The scan helpers take the growing lists as values and return them extended, and `ScanTileLayers` assigns the fields once.
- `Collision.Step`: its grounded/velocity guarantee for the backup floor is stated for the position after collision resolution and before the clamp, since that is where the source applies it.
