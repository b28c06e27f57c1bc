# robgames: the chase engine and the Ludo rules, modelled in Dafny

The robgames repository holds small browser games. This project models two of
them.

**The tile-grid chase game.** It exists in three revisions:
- `main.js` is the first;
- `pacman/main.js` is the second;
- `pcm/index.js` is the latest.

A player and a number of enemies move through a maze given as a character grid,
where `#` is a wall. All three revisions share the same machinery:
- a wall query over the 3 x 3 cells around a box;
- a marker lookup that finds the `P` and `E` cells;
- a one-step lookahead box before every turn;
- a per-axis re-check that stops a body at a wall and snaps it to the tile;
- a displacement guard that skips a move of a tile or more.

Enemies wander at random and never turn back. The latest revision adds more:
- a queued input direction;
- three lives, with three seconds of immortality after a lost life;
- enemies that see the player along rows and columns and pursue it for a second;
- a smoothed camera clamped to the map;
- a game-over screen that restarts the round.

**"Člověče, nezlob se"** (`cns/index.js`) is a four-player Ludo variant. The page
keeps the game in the document tree. The model makes the board state explicit:
- every figure's place: a home house, one of the forty fields, or a destination house;
- the player on turn;
- the two roll flags;
- the four dice.

On that state it models:
- the board walk that creates the fields;
- the relative position of a figure and the target rule;
- capture;
- `canPlayerMove`;
- `moveToNextPlayer`;
- the figure and dice click handlers.

Files:
- `tile_map.dfy` (module `TileMap`): the wall queries of all revisions, JavaScript `slice` and `Math.ceil`, and the marker lookup.
- `motion.dfy` (module `Motion`): bodies, `rect`, lookahead, re-check and snap, the displacement guard, wander, and key steering.
- `viewport.dfy` (module `Viewport`): `lerp` and the camera clamp.
- `arith.dfy` (module `Arith`): facts about real arithmetic used by the proofs.
- `wrappers.dfy` (module `Wrappers`): `Option`.
- `pcm.dfy` (module `PcmGame`), `pacman.dfy` (module `PacmanGame`), `main_game.dfy` (module `MainGame`): one module per revision of the game. Each has pure per-frame functions with lemmas, and classes whose methods update fields as the source does and promise to agree with those functions.
- `ludo.dfy` (module `Ludo`): the Ludo rules, pure functions with lemmas, and the class `Game` that holds the page's state.

Conventions:
- `Math.random()` is a parameter `random` in [0, 1) per call, or a roll value.
- The frame time `dt` is a parameter.
- The held keys are a `Keys` record.

## Model

| member | source | states |
|---|---|---|
| TileMap.Ceil | pcm/index.js:133-134 | `Math.ceil`: the least integer not below r |
| TileMap.SliceIndex | pcm/index.js:153-157 | the index `Array.prototype.slice` makes of an argument is in 0..n, and equals the argument when that lies in 0..n |
| TileMap.ScanLineHit | pcm/index.js:155-168 | the inner loop over a row slice finds a `#` overlapping the box exactly when the window has such a cell from that column on |
| TileMap.ScanLinesHit | pcm/index.js:152-171 | the outer loop over the row slice finds a hit exactly when some later line of the window has one |
| TileMap.ScanHit | pcm/index.js:152-173 | the two nested loops return true exactly when some scanned `#` cell overlaps the box |
| TileMap.ClampCentre | pcm/index.js:137-151 | on a map of at least 3 cells the window centre ends in 1..n-2, and a centre already there is unchanged |
| TileMap.ClampedWindowHit | pcm/index.js:133-171 | on a grid the clamped window scans exactly the 3 x 3 cells around the clamped centre, each at its own world position |
| TileMap.CollisionWithNearCentre | pcm/index.js:132-174 | `collisionWith` is true exactly when a wall among the 3 x 3 cells around the clamped centre strictly overlaps the box |
| TileMap.OverlapNearCeil | pcm/index.js:133-134 | a cell overlapped by a segment of at most two tiles lies within one cell of `ceil(p / T)` |
| TileMap.CollisionWithIsExact | pcm/index.js:132-174 | for boxes at most two tiles wide and high, `collisionWith` is true exactly when some wall cell anywhere in the grid strictly overlaps the box |
| TileMap.ShiftedWindowHit | main.js:69-93 | with no negative slice argument, main.js scans exactly lines floor(y/T)..+2 and columns ceil(x/T)-1..+1, line l placed at world row l - 1 |
| TileMap.CollisionWithLinesShifted | main.js:69-93 | main.js's `collisionWithMap` is true exactly when a `#` in that unclamped, row-shifted window strictly overlaps the box |
| TileMap.CollisionWithLinesIsExact | main.js:69-93 | for the boxes the game builds, main.js's query is true exactly when some wall cell of the grid below the blank line 0 overlaps the box |
| TileMap.WallIsShiftedHit | main.js:69-93 | a wall in world row r overlapping such a box is scanned, on pattern line r + 1 |
| TileMap.QueriesAgree | main.js:69-93 | inside the map, main.js's unclamped query gives the same answer as the clamped query of the later revisions |
| TileMap.CoordinatesInLineSpec | pcm/index.js:181-187 | the inner loop of `coordinatesFor` reports exactly the columns of the line equal to the character, left to right |
| TileMap.CoordinatesFromSpec | pcm/index.js:180-188 | the loops report exactly the marked cells of the remaining lines, in row-major order |
| TileMap.CoordinatesSpec | main.js:96-108 | `coordinatesFor` / `coordinatesOnMap` list exactly the marked cells, in row-major order; main.js reports line l as row l - 1 |
| TileMap.FirstMarkerIsFirst | pcm/index.js:249-253 | `coordinatesFor("P")[0]` is a `P` cell that comes before every other `P` cell in row-major order |
| Motion.RectShape | pcm/index.js:281-291 | `rect(xs, ys)` is centred on (x + xs, y + ys); its width is 2r, or 2r / 1.5 when ys is not 0; its height likewise with xs |
| Motion.SnapStaysInTile | pcm/index.js:353-356 | snapping to `floor(c / T) * T + radius` keeps a body with radius below one tile in its tile |
| Motion.SnapIdempotent | pcm/index.js:353-356 | snapping an already snapped coordinate changes nothing |
| Motion.MoveKeepsOnlyClearVelocities | pcm/index.js:353-369 | after the re-check and the move, velocities are still -1, 0 or 1; each axis keeps or clears its velocity; an x velocity survives only when its one-step box was clear |
| Motion.BlockedAxisRests | pcm/index.js:353-356 | a body whose x step hits a wall ends with x velocity 0 at the snapped x, in the tile it was in |
| Motion.BlockedYAxisRests | pcm/index.js:358-361 | a body whose y step, taken after the x re-check, hits a wall ends with y velocity 0 at the snapped y, in the tile it was in |
| Motion.SnapShift | pcm/index.js:354 | snapping moves a coordinate by more than radius - T and at most radius |
| Motion.MoveIsBounded | pcm/index.js:363-369 | thanks to the displacement guard, a frame moves a body of radius at most one tile by less than two tiles per axis, however long dt is |
| Motion.CandidatesAreClearTurns | pcm/index.js:471-497 | the wander candidates are exactly the non-reversing directions with a clear lookahead box, each once, in the order left, right, up, down |
| Motion.Consider | pcm/index.js:471-476 | one candidate test: d is pushed exactly when it does not reverse the body and its box is clear |
| Motion.Pick | pcm/index.js:500 | `nextDir[floor(random * length)]` is a candidate, and there is one exactly when the list is not empty |
| Motion.EveryCandidateCanBePicked | pcm/index.js:500 | every candidate is the pick of some random number in [0, 1) |
| Motion.WanderTakesACandidate | pcm/index.js:500-513 | with no candidate the velocity is unchanged; otherwise the enemy turns toward one of them |
| Motion.WanderNeverReverses | pcm/index.js:464-514 | wandering never moves the enemy, never reverses or stops a moving axis, and turns only toward a clear direction |
| Motion.SteerByKeysOnlyIntoClear | pacman/main.js:240-262 | else-if steering never moves the body; with no arrow key held it changes nothing; a velocity changes only toward a held key whose box is clear |
| Motion.SteerByKeysTakesClearKey | main.js:147-169 | on each axis, whatever the other axis does, a held clear Left (Up) sets velocity -1, and a held clear Right (Down) sets +1 unless Left (Up) is held and clear |
| Motion.SteerByKeysPrefersLeftAndUp | main.js:147-169 | with Left and Up held and both clear, the body turns left and up: Left wins over Right, Up over Down |
| Viewport.Lerp | pcm/index.js:110-112 | `lerp` gives a at t = 0 and b at t = 1, and stays between them for t in [0, 1] |
| Viewport.ClampView | pcm/index.js:415-421 | the clamped camera coordinate is at most the map extent minus the screen, not below 0 when that is non-negative, and unchanged when already in range |
| PcmGame.Spawn | pcm/index.js:293-300 | the spawn body is at the centre of `coordinatesFor("P")[0]`, at rest |
| PcmGame.InitialPlayer | pcm/index.js:248-263 | a new player satisfies the player invariant, has 3 lives and is not game over |
| PcmGame.QueueInputRemembers | pcm/index.js:321-351 | after the four input blocks the queued direction is the last arrow key held, or the old queued direction when none is held |
| PcmGame.QueueInputOnlyIntoClear | pcm/index.js:321-351 | input never moves the player, and sets a velocity only toward a direction whose one-step box is clear |
| PcmGame.QueuedTurnTaken | pcm/index.js:321-351 | with no key held, a queued turn is taken as soon as its box is clear, and the queue keeps it |
| PcmGame.PlayerFrameKeepsInv | pcm/index.js:316-379 | a player frame keeps the invariant and never changes lives or game-over; immortality survives only while the timer plus dt stays at most 3 |
| PcmGame.TouchesNear | pcm/index.js:269-279 | `collisionWith` reports contact only for a mortal player and a point within radius on both axes, and always at the player's own centre |
| PcmGame.TakeLifeKeepsInv | pcm/index.js:302-314 | `takeLife` takes exactly one life; the game is paused and over exactly when no life is left; otherwise the player is back at the spawn and immortal |
| PcmGame.EnemyAt | pcm/index.js:440-450 | a new enemy satisfies the enemy invariant: no direction locked, timer 0 |
| PcmGame.InitialEnemies | pcm/index.js:648-655 | one enemy per `E` cell, the i-th at the i-th cell of `coordinatesFor("E")` |
| PcmGame.ImmortalPlayerUnseen | pcm/index.js:269-272 | an enemy never sees an immortal player |
| PcmGame.SeesIgnoresVelocity | pcm/index.js:517-567 | what an enemy sees depends only on its position, not its velocity |
| PcmGame.PursueLocks | pcm/index.js:570-598 | pursuit keeps the enemy invariant and the position; the lock becomes the last sighting or the old lock; the timer grows by dt and clears the lock once it exceeds 1 |
| PcmGame.PursueTurnsTowardPlayer | pcm/index.js:570-588 | the rays are checked left, right, up, down and the later hit wins on each axis; without a hit the velocity is kept |
| PcmGame.ContactKeepsInv | pcm/index.js:620-622 | a contact takes at most one life, none from an immortal player, changes nothing otherwise, and pauses exactly when it ends the game |
| PcmGame.EnemyFrameKeepsInv | pcm/index.js:601-630 | an enemy frame keeps both invariants and takes at most one life, never from an immortal player |
| PcmGame.FirstEnemies | pcm/index.js:657-661 | after n enemies' turns there are n updated enemies |
| PcmGame.FirstEnemiesTakeAtMostOneLife | pcm/index.js:657-661 | the first n enemies of a frame keep the invariants and take at most one life; after a lost life the player is immortal or the game paused; a paused game is left alone |
| PcmGame.EnemiesFrameTakesAtMostOneLife | pcm/index.js:657-661 | `enemies.update()` keeps the invariants, keeps the number of enemies and takes at most one life per frame |
| PcmGame.InitialWorld | pcm/index.js:700-703 | a new round satisfies the world invariant and is not paused |
| PcmGame.TickKeepsInv | pcm/index.js:724-733 | a frame keeps the world invariant and restarts the round or takes at most one life; a paused game waits for Space or Enter; an immortal player loses nothing |
| PcmGame.Player.constructor | pcm/index.js:248-263 | a new player at the first `P` cell: the initial player state |
| PcmGame.Player.CollisionWith | pcm/index.js:269-279 | a hit needs a mortal player and a point within radius on both axes; the centre of a mortal player is always a hit |
| PcmGame.Player.ResetPosition | pcm/index.js:293-300 | the player is at the spawn body; nothing else changes |
| PcmGame.Player.TakeLife | pcm/index.js:302-314 | the new state is `LoseLife` of the old, and the module's pause flag is set when the last life goes |
| PcmGame.Player.Queue | pcm/index.js:321-327 | one input block: the body and queued direction become `QueueTurn` of the old ones |
| PcmGame.Player.RecheckAxes | pcm/index.js:353-361 | the body becomes `Recheck` of the old body; nothing else changes |
| PcmGame.Player.ApplyMove | pcm/index.js:363-369 | the body becomes `Advance` of the old body |
| PcmGame.Player.TickImmortality | pcm/index.js:371-378 | the state becomes `ImmortalityTick` of the old state |
| PcmGame.Player.Update | pcm/index.js:316-379 | nothing changes while paused; otherwise the new state is `PlayerFrame` of the old; game-over is unchanged |
| PcmGame.Camera.constructor | pcm/index.js:402-405 | the camera starts with the target at the screen centre |
| PcmGame.Camera.Update | pcm/index.js:411-430 | the camera lerps by 7 * dt toward centring the target and is clamped; on a map at least the screen size it stays within [0, width*T - W] x [0, height*T - H] |
| PcmGame.Enemy.constructor | pcm/index.js:440-450 | a new enemy at the tile centre, at rest, with nothing locked |
| PcmGame.Enemy.CollectNextDirs | pcm/index.js:471-497 | the list filled by the four tests is exactly `Candidates` |
| PcmGame.Enemy.EvaluatingNextDir | pcm/index.js:464-514 | nothing changes while a direction is locked; otherwise the body becomes `Wander` of the old |
| PcmGame.Enemy.CanSeePlayer | pcm/index.js:517-567 | the ten-sample ray loop returns true exactly when `Sees` holds |
| PcmGame.Enemy.ChangingDirWhenSpottingPlayer | pcm/index.js:570-598 | the new state is `Pursue` of the old state and the player |
| PcmGame.Enemy.RecheckAxes | pcm/index.js:610-618 | the body becomes `Recheck` of the old body |
| PcmGame.Enemy.ApplyMove | pcm/index.js:624-630 | the body becomes `Advance` of the old body |
| PcmGame.Enemy.ApproachStep | pcm/index.js:606-618 | wander, pursuit and re-check give `Approach` of the old state |
| PcmGame.Enemy.Update | pcm/index.js:601-630 | enemy, player and pause flag become `EnemyStep` of the old ones; the invariants and "pause iff game over" are kept |
| PcmGame.Enemies.States | pcm/index.js:647-651 | the plain states list the enemies' states one for one |
| PcmGame.Enemies.constructor | pcm/index.js:648-655 | one fresh enemy per `E` cell: the states are `InitialEnemies` |
| PcmGame.Enemies.UpdateAt | pcm/index.js:658-660 | the i-th enemy's update gives `EnemyStep`; every other enemy is unchanged |
| PcmGame.Enemies.Update | pcm/index.js:657-661 | the loop makes enemies, player and pause flag equal to `EnemiesFrame` of the old ones |
| PcmGame.Enemies.UpdatedNone | pcm/index.js:657-661 | before the loop, zero enemies have been updated |
| PcmGame.Enemies.UpdatedAll | pcm/index.js:657-661 | after the loop over all enemies, the state is `EnemiesFrame` of the start |
| PcmGame.Enemies.UpdateNext | pcm/index.js:658-660 | one loop turn extends the updated prefix by one enemy |
| PcmGame.Game.constructor | pcm/index.js:395-433 | the game starts in `InitialWorld`, with the camera centred on the spawn |
| PcmGame.Game.GameOverUpdate | pcm/index.js:694-705 | once the game is over, Space or Enter clears the pause and builds a fresh player and fresh enemies; otherwise nothing changes |
| PcmGame.Game.PlayerUpdate | pcm/index.js:729-730 | the player moves as `PlayerStage`, and the camera stays inside a map at least the screen size |
| PcmGame.Game.MovePlayer | pcm/index.js:729 | the world becomes `PlayerStage` of the old world |
| PcmGame.Game.Follow | pcm/index.js:730 | the camera stays within the map bounds |
| PcmGame.Game.EnemiesUpdate | pcm/index.js:731 | the world becomes `EnemiesStage` of the old world |
| PcmGame.Game.EnemiesThenGameOver | pcm/index.js:731-732 | the world becomes the game-over stage after the enemies stage; the camera is unchanged |
| PcmGame.Game.Frame | pcm/index.js:724-733 | a frame makes the world `Tick` of the old world and keeps the camera inside the map |
| PacmanGame.CollisionWithMapIsExact | pacman/main.js:107-149 | `collisionWithMap` is true exactly when some wall cell of the grid strictly overlaps a box at most two tiles in size |
| PacmanGame.PlayerFrameTurnsOnlyIntoClear | pacman/main.js:239-281 | a player frame keeps unit velocities and moves less than two tiles; a new velocity points toward a held, clear key; with no key held a velocity is kept or cleared at a wall |
| PacmanGame.EnemyFrameNeverTurnsBack | pacman/main.js:322-385 | an enemy frame keeps unit velocities, never reverses an axis and moves less than two tiles |
| PacmanGame.EnemiesFrame | pacman/main.js:416-418 | every enemy takes its frame, so the list keeps its length |
| PacmanGame.CameraShowsTarget | pacman/main.js:79-98 | on a map at least the screen size the snapped camera stays in range, centres a target away from the edges, and always shows a target inside the map |
| PacmanGame.InitialEnemies | pacman/main.js:403-407 | one enemy per `E` cell |
| PacmanGame.InitialEnemiesOnMarkers | pacman/main.js:301-308 | each `E` cell has an enemy at its centre, at rest, listed in row-major order |
| PacmanGame.InitialWorld | pacman/main.js:219-226 | the starting bodies have unit velocities |
| PacmanGame.TickKeepsInv | pacman/main.js:409-420 | a frame keeps unit velocities and the number of enemies, turns no enemy back and moves no body two tiles |
| PacmanGame.Player.constructor | pacman/main.js:219-226 | the player starts at the centre of the first `P` cell, at rest |
| PacmanGame.Player.SteerStep | pacman/main.js:240-262 | the body becomes `SteerByKeys` of the old body |
| PacmanGame.Player.RecheckAxes | pacman/main.js:264-272 | the body becomes `Recheck` of the old body |
| PacmanGame.Player.ApplyMove | pacman/main.js:274-280 | the body becomes `Advance` of the old body |
| PacmanGame.Player.Update | pacman/main.js:239-281 | the body becomes `PlayerFrame` of the old body |
| PacmanGame.Enemy.constructor | pacman/main.js:301-308 | a new enemy at the tile centre, at rest |
| PacmanGame.Enemy.CollectNextDirs | pacman/main.js:323-352 | the list filled by the four tests is exactly `Candidates` |
| PacmanGame.Enemy.WanderStep | pacman/main.js:353-366 | the body becomes `Wander` of the old body |
| PacmanGame.Enemy.RecheckAxes | pacman/main.js:369-377 | the body becomes `Recheck` of the old body |
| PacmanGame.Enemy.ApplyMove | pacman/main.js:379-385 | the body becomes `Advance` of the old body |
| PacmanGame.Enemy.Update | pacman/main.js:322-386 | the body becomes `EnemyFrame` of the old body |
| PacmanGame.Camera.constructor | pacman/main.js:72-74 | the camera starts at (0, 0) |
| PacmanGame.Camera.Update | pacman/main.js:79-98 | the camera is set to `CameraView` of the target on both axes |
| PacmanGame.Game.Bodies | pacman/main.js:403 | the plain bodies list the enemies' bodies one for one |
| PacmanGame.Game.constructor | pacman/main.js:219-226 | the game starts in `InitialWorld` with the camera at the origin |
| PacmanGame.Game.NewEnemies | pacman/main.js:402-407 | the loop creates one distinct, fresh enemy per `E` cell, the j-th with the j-th initial body |
| PacmanGame.Game.UpdateEnemies | pacman/main.js:416-418 | the loop makes the bodies `EnemiesFrame` of the old bodies |
| PacmanGame.Game.UpdateNext | pacman/main.js:416-418 | one loop turn extends the updated prefix by one enemy |
| PacmanGame.Game.Frame | pacman/main.js:409-420 | a frame makes the world `Tick` of the old world, then snaps the camera onto the player |
| MainGame.CollisionWithMapIsExact | main.js:69-93 | for boxes right of column 0, not above row 0, at most two tiles wide and one high, `collisionWithMap` is true exactly when a wall cell overlaps the box |
| MainGame.PlayerFrameTurnsOnlyIntoClear | main.js:146-187 | a player frame keeps unit velocities and moves less than two tiles; a new velocity points toward a held, clear key; with no key held a velocity is kept or cleared |
| MainGame.EnemyFrameNeverTurnsBack | main.js:223-286 | an enemy frame keeps unit velocities, never reverses an axis and moves less than two tiles |
| MainGame.EnemiesFrame | main.js:311-313 | every enemy takes its frame, so the list keeps its length |
| MainGame.InitialEnemies | main.js:298-302 | one enemy per `E` cell of the pattern |
| MainGame.InitialEnemiesOnMarkers | main.js:202-209 | each `E` cell has an enemy at its centre, at rest, in row-major order, rows counted from the line after the blank first line |
| MainGame.InitialWorld | main.js:126-134 | the starting bodies have unit velocities |
| MainGame.TickKeepsInv | main.js:304-313 | a frame keeps unit velocities and the number of enemies, turns no enemy back and moves no body two tiles |
| MainGame.Player.constructor | main.js:126-134 | the player starts at the centre of the first `P` cell, at rest |
| MainGame.Player.SteerStep | main.js:147-169 | the body becomes `SteerByKeys` of the old body |
| MainGame.Player.RecheckAxes | main.js:171-179 | the body becomes `Recheck` of the old body |
| MainGame.Player.ApplyMove | main.js:181-187 | the body becomes `Advance` of the old body |
| MainGame.Player.Update | main.js:146-187 | the body becomes `PlayerFrame` of the old body |
| MainGame.Enemy.constructor | main.js:202-209 | a new enemy at the tile centre, at rest |
| MainGame.Enemy.CollectNextDirs | main.js:224-253 | the list filled by the four tests is exactly `Candidates` |
| MainGame.Enemy.WanderStep | main.js:255-268 | the body becomes `Wander` of the old body |
| MainGame.Enemy.RecheckAxes | main.js:270-278 | the body becomes `Recheck` of the old body |
| MainGame.Enemy.ApplyMove | main.js:280-286 | the body becomes `Advance` of the old body |
| MainGame.Enemy.Update | main.js:223-287 | the body becomes `EnemyFrame` of the old body |
| MainGame.Game.Bodies | main.js:298 | the plain bodies list the enemies' bodies one for one |
| MainGame.Game.constructor | main.js:126-134 | the game starts in `InitialWorld` |
| MainGame.Game.NewEnemies | main.js:298-302 | the loop creates one distinct, fresh enemy per `E` cell, the j-th with the j-th initial body |
| MainGame.Game.UpdateEnemies | main.js:311-313 | the loop makes the bodies `EnemiesFrame` of the old bodies |
| MainGame.Game.UpdateNext | main.js:311-313 | one loop turn extends the updated prefix by one enemy |
| MainGame.Game.Frame | main.js:304-313 | a frame makes the world `Tick` of the old world |
| Ludo.Leg | cns/index.js:67-85 | a leg of n steps visits n positions |
| Ludo.LegsLength | cns/index.js:118-119 | the legs of a section place one field per step |
| Ludo.WalkLength | cns/index.js:117-119 | a walk places one field per step of its sections |
| Ludo.TraceLines | cns/index.js:63-115 | the first loop leaves `currentPositionOnPath` at the end of the walk of `PATH_OF_BOARD` |
| Ludo.PlaceLeg | cns/index.js:119-160 | one leg appends one field per step and marks the second step of a section's first leg as a start field |
| Ludo.PlaceSection | cns/index.js:118-161 | a section appends the fields of its legs and marks one start field when its first leg has at least 2 steps |
| Ludo.PlaceFields | cns/index.js:117-162 | the second loop places exactly the walk of `PATH_OF_BOARD` and the start fields of all sections |
| Ludo.CreateBoard | cns/index.js:38-163 | the board has 40 fields forming a closed loop of unit steps ending at (4, 0), and the start field of player i is 10i + 1 |
| Ludo.PlaceTrack | cns/index.js:117-162 | started where the path closes, the second loop places 40 fields leading round back to the start, with start fields 1, 11, 21, 31 |
| Ludo.PathIsClosed | cns/index.js:40-63 | walking `PATH_OF_BOARD` from (4, 0) ends at (4, 0), so the second loop starts where the first one did |
| Ludo.PathCounts | cns/index.js:40-61 | the path has 4 * (2 + 4 + 4) = 40 steps, and section i marks field 10i + 1 |
| Ludo.ChainAppend | cns/index.js:117-162 | two walks of unit steps, the second starting where the first ends, make one walk |
| Ludo.LegChain | cns/index.js:67-85 | a leg is a walk of unit steps that ends n steps away |
| Ludo.LegsChain | cns/index.js:118-133 | the legs of a section are a walk of unit steps to where they end |
| Ludo.WalkChain | cns/index.js:117-133 | a walk of sections is a walk of unit steps to its end |
| Ludo.ClosedWalk | cns/index.js:117-162 | a walk of n steps that ends where it started is a closed loop ending at its start |
| Ludo.InitialPlacesValid | cns/index.js:443-469 | `createFigures` puts figure f in home house f mod 4 of its owner, and the board invariant holds |
| Ludo.RelativePositionRange | cns/index.js:404-410 | the relative position lies in 1..40, is 1 exactly on the player's start field, and counts fields from it |
| Ludo.TargetAdvances | cns/index.js:412-439 | a path move advances the relative position by the roll; past 40 by at most 4 it enters destination house pos + d - 41; beyond that nothing moves |
| Ludo.Occupant | cns/index.js:226 | `target.querySelector(".figure")` returns a figure standing on the target |
| Ludo.OccupantSpec | cns/index.js:226 | the lookup finds a figure exactly when one stands there, and returns the first |
| Ludo.FirstFreeSpec | cns/index.js:233-245 | the house search finds an empty house exactly when there is one, and the first in document order |
| Ludo.HomeHasRoom | cns/index.js:224-245 | a captured figure always finds an empty home house of its owner, never a destination house |
| Ludo.EmptyHomeHouse | cns/index.js:233-245 | a player with a figure away from home has an empty home house |
| Ludo.FiveInFour | cns/index.js:233-245 | four distinct slots fill a range of four |
| Ludo.OwnerRange | cns/index.js:443-469 | the figures of player o are 4o..4o+3 |
| Ludo.MoveResult | cns/index.js:224-259 | `moveFigure` keeps one place per figure |
| Ludo.MoveFigureOutcome | cns/index.js:224-259 | the move is blocked exactly by a figure of the mover's colour, and then nothing changes; otherwise the figure lands, a captured figure goes home, nothing else moves, and the invariant holds |
| Ludo.CanPlayerMoveWithoutRollIsFalse | cns/index.js:261-337 | `canPlayerMove()` with the default 0 is always false |
| Ludo.CanPlayerMoveIffSomeClickMoves | cns/index.js:261-337 | `canPlayerMove(d)` holds exactly when clicking some figure of the player would move it |
| Ludo.SomeClickMoves | cns/index.js:261-337 | when `canPlayerMove(d)` holds, some figure's click moves it |
| Ludo.LeavingHomeMoves | cns/index.js:380-396 | on a 6, a figure in a home house moves when its start field has no figure of its own |
| Ludo.ClickMovesOnlyIfCanMove | cns/index.js:261-337 | a figure whose click moves it makes `canPlayerMove(d)` true |
| Ludo.ClickOnPath | cns/index.js:282-330 | for a figure on the path, the click moves it exactly when the path part of `canPlayerMove` finds its move open |
| Ludo.NextPlayer | cns/index.js:342-348 | `moveToNextPlayer` never changes the figures or the dice |
| Ludo.NextPlayerRotates | cns/index.js:342-348 | both flags are cleared; a 6 keeps the turn; anything else passes it; -1 passes to 0; four passes visit every player and return |
| Ludo.InitialTableValid | cns/index.js:597-607 | the start is a valid table with player 0 on turn and nothing thrown |
| Ludo.FigureClickKeepsValid | cns/index.js:370-441 | a figure click keeps the table valid; off-turn or early clicks and destination figures change nothing; a move keeps the turn exactly on a 6, always when leaving home, and ends the roll so the player on turn may throw again |
| Ludo.ClickWithTarget | cns/index.js:380-440 | the same, for a figure the roll gives a target |
| Ludo.DiceClickKeepsValid | cns/index.js:532-535 | a dice click starts a roll exactly for the player on turn who has not thrown yet |
| Ludo.DiceSettledDecides | cns/index.js:541-557 | after the roll settles, the player keeps the turn if some click would move; otherwise the turn passes on, even after a 6 |
| Ludo.FigureClickMovesIff | cns/index.js:370-441 | after the roll, clicking one's own figure moves it exactly when `ClickMoves` says so |
| Ludo.Game.constructor | cns/index.js:597-607 | the page's start is `InitialTable` |
| Ludo.Game.FindFreeHouse | cns/index.js:233-245 | the loop returns the first free house of the owner, as `FirstFree` |
| Ludo.Game.MoveFigure | cns/index.js:224-259 | the places and the moved flag become `MoveResult`; turn, dice and flags are unchanged |
| Ludo.Game.MoveToNextPlayer | cns/index.js:342-364 | the state becomes `NextPlayer` of the old state |
| Ludo.Game.HandleFigureClick | cns/index.js:370-441 | the state becomes `FigureClick` of the old state |
| Ludo.Game.LeaveHouse | cns/index.js:380-396 | the home-house branch gives `FigureClick` |
| Ludo.Game.MoveOnPath | cns/index.js:397-440 | the path branch gives `FigureClick` |
| Ludo.Game.HandleDiceClick | cns/index.js:532-535 | the state becomes `DiceClick` of the old state |
| Ludo.Game.SettleDice | cns/index.js:541-557 | the tenth tick gives `DiceSettled` of the old state |

## Left out

- Drawing is not modelled: canvas drawing, `draw()` methods, the map shading, the status bar, the game-over overlay, and the styling of the Ludo page.
- Input listeners and touch controls are not modelled. The held keys are a `Keys` record given to each frame.
- The `requestAnimationFrame` loop and `Date.now()` are not modelled. Each frame takes `dt` as a parameter, and the frame methods state one frame.
- `Math.random()` is a parameter: `random` in [0, 1) for the wander choice, and the settled roll `d` for the dice. The first nine ticks of the dice animation only change the number shown, while the rules ignore it (`diceRolledOver` is false), so they are not modelled. `SettleDice` is the tenth tick. The initial dice numbers are a parameter of `Ludo.Game.constructor`.
- Positions are Dafny reals, not IEEE doubles: rounding is not modelled.
- `Math.sqrt` in `Player.collisionWith` is replaced by comparing squared distances. This is equivalent for a non-negative radius.
- The map pattern literals are not reproduced. The map is a parameter with the precondition that it holds a `P` cell, which `coordinatesFor("P")[0]` assumes.
- The line elements drawn by the first loop of `createBoard` are not modelled. The loop's effect on `currentPositionOnPath` is.
- `createHouses`, `createDestinationHouses` and `createDices` are not modelled as page code. The places they create are the `House` and `Destination` values, taken in document order, and the dice are the `dice` sequence.
- `TileMap.CollisionWithLinesIsExact`: requires the box to start right of column 0 and not above row 0, and to be at most one tile high. Outside that, main.js's slices take negative arguments and wrap. `CollisionWithLines` still models that wrapping exactly, but nothing is proved about it.
- `MainGame.CollisionWithMapIsExact`: carries the same restriction.
- `Motion.MoveKeepsOnlyClearVelocities`: states the clear-box condition for the x axis only. The y re-check runs at the possibly snapped x.
- `PcmGame.Game.Follow`: states only the camera bounds. `PcmGame.Camera.Update` states the lerped and clamped position.
- `PcmGame.TickKeepsInv`: does not say which enemy took a life or where enemies end up. The per-enemy lemmas state that.
- The convergence of the camera lerp is not modelled. Only the clamp is proved.
