# Voxel demo: player physics and terrain generation in Dafny

This project models the two pieces of plain sequential logic in a small
browser voxel demo (`script.js`):

- **The player physics step, `updatePlayer`.** The global player record
  `{x, y, z, velocityY, onGround}` is a two-state machine, grounded or
  airborne. Each tick applies, in this order: additive W/S/A/D movement
  along the camera yaw; a jump that fires only when grounded; one gravity
  step (the velocity drops by a constant, then moves `y`); and a clamp to
  the ground plane at `y = 2`. The camera is then moved to the player.
- **Terrain generation, `generateTerrain`.** Two nested loops over the grid
  `[-terrainSize, terrainSize)²`, x-major, push one block record
  `{type, x, y, z}` per cell to the global `blocks` array. Each block sits
  at `(x·blockSize, 0, z·blockSize)` and has a type picked at random from
  the five block types.
- **The key handlers.** `keydown` stores `true` in the `keys` dictionary
  and `keyup` stores `false`.

Modules:

- `Input` (input.dfy) holds the `keys` dictionary as a class `KeyState`
  with a `map` field. `Pressed` reads an entry the way the source does,
  where a missing entry counts as "not held".
- `Player` (player.dfy) has two parts.
  - The step as functions on a `PlayerState` value, one per phase: `Move`,
    `Jump`, `Fall`, `Clamp`. Together they make `Step`, and `Run` applies a
    sequence of ticks.
  - The classes `Player` and `Camera`, whose fields are updated in place.
    `Player.Update` is `updatePlayer`, and its movement tests sit in the
    helper `Player.Walk`. Both are proved equal to the functions. The
    properties are lemmas about the functions.
- `Terrain` (terrain.dfy) has two parts.
  - `Terrain(size, rolls)` states which block is created k-th: the block
    at cell `(-size + k div 2size, -size + k mod 2size)`.
  - The class `World` holds the `blocks` sequence. `World.GenerateTerrain`
    runs the nested loops and is proved to append exactly that sequence.

Inputs that come from outside the logic are parameters:

- `Math.sin(rotationY)` and `Math.cos(rotationY)` are the reals `sinY`
  and `cosY`.
- The k-th call of `Math.random()` is `rolls[k]`, a real in `[0, 1)`. The
  type index is `floor(rolls[k] · 5)`, as in the source.
- All quantities are `real`. Grid coordinates are `int`.

The ground test is strict (script.js:104). With exact arithmetic a jump is
back at exactly `y = 2` on tick 39 without landing, and it lands on tick 40
(`JumpLandsOnTick40`).

## Model

| member | source | states |
|---|---|---|
| `Input.KeyState.constructor` | script.js:70 | the key dictionary starts empty, so no key reads as held |
| `Input.KeyState.KeyDown` | script.js:71 | keydown sets the entry to true: that key is held and every other key reads as before |
| `Input.KeyState.KeyUp` | script.js:72 | keyup sets the entry to false: that key is released and every other key reads as before |
| `Input.ReleaseThenPress` | script.js:71-72 | a keyup then a keydown of a key leaves it held; a keydown then a keyup leaves it released; other keys are unaffected |
| `Input.Pressed` | script.js:79-96 | the reads `keys["w"]` … `keys[" "]`: a key with no entry (`undefined`) never reads as held |
| `Player.Move` | script.js:79-94 | the four movement tests change only x and z; y, velocityY and onGround are untouched. Its meaning for x and z is given by `Player.StepHorizontal` |
| `Player.Jump` | script.js:96-99 | the jump changes no position; while airborne it changes nothing; when it changes anything, the player was grounded with space held and is now airborne with velocityY = jumpSpeed (see also `Player.JumpFromGround`, `Player.AirborneIgnoresJumpKey`) |
| `Player.Fall` | script.js:101-102 | gravity lowers velocityY and then moves y by the new velocity, leaving x, z and onGround unchanged (exact decrement: `Player.FreeFall`) |
| `Player.Clamp` | script.js:104-108 | the clamp leaves x and z alone, ends at or above the ground, changes nothing at or above the ground, and below it lands the player at rest (see also `Player.ClampSettles`) |
| `Player.Step` | script.js:78-108 | whatever the state before, the player ends every tick at or above the ground height 2 |
| `Player.Run` | script.js:114-117 | after one or more ticks, y >= 2; the invariant "y >= 2, and onGround implies y == 2 and velocityY == 0" holds after any sequence of ticks if it held before |
| `Player.StepKeepsResting` | script.js:96-108 | one tick preserves that invariant, for any keys and yaw |
| `Player.RunFromInitial` | script.js:10 | the initial record satisfies the invariant, so every run from it does, for any keys and yaw |
| `Player.StepHorizontal` | script.js:79-94 | movement is the unnormalised vector sum MoveSpeed·(Aside·(cos, -sin) + Ahead·(-sin, -cos)); the vertical phases never change x or z |
| `Player.OppositeKeysCancel` | script.js:79-94 | W cancels S and A cancels D: both or neither of each pair held leaves x and z unchanged |
| `Player.SpeedSquared` | script.js:79-94 | with sin² + cos² = 1, the squared distance moved is MoveSpeed²·(Ahead² + Aside²), so a diagonal covers √2·MoveSpeed |
| `Player.VerticalIgnoresMovement` | script.js:96-108 | y, velocityY and onGround after a tick depend only on their values before and on the jump key, never on the movement keys, x, z or yaw |
| `Player.JumpFromGround` | script.js:96-102 | from a resting grounded state with space held, the tick ends with velocityY = jumpSpeed − gravity, y = 2 + jumpSpeed − gravity, airborne |
| `Player.GroundedWithoutJump` | script.js:101-108 | from a resting grounded state without space, the clamp fires and the player stays grounded at y = 2 with velocityY = 0 |
| `Player.AirborneIgnoresJumpKey` | script.js:96-99 | while airborne, the jump key has no effect on the tick |
| `Player.FreeFall` | script.js:101-104 | a tick that fires neither jump nor clamp lowers velocityY by exactly gravity, moves y by the new velocity and keeps onGround |
| `Player.ClampSettles` | script.js:101-108 | at or below the ground and not rising, a tick that fires no jump ends grounded at y = 2 with velocityY = 0 |
| `Player.RestIsFixedPoint` | script.js:78-108 | with no key held, a resting grounded state is a fixed point of the tick |
| `Player.JumpArcPrefix` | script.js:96-108 | k ticks into a jump (1 <= k <= 39), whatever keys are held, y = 2 + k·jumpSpeed − gravity·k(k+1)/2, velocityY = jumpSpeed − k·gravity, and the player is airborne |
| `Player.JumpLandsOnTick40` | script.js:96-108 | a jump from the ground is airborne on ticks 1 to 39, is back at exactly y = 2 on tick 39, and lands at rest on tick 40 |
| `Player.Camera.constructor` | script.js:7-8 | the camera starts at position (0, 2, 5) |
| `Player.Player.constructor` | script.js:10 | the player record starts as {0, 2, 0, 0, true}, which satisfies the invariant |
| `Player.Player.Walk` | script.js:79-94 | the four key tests update x and z in place exactly as `Move` describes, and nothing else changes |
| `Player.Player.Update` | script.js:78-111 | the record after the call is `Step` of the record before; the camera position equals (x, y, z); y >= 2; the invariant is preserved |
| `Terrain.TypeIndex` | script.js:40 | floor(roll · blockTypes.length) of a draw in [0, 1) is a valid index into the block types |
| `Terrain.BlockAt` | script.js:40-50 | the record pushed for the k-th cell lies at y = 0 and has one of the five block types; its position is given by `Terrain.TerrainBlock` |
| `Terrain.Terrain` | script.js:38-50 | the generated sequence has exactly (2·size)² blocks for size ≥ 0, and none otherwise |
| `Terrain.TerrainBlock` | script.js:40-50 | block k is placed at grid cell (CellX, CellZ) scaled by blockSize, with both coordinates in [-size, size); its y is 0; its type is the entry of the block types picked by draw k, so it is one of the five |
| `Terrain.TerrainOrdered` | script.js:38-39 | blocks appear in strictly increasing x-major, then z, order |
| `Terrain.CellNumber` | script.js:38-39 | the nested loops visit cell (x, z) as number (x + size)·2size + (z + size), which is below (2·size)² and maps back to (x, z) |
| `Terrain.TerrainCovers` | script.js:38-42 | every cell (x, z) of [-size, size)² gets a block, at index (x+size)·2size + (z+size), placed at (x·blockSize, z·blockSize) |
| `Terrain.TerrainOncePerCell` | script.js:38-42 | no two blocks share a cell, so every cell gets exactly one block |
| `Terrain.World.constructor` | script.js:36 | the block list starts empty |
| `Terrain.World.GenerateTerrain` | script.js:37-53 | the nested loops append exactly `Terrain(terrainSize, rolls)` to `blocks`, which is 400 blocks with terrainSize = 10 |

## Left out

- Three.js objects are not modelled: renderer, scene, camera projection, box geometry, materials, texture loading, lights and `scene.add` (script.js:1-5, 7, 19-33, 41, 43, 55-58). These are calls into a rendering library that is not part of this model. For the same reason, the `mesh` field of each block record is dropped.
- The `animate` loop (script.js:114-118) is host scheduling and rendering. `Player.Run` stands for the sequence of ticks it produces.
- The mousemove handler that accumulates `rotationX` and `rotationY` and sets the camera rotation (script.js:61-67) is pointer-input plumbing. The yaw enters the model only through the `sinY` and `cosY` inputs of a tick. The camera's rotation is therefore not a field of `Camera`.
- `toLowerCase` in the key handlers (script.js:71-72) is not modelled. It is a string operation on browser key names, and keys here are the already lower-cased identifiers.
- The inventory lookup (script.js:75) is inert UI.
- `Math.random`, `Math.sin` and `Math.cos` are supplied as inputs, as described above.
- IEEE double rounding is not modelled, because all physics values are `real`. The exact facts at the clamp (y = 2, velocityY = 0) hold either way, because the code assigns literals there. The 39- and 40-tick counts of the jump arc assume exact arithmetic.
- `Player.Player.Walk` is a helper method that groups the four movement tests of `updatePlayer`, and `Update` calls it. The statements and their order are those of the source.
