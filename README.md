# untiled — a verified model of the sketch's control layer

`untiled.js` is a p5.js sketch. It draws a grid of tiles that morph between circles and squares, rotate, "blob" and change colour. This project models the discrete control layer that drives those animations:

- the integer colour interpolator (`lerpOverTime`, `computeLerping`) and its single shared tick counter;
- the mode table (`applyMode`) and the mode, rotation-mode and blob-mode cyclers and randomisers;
- the batch updates over all tiles: rotation and blob flags, shape switching, noise reset, and the force-circles / force-squares keys;
- the timed orchestration (`timedEvents`, `incMorphCounter`), including the gated rotation switch and the settlement check `areShapesSettled`;
- what the drawing pass (`drawTiles`) leaves for the next frame: the moved morph rings and the hue and saturation noise phases;
- the tile-list operations: the Durstenfeld shuffle, re-ordering by tile index, and `pushTiles`' indexing;
- the construction of a tile's vertex rings (`initShapes`).

The sketch's globals are the fields of the class `Sketch.Untiled`. Its tiles are records in an `array<Tile>` that the batch loops rewrite in place. Each procedure that changes state is a method with a `modifies` clause. Each method that rewrites the tiles ties the new list to a function of the old one (`RotateAll`, `BlobAll`, `FlipAll`, `ResetAll`, `ShuffleDown`, `DrawAll`). The composite procedures (`setup`, `timedEvents`, a whole frame, the key groups) state their callees' effects in sequence. The lemmas next to those functions state the promised properties:

- convergence of the colours;
- ranges of every mode id and interval;
- the "no blobs every other time" bias;
- permutation of the tile list, and order restored by index;
- the rotation-switch gate;
- the free-running morph clock;
- the invariant `Untiled.Valid`. The constructor establishes it, and every procedure that `setup`, `draw` or `keyPressed` calls in full keeps it, `computeLerping` and `incMorphCounter` included. Four helpers run in the middle of such a step and need not keep it: `LerpOverTime`, `ApplyMode`, `ApplyRotationMode` and `ApplyBlobMode`. Their contracts say exactly what they change.

Random draws (`random()`, `Math.random()`) are parameters: reals in [0, 1). `floor(random(lo, hi))` is `P5Math.FloorRandom`, proved to lie in `lo .. hi-1`. The frame number is a parameter too. So is the drawing pass's output (`Pass`): each tile's new morph ring, its two noise draws, and whether its `scale` reached 1. The flag `areOverlapping` is a field: setup leaves it true, and `DrawTiles` recomputes it from the pass and the shapes shown, as `drawTiles` does. All arithmetic is exact: integers are unbounded and coordinates are reals.

Modules:

- `P5Math` — the p5 helpers: `lerp`, `floor(random(..))`, `min`.
- `Lerping` — colour interpolation.
- `Modes` — the mode table and the mode-id cyclers.
- `Tiles` — the tile record and its rings.
- `Grid` — building, shuffling, ordering, settlement.
- `TileFlags` — per-tile effects of the batch updates, and the morph clock.
- `Sketch` — the global state and its procedures.

The settlement threshold follows the code. The comment at untiled.js:448 says "at least 15 out of 20 sampled tiles should be settled", but the test `settledCount > 15` needs 16 of them. The model follows the test. With 15 or fewer tiles in the list the check is never true (`Grid.FewTilesNeverSettle`).

## Model

| member | source | states |
|---|---|---|
| P5Math.FloorRandom | untiled.js:355 | `floor(random(lo, hi))` with a draw in [0, 1) lies in lo .. hi-1 |
| Lerping.FlooredLerp | untiled.js:243-245 | the floored lerp at tick c lies between value and target, and is the target at tick lerpTime |
| Lerping.LerpOverTime | untiled.js:239-255 | off target with the counter below 480: the counter grows by 1 and the value moves strictly toward the target without passing it (reaching it on the last tick); otherwise the value snaps to the target and the counter resets to 0 |
| Lerping.LerpStaysOnTarget | untiled.js:250-253 | a scalar already on its target stays there whatever the counter |
| Lerping.LerpArrives | untiled.js:239-255 | a scalar driven alone reaches its target within lerpTime minus the counter frames |
| Lerping.LerpColors | untiled.js:258-266 | one `computeLerping` frame with the shared counter: on-target colours stay and leave the counter at 0; otherwise the total distance to the targets strictly shrinks; ranges are kept; a converged last scalar resets the counter (what a converged earlier scalar does to the later ones is `ConvergedResetsCounter`) |
| Lerping.ConvergedResetsCounter | untiled.js:239-265 | the five calls share one counter and an on-target scalar resets it: from that scalar on, the frame's results and the counter it leaves are the same whatever the starting counter and the scalars before it |
| Lerping.SharedCounterExample | untiled.js:239-265 | with the background on target and the counter at 300, fill alpha moving 0 to 100 reaches only 1 in the frame, while on the counter it was handed it would reach 63 |
| Lerping.GapSumShrinks | untiled.js:258-266 | scalars that each move toward their targets bring the summed distance down, strictly unless all were on target |
| Lerping.DistanceShrinks | untiled.js:258-266 | a palette whose five scalars each move toward their targets gets strictly closer to them unless it was on them |
| Lerping.WithinShrinks | untiled.js:258-266 | one `computeLerping` frame brings every colour at least one step closer to its target, or onto it, so the largest distance shrinks by at least 1 |
| Lerping.ColorsArrive | untiled.js:239-266 | although converged scalars reset the shared counter, all five colours reach their targets within as many frames as their largest distance to them |
| Lerping.ColorsArriveInLerpTime | untiled.js:42-43 | colours and targets in their ranges (0..360, 0..100) arrive within 360 frames, less than lerpTime (480) |
| Modes.ModeTable | untiled.js:269-343 | for modes 1..10: bg target in {0, 360}, every other target in {0, 50, 100}; modes 1-4 give bg 360 and 5-10 give 0; both brightness targets are 0 exactly in modes 1-3; any other mode leaves the targets unchanged |
| Modes.NextModeId | untiled.js:346-351 | the next mode is mode % 10 + 1 and lies in 1..10 |
| Modes.NextRotationId | untiled.js:412-416 | the next rotation mode is rotationMode % 5 + 1 and lies in 1..5 |
| Modes.NextBlobId | untiled.js:486-490 | the next blob mode is blobMode % 3 + 1 (the initial 0 goes to 1) and lies in 1..3 |
| Modes.RandomBlobId | untiled.js:493-497 | any mode other than 1 is followed by 1; after 1 a mode in 1..3 is drawn |
| Modes.BlobRun | untiled.js:493-497 | successive `randomBlobMode` results all lie in 1..3 |
| Modes.NeverBlobTwiceInARow | untiled.js:493-497 | a firing that follows a non-1 mode (or the initial 0) always gives 1 |
| Modes.NoBlobAtLeastHalf | untiled.js:493-497 | at least half of any run of firings (one fewer when starting from 1) give "no blobs" |
| Tiles.FlipState | untiled.js:153-156 | `state++`, wrapping past 1, swaps 0 and 1 |
| Tiles.RectVertexOnSquare | untiled.js:746-773 | every rectangle vertex lies on the square's boundary and inside it; vertices 0, 10, 20, 30 are the corners |
| Tiles.InitShapes | untiled.js:732-776 | the circle, rect and morph rings all have 40 vertices; circle vertex i is at angle 9i-135 scaled by size/2, morph vertices start at the origin, rect vertex i is the i-th perimeter point |
| Tiles.NewTile | untiled.js:634-672 | a new tile is well formed, in the rectangle state, with the given index and position and every flag off |
| Grid.BuildTiles | untiled.js:103-108 | the nested loops create (16+2)x(16+2) tiles; the k-th tile pushed has index k and sits at its column and row times tileSize |
| Grid.PushTiles | untiled.js:103-111 | the pushed grid, shuffled once, is a valid grid of rectangle tiles whose indices are a permutation of 0..n-1 |
| Grid.ShuffleArrayRandomly | untiled.js:604-613 | the in-place swap loop produces the Durstenfeld shuffle of the input, a permutation (same multiset) of it |
| Grid.ShuffleReaches | untiled.js:604-613 | the swaps from position i down can turn a list into any rearrangement of its first i+1 elements, keeping the draws above i |
| Grid.ShuffleReachesAll | untiled.js:604-613 | the Durstenfeld shuffle can produce every permutation of its input: for each one there are draws in [0, 1) that give it |
| Grid.ShufflePermutes | untiled.js:607-612 | every Durstenfeld shuffle is a permutation of its input |
| Grid.ShuffleKeepsIndexPerm | untiled.js:607-612 | shuffling keeps the tile indices a permutation of 0..n-1 |
| Grid.ShuffleKeepsGrid | untiled.js:230-231 | a shuffled valid grid is a valid grid made of the same tiles |
| Grid.OrderArrayByAscendingIndex | untiled.js:616-629 | afterwards slot k holds the tile with index k, every tile lands in the slot its index names, and no tile is invented |
| Grid.OrderRestoresPushOrder | untiled.js:616-629 | ordering by index undoes any permutation of the list as pushed, in particular every shuffle |
| Grid.OrderKeepsGrid | untiled.js:616-629 | tiles of a valid grid put in index order form a valid grid |
| Grid.AreShapesSettled | untiled.js:425-449 | the nested counting loops with early exit return exactly whether more than 15 of the first min(n, 20) tiles have their first 10 morph vertices within 0.1 of their targets |
| Grid.FewTilesNeverSettle | untiled.js:448 | with 15 tiles or fewer the settlement check is always false |
| Grid.SettledExtremes | untiled.js:430-448 | at least 16 tiles whose sampled vertices sit exactly on target are settled; tiles whose first vertex is off by more than the threshold are not |
| Grid.SameGeometryKeeps | untiled.js:430-446 | the grid invariant and the settlement check depend only on tile identity, shape state and rings, so flag and noise updates preserve both |
| TileFlags.RotatedTile | untiled.js:361-409 | per tile: rotation modes 1-5 leave exactly the flags the mode promises (modes 1 and 2 keep the direction; mode 5: right exactly when the coin is at least 1/2), nothing but the rotation flags changes, an unknown mode changes nothing |
| TileFlags.RotatingAfter | untiled.js:361-409 | areRotating is true exactly in the global modes 3-5; unknown modes leave it |
| TileFlags.BlobbedTile | untiled.js:452-483 | per tile: blob modes 1-3 leave the flag the mode promises (mode 2: blobbing exactly when `floor(random(2))` is 1), nothing else changes, unknown modes change nothing |
| TileFlags.BlobbingAfter | untiled.js:452-483 | areBlobbing is true exactly in blob modes 2 and 3; unknown modes leave it |
| TileFlags.FlippedTile | untiled.js:151-157 | a well-formed tile stays well formed with the other shape state, and only its state changes |
| TileFlags.FlipTwice | untiled.js:151-157 | switching shapes twice restores every tile |
| TileFlags.ForceKeepsGrid | untiled.js:502-517 | forcing every tile to circles or squares keeps the grid valid and uniform |
| TileFlags.RotateAll | untiled.js:361-409 | the rotation applier's loop keeps every tile's identity, shape and rings (`SameGeometry`) and its blob flag; under a rotation mode 1-5 every tile then carries the flags that mode promises (`RotationAgrees`) |
| TileFlags.BlobAll | untiled.js:452-483 | the blob applier's loop keeps every tile's identity, shape and rings and its rotation flags; under a blob mode 1-3 every tile then carries the flag that mode promises (`BlobAgrees`) |
| TileFlags.FlipAll | untiled.js:147-158 | the shape switch's loop turns a valid grid into a valid grid all in the other shape |
| TileFlags.ResetAll | untiled.js:593-601 | the noise reset's loop zeroes every tile's hue and saturation phases and keeps identity, shape and rings, so a valid grid stays valid |
| TileFlags.NoiseStep | untiled.js:695-696 | a noise-phase step from a draw in [0, 1) lies in [0.0005, 0.005) |
| TileFlags.DrawnTile | untiled.js:675-696 | a drawn tile gets its moved morph ring and advances each noise phase by a step in [0.0005, 0.005); nothing else changes, and a well-formed tile stays well formed |
| TileFlags.MorphTick | untiled.js:161-169 | the counter stays in 0..180, is 0 afterwards exactly when it wrapped, and the morphing flag can only clear |
| TileFlags.MorphWindow | untiled.js:147-169 | the morph clock runs modulo 181 and the morphing flag survives exactly until the next wrap, so it clears 1 to 181 frames after a shape switch |
| Sketch.FirstFiring | untiled.js:173-211 | a mode, shape or blob counter restarted at 0 reads n after n frames while n is at most 60 times its interval, and is reset to 0 (the switch fires) on the next frame: 601 to 1741 frames after the last firing |
| Sketch.CounterCounts | untiled.js:173-211 | a counter restarted at 0 counts one per frame and does not fire while the count is at most 60 times the interval |
| Sketch.SwitchCount | untiled.js:173-206 | one frame of a switch counter is either reset to 0 or one more than before, and stays within 0 .. 60 times the interval when it started there |
| Sketch.NextShapeWait | untiled.js:194-196 | the next shape interval lies in 10..29 when squares are shown and in 10..14 when circles are shown |
| Sketch.DrawAll | untiled.js:114-135 | the drawing pass keeps a valid grid valid and changes each tile only in its morph ring (ring k of the pass) and its noise phases |
| Sketch.OverlapsBeforeExists | untiled.js:117-133 | clearing the flag and setting it tile by tile finds an overlapping tile exactly when one exists |
| Sketch.DrawKeepsOverlapping | untiled.js:128-133 | the overlap test reads the same before and after a tile is drawn, since drawing does not change its shape |
| Sketch.OverlappingShapes | untiled.js:133 | on a valid grid nothing overlaps exactly when circles are shown and no tile's scale reached 1; a pass over squares always overlaps |
| Sketch.DrawnOnTargetSettles | untiled.js:425-449 | after a drawing pass that leaves every morph ring on its target, a list of more than 15 tiles is settled, so the rotation gate can open |
| Sketch.Untiled.constructor | untiled.js:12-83 | setup builds a valid sketch of 324 tiles: the tile list is the pushed grid (tile k pristine at push position k), shuffled, then given the drawn rotation mode and blob mode 1; all tiles are squares; mode and rotation mode are drawn; colours, lerp counter, morph clock, switch counters and intervals start at their declared values, and `areOverlapping` is true |
| Sketch.Untiled.RandomModes | untiled.js:77-82 | setup's three random appliers set the drawn modes, the mode's targets, and every tile to the rotation and blob modes' effects, keeping the sketch valid; colours, lerp counter, morph clock, switch counters and intervals are untouched |
| Sketch.Untiled.LerpOverTime | untiled.js:239-255 | the method's result and new counter are the interpolation function's |
| Sketch.Untiled.ComputeLerping | untiled.js:258-266 | new colours and counter are one `LerpColors` frame toward the targets, and the sketch stays valid |
| Sketch.Untiled.ApplyMode | untiled.js:269-343 | the targets become the mode table's row |
| Sketch.Untiled.NextMode | untiled.js:346-351 | mode steps to mode % 10 + 1, its targets are applied, the sketch stays valid |
| Sketch.Untiled.RandomMode | untiled.js:354-358 | mode is `floor(random(1, 11))` in 1..10, its targets are applied, the sketch stays valid |
| Sketch.Untiled.ApplyRotationMode | untiled.js:361-409 | areRotating and every tile become the rotation mode's, nothing else changes |
| Sketch.Untiled.RotationKeepsValid | untiled.js:361-409 | rotation updates agree with the mode and keep geometry and blob flags |
| Sketch.Untiled.NextRotationMode | untiled.js:412-416 | rotationMode steps through 1..5 and is applied to every tile, the sketch stays valid |
| Sketch.Untiled.RandomRotationMode | untiled.js:419-422 | rotationMode is `floor(random(1, 6))` and is applied, the sketch stays valid |
| Sketch.Untiled.ApplyBlobMode | untiled.js:452-483 | areBlobbing and every tile become the blob mode's, nothing else changes |
| Sketch.Untiled.BlobKeepsValid | untiled.js:452-483 | blob updates agree with the mode and keep geometry and rotation flags |
| Sketch.Untiled.NextBlobMode | untiled.js:486-490 | blobMode steps through 1..3 and is applied, the sketch stays valid |
| Sketch.Untiled.RandomBlobMode | untiled.js:493-497 | blobMode follows the "no blobs every other time" rule and is applied, the sketch stays valid |
| Sketch.Untiled.SwitchShapes | untiled.js:147-158 | morphing starts and every tile flips shape (`FlipAll`); the grid stays uniform and valid |
| Sketch.Untiled.IncMorphCounter | untiled.js:161-169 | the counter and the morphing flag take one `MorphTick` step, and the sketch stays valid |
| Sketch.Untiled.ForceShape | untiled.js:500-517 | every tile is set to the chosen shape, nothing else changes, the sketch stays valid |
| Sketch.Untiled.ResetNoise | untiled.js:593-601 | every tile's hT and sT become 0 and nothing else changes |
| Sketch.Untiled.ShuffleTiles | untiled.js:559-562 | the tile list becomes its Durstenfeld shuffle, a permutation, and the sketch stays valid |
| Sketch.Untiled.OrderTiles | untiled.js:554-557 | slot k holds the tile with index k, each tile moved to its index, the sketch stays valid |
| Sketch.Untiled.ModeEvent | untiled.js:181-187 | past its interval the mode switch draws a mode and an interval in 10..29 and resets its counter; otherwise nothing changes |
| Sketch.Untiled.ShapeEvent | untiled.js:190-197 | past its interval every tile flips, morphing starts, the counter resets, the next interval is `NextShapeWait` for the shape now shown; otherwise nothing changes |
| Sketch.Untiled.BlobEvent | untiled.js:199-206 | past its interval the blob mode follows `randomBlobMode`, areBlobbing and every tile take its effect, and the counter resets with a new interval; otherwise nothing changes |
| Sketch.Untiled.RotationEvent | untiled.js:211-226 | the rotation switch fires exactly when its interval has run out and the gate is open (circles, not morphing, not blobbing, settled); then a mode is drawn, areRotating and every tile take its effect and the counter resets; otherwise rotation, tiles and counter are untouched |
| Sketch.Untiled.FireRotation | untiled.js:220-222 | the firing rotation switch draws a rotation mode in 1..5, areRotating and every tile take its effect, the next interval is drawn in 10..29 and the counter restarts; the sketch stays valid |
| Sketch.Untiled.ShuffleEvent | untiled.js:230-232 | the tiles are shuffled exactly on frames divisible by 60 when the last drawing pass left `areOverlapping` false |
| Sketch.Untiled.NoiseEvent | untiled.js:235 | both brightness targets are 0 exactly in modes 1-3, and the noise is reset exactly there on frames divisible by 1800 |
| Sketch.Untiled.CountFrame | untiled.js:173-176 | every switch counter counts the frame |
| Sketch.Untiled.EarlySwitches | untiled.js:180-206 | the mode, shape and blob switches in order: each fires exactly when past its interval, with its effect on mode and targets, morphing and interval, blob mode and tiles; its counter resets, the others keep theirs |
| Sketch.Untiled.SwitchEvents | untiled.js:180-226 | the four switches in order, with every effect stated; the rotation switch fires exactly when due and its gate is open on the list the shape and blob switches left |
| Sketch.Untiled.ListEvents | untiled.js:230-235 | the reshuffle on frames divisible by 60 while `areOverlapping` is false, then the noise reset in modes 1-3 on frames divisible by 1800 |
| Sketch.Untiled.TimedEvents | untiled.js:172-236 | one frame's timed events: each counter counts the frame and is reset exactly when its switch fires; the switches' effects, the reshuffle (gated by `areOverlapping`) and the noise reset give the new tiles; the sketch stays valid |
| Sketch.Untiled.DrawTiles | untiled.js:114-135 | every tile is drawn (`DrawAll`), the sketch stays valid, and `areOverlapping` becomes true exactly when a drawn tile shows a square or its scale reached 1 |
| Sketch.Untiled.DrawEach | untiled.js:127-134 | the drawing loop draws tile k with ring k and noise draws k and accumulates the overlap test over every tile |
| Sketch.Untiled.Animate | untiled.js:89-95 | the morph clock ticks and the colours take one interpolation step toward the targets |
| Sketch.Untiled.Frame | untiled.js:85-100 | one `draw` keeps the sketch valid and leaves `areOverlapping` as the overlap test on the drawn tiles; the colours take one interpolation step toward the targets the timed events left, and the morph clock ticks from the morphing flag the shape switch left |
| Sketch.Untiled.ShapeKeys | untiled.js:502-517 | key 1 makes every tile a circle and key 2 a square, with every other field kept; any other key leaves the tiles |
| Sketch.Untiled.ModeKeys | untiled.js:519-527 | q steps and w draws the mode, and its targets are applied; other keys leave mode and targets |
| Sketch.Untiled.RotationKeys | untiled.js:528-536 | e steps and r draws the rotation mode, and areRotating and every tile take its effect; other keys change none of them |
| Sketch.Untiled.BlobKeys | untiled.js:537-547 | t steps and z draws the blob mode, and areBlobbing and every tile take its effect; other keys change none of them |
| Sketch.Untiled.ListKeys | untiled.js:549-562 | n resets every tile's noise; a puts every tile in the slot its index names, keeping the same tiles; s shuffles the list; other keys leave it |
| Sketch.Untiled.KeyPressed | untiled.js:500-579 | any key press keeps the sketch valid |

## Left out

- Rendering and canvas set-up are not modelled. This covers `createCanvas`, `colorMode`, `background`, `translate`, painting in `drawTiles`, `Tile.draw`, `drawShape`'s polygon, and `showDebug`. They are p5 library I/O.
- Float animation is not modelled: the `noise()`-driven hue, saturation, scale, rotation and stroke weight in `Tile.compute` and `drawTiles`, and `globalRotation`. Only the hue and saturation phase steps are modelled (`DrawnTile`), because the noise reset sets those phases. The scale feeds back into the control layer only through `areOverlapping`; each tile's `scale >= 1` comes in as part of the drawing-pass input `Pass`.
- `drawShape`'s adaptive morph-ring lerp and blob offsets are not modelled: they are floating-point motion driven by `noise()`. Each frame's new morph rings come in as part of the drawing-pass input `Pass`, and the settlement check reads them. Which rings the motion really produces, and so when the shapes settle and the rotation gate opens, is not modelled; `DrawnOnTargetSettles` shows that rings on target do open it.
- Circle ring coordinates come from `fromAngle`, a parameter standing for `p5.Vector.fromAngle(radians(angle))`. Trigonometry is not modelled.
- Floating point is not modelled: values are exact reals and unbounded integers. Where a double-precision `lerp` would round across an integer, `floor` could differ from the model's exact `floor`.
- `p5.Vector.dist(p, q) > 0.1` is compared as squared distances, which agree for exact reals.
- `console.log` logging is not modelled.
- The debug (g), fullscreen (f) and screenshot (p) keys are not modelled. They toggle display state or call the browser.
- `buildGrid` is not modelled: `tileSize` is the constant 800 / 16 = 50, and `gap` is never read.
- Tile fields that only the float animation uses are not modelled: `scale`, `scaleT`, `lerpedScale`, `xT`, `yT`, `rotation`, `roT`, the colours and the min/max scales.
- The drawing loop (`DrawEach`) collects the overlap test in a local, and `DrawTiles` stores it in `areOverlapping` after the loop. The source clears and sets the global during the loop; nothing reads it in between, so the result is the same.
- Aliasing is not modelled. The source updates tile objects through references (`let b = tiles[i]; b.state = ...`). The model writes each updated record back into its array slot, which is the same effect for a list without shared tiles.
- Undefined initial values become explicit ones. `lerpCount` starts at 480. In the source it is undefined, and `undefined < 480` is false. So the first `lerpOverTime` call (the one for `bgColor`) snaps that colour and resets the counter to 0, and the other four scalars then step as usual. Starting at 480 does the same. `areBlobbing` starts false, and setup's `randomBlobMode` sets it. The targets start at mode 1's row, and setup's `randomMode` overwrites them. A tile's `rotatingRight` is undefined in the `Tile` constructor; the model starts it false. The source reads it only while `areRotating` is true, that is in rotation modes 3-5, and each of those sets it on every tile first.
- Sketch.Untiled.Frame: states the invariant, the colour step and the morph-clock tick, but not the tiles or the switch state after the frame. Those are stated by `TimedEvents` followed by `DrawTiles`; their composition is not restated.
- Sketch.Untiled.KeyPressed: states only that the invariant is kept. The per-key effects are stated by `ShapeKeys`, `ModeKeys`, `RotationKeys`, `BlobKeys` and `ListKeys`, which it runs in that order (the source's order).
- Sketch.Untiled.ApplyRotationMode: the source runs one loop per case; the model runs one loop that applies the per-tile effect of the current mode, which is the same for every mode, including unknown ones.
