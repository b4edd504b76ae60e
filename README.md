# Tile layouts and incremental sync of the S3 gallery viewer

The viewer shows one tile per image listed in a JSON document held in an S3
bucket. It arranges the tiles on a sphere, a helix or a 3D grid, and it animates
them between these arrangements. Every ten seconds it polls the document again
and adds a tile when the document has changed.

This project models the part of `main.js` that keeps the tile collection and its
layout targets:

- `layout.dfy` (module `Layout`) holds the per-index layout formulas.
  - The grid position is modelled exactly, including JavaScript's truncating `%`
    and `Math.floor`.
  - The helix height is modelled exactly.
  - Trigonometric quantities stay symbolic. A `Pose` records the values the
    arguments of `setFromSphericalCoords` or `setFromCylindricalCoords` are
    computed from: for the sphere, `cos(phi) = -1 + 2i/l` (taken as an exact
    real) and the total `l`; for the helix, the index and the exact height.
- `gallery.dfy` (module `Gallery`) holds the class `Viewer`. Its fields are the
  module-level state of `main.js`:
  - `objects`, `sphere`, `helix` and `grid` stand for `objects` and `targets.*`;
  - `jsonData` and `keysArray` are the source's own variables;
  - `tweens` is the list of tweens scheduled by the last transition.

  Its methods are `createShapes`, `transform`, `addNewObject`,
  `checkForJsonUpdates` and the success path of `initialFetchS3Object`.
  - Fetch results are method parameters. `None` stands for a failed fetch or
    parse.
  - `jsonData` starts as `Pending`, which stands for the promise the module
    assigns to it at start-up. `JSON.stringify` turns a promise into `{}`, so
    `Pending` compares equal to an empty document.
- `scenarios.dfy` (module `Scenarios`) drives a fresh `Viewer` through concrete
  call sequences. It proves what each sequence ends with from the class contracts and the lemmas
  about `Tiles` and `BulkTargets`.

Invariants:

- Every target array is at least as long as `objects` (`Gallery.Viewer.Valid`). This
  holds in every reachable state. It is the precondition of `transform`, which
  reads `targets[i]` for each tile `i`.
- The stronger property "all four arrays have equal length" (`Gallery.Viewer.Aligned`)
  holds after a normal start. Every poll preserves it.

`transform` reads `targets[i]` for every tile (main.js:160-162), so the arrays
are meant to have equal length, but the code allows otherwise. If a poll detects a change before the initial fetch has landed,
`createShapes` still loops over `objects.length`, and that count includes the
tile the poll already added. Each target array then ends up one entry longer than
`objects` (`Scenarios.EarlyPoll`). The model follows the code.

`addNewObject` does not compute an added tile's sphere and grid targets the way
`createShapes` computes them for the same index (main.js:354 and 392 against
main.js:109 and 149):

- the sphere target of an added tile is always evaluated at `i = 1, l = 1`
  (the pole);
- the grid depth offset of an added tile is `-2000`, not `-1000`.

An added tile computed for index `i >= 25` gets the grid position the bulk
build gives index `i - 25`, and no other bulk position
(`Layout.IncrementalGridCollision`). Which tile, if any, already occupies that
position is not stated by these lemmas. It is the initial-load tile whose grid
entry was computed for index `i - 25`, or any earlier added tile computed for
the same index `i`. Two added tiles computed for the same index share their
grid, helix and sphere targets (`Scenarios.CaptionEdit`).

## Model

| member | source | states |
|---|---|---|
| Layout.JsRem | main.js:147 | JavaScript `%` by a positive divisor: the result lies strictly between `-b` and `b` and takes the sign of the dividend; `JsRemDivision` ties it to the dividend |
| Layout.JsQuot | main.js:147 | definition: the quotient truncated toward zero; characterised by `JsRemDivision` |
| Layout.JsRemDivision | main.js:147 | `a == JsQuot(a, b) * b + JsRem(a, b)`: with the bounds and the sign, this fixes `JsRem` as JavaScript's truncated remainder |
| Layout.GridCol | main.js:147 | definition: `i % 5`; characterised by `GridCellDecomposition` |
| Layout.GridRow | main.js:148 | definition: `Math.floor(i / 5) % 5`; characterised by `GridCellDecomposition` |
| Layout.GridLayer | main.js:149 | definition: `Math.floor(i / 25)`; characterised by `GridCellDecomposition` |
| Layout.BulkGridTarget | main.js:147-149 | definition of the bulk grid position; characterised by `BulkGridInRaster` and `BulkGridInjective` |
| Layout.IncrementalGridTarget | main.js:390-392 | definition of the incremental grid position (depth offset -2000); characterised by `IncrementalGridOneLayerBack` and `IncrementalGridCollision` |
| Layout.HelixY | main.js:127 | definition: `-(i * 10) + 450`; characterised by `HelixDescends` |
| Layout.HelixTarget | main.js:126-131 | definition of the helix target of index `i`; characterised by `HelixInjective` and `HelixDescends` |
| Layout.SphereCosPhi | main.js:109 | definition: `-1 + 2i/l` as an exact real; bounded by `SphereTarget` and ordered by `SphereOrdered` |
| Layout.IncrementalSphereTarget | main.js:354-359 | definition: the sphere formula at `i = 1, l = 1`; characterised by `IncrementalSphereIsPole` |
| Layout.FloorDiv | main.js:148-149 | `Math.floor(a / b)` is the largest `q` with `q * b <= a` |
| Layout.GridCellDecomposition | main.js:147-149 | for a tile index `i >= 0`, column and row are in `[0, 5)`, layer is `>= 0`, and `i == 25*layer + 5*row + col` |
| Layout.BulkGridInRaster | main.js:147-149 | every bulk grid target has x and y in {-800, -400, 0, 400, 800} and z in -1000, 0, 1000, ... |
| Layout.BulkGridInjective | main.js:144-152 | two tiles share a bulk grid position if and only if they are the same tile |
| Layout.IncrementalGridOneLayerBack | main.js:390-392 | the incremental grid target has the same x and y as the bulk one for the same index, and a z that is 1000 smaller |
| Layout.GridShiftLayer | main.js:147-149 | index `i - 25` has the same column and row as `i`, one layer forward |
| Layout.IncrementalGridCollision | main.js:390-392 | for every index `i`, including -1 from an empty document, an added tile's grid target equals the bulk grid target of tile `j` if and only if `i >= 25` and `j == i - 25` |
| Layout.HelixDescends | main.js:127 | helix height is 450 at index 0, drops by 10 per index, and is strictly ordered: `i < j` iff `y(j) < y(i)` |
| Layout.HelixInjective | main.js:125-140 | two indices get the same helix target if and only if they are equal |
| Layout.SphereTarget | main.js:108-121 | a bulk sphere target lies on radius 800, is computed for the build's total, and has `cos(phi) = -1 + 2i/l` in `[-1, 1)` |
| Layout.SphereOrdered | main.js:109-110 | within one bulk build, `cos(phi)` increases strictly with the index, so distinct tiles get distinct sphere targets (both directions) |
| Layout.IncrementalSphereIsPole | main.js:354-359 | an added tile's sphere target has `cos(phi) = 1` whatever its index, and differs from every bulk sphere target |
| Gallery.SameJson | main.js:315 | definition of the `JSON.stringify` comparison, with the pending promise equal to `{}`; used by `CheckForJsonUpdates` and `FailedLoadThenEmptyPoll` |
| Gallery.Keys | main.js:218 | definition: `Object.keys` of a document, in order; used by `InitialFetch` and `PushTiles` |
| Gallery.LatestKey | main.js:330-331 | definition: the last key, or none for an empty document; used by `AddNewObject` |
| Gallery.AssetFor | main.js:92 | definition: the bucket URL followed by the key; inverted by `AssetRoundTrip` |
| Gallery.AssetOf | main.js:341 | definition: the image reference of the latest key, `undefined` when there is none; used by `AddNewObject` and `EmptiedPoll` |
| Gallery.KeyOfAsset | main.js:287 | definition: `src.slice(41)`; characterised by `AssetRoundTrip` |
| Gallery.Tiles | main.js:85-101 | definition: one tile per key; characterised by `TilesAt` |
| Gallery.BulkTarget | main.js:108-152 | definition: the body of one layout's bulk loop at index `i` of `l`; characterised by `BulkTargetsAt`, `SphereOrdered`, `HelixInjective` and `BulkGridInjective` |
| Gallery.Viewer.Targets | main.js:57-70 | definition: `targets.sphere`, `targets.helix` or `targets.grid`, the array a layout button hands to `transform`; used by `Transform` and `CreateShapes` |
| Gallery.Viewer.Valid | main.js:160-162 | definition: every target array has an entry for every tile, so `transform` never reads past the end; required and kept by `AddNewObject` and `CheckForJsonUpdates`, established by `CreateShapes` |
| Gallery.Viewer.Aligned | main.js:160-162 | definition: every target array has exactly one entry per tile; kept by `AddNewObject` and `CheckForJsonUpdates`, broken by `Scenarios.EarlyPoll` |
| Gallery.BulkTargets | main.js:108-152 | definition: the bulk build of one layout; characterised by `BulkTargetsAt` |
| Gallery.TileTweens | main.js:160-179 | definition: the per-tile tweens of a transition; characterised by `TileTweensAt` |
| Gallery.Schedule | main.js:157-184 | definition: everything a transition schedules; characterised by `ScheduleAt` and `ScheduleAimsAtLayout` |
| Gallery.AssetRoundTrip | main.js:287 | the bucket URL is 41 characters long, so `slice(41)` of an image reference gives back the key |
| Gallery.TilesAt | main.js:85-101 | the bulk build makes one tile per key, and tile `i` shows the bucket URL followed by key `i` |
| Gallery.BulkTargetsAt | main.js:108-152 | a bulk target array has one entry per tile, and entry `i` is the layout formula at `i` |
| Gallery.HelixExtendsBulk | main.js:371-384 | appending the helix target of index `n` to a bulk helix build of `n` tiles gives the bulk build of `n + 1` tiles |
| Gallery.AppendedTargetsMatchSlot | main.js:329-394 | the added helix target equals the bulk target of the slot the tile goes into if and only if the key count is slot + 1; even then the grid target is 1000 further back |
| Gallery.GridDoesNotExtendBulk | main.js:388-394 | appending the incremental grid target never gives the bulk grid build one tile larger |
| Gallery.SphereDoesNotExtendBulk | main.js:352-365 | appending the incremental sphere target never gives the bulk sphere build one tile larger |
| Gallery.ScheduleAt | main.js:160-184 | a transition of `n` tiles has `2n + 1` tweens: a move and a turn for each tile toward its own target, then one redraw tween of twice the duration |
| Gallery.TileTweensAt | main.js:160-179 | the per-tile part of a transition: tween `2k` moves tile `k` and tween `2k + 1` turns it, toward target `k` |
| Gallery.ScheduleAimsAtLayout | main.js:157-185 | after a transition starts, every active tween either redraws or heads for the chosen layout's target of its own tile; nothing from an earlier transition survives |
| Gallery.Viewer.constructor | main.js:21-27 | start-up state: no tiles, no targets, no tweens, and `jsonData` still the pending promise; `Valid` and `Aligned` hold |
| Gallery.Viewer.Transform | main.js:157-185 | requires every tile to have an entry in the chosen target array; the active tweens become exactly the schedule toward that array |
| Gallery.Viewer.CreateShapes | main.js:82-155 | appends one tile per key, then `l = objects.length` bulk targets to each layout, then starts the sphere transition; `Valid` holds afterwards |
| Gallery.Viewer.PushTiles | main.js:85-102 | appends `Tiles(keysArray)` to `objects` |
| Gallery.Viewer.PushSphereTargets | main.js:104-121 | appends the bulk sphere build over all current tiles |
| Gallery.Viewer.PushHelixTargets | main.js:123-140 | appends the bulk helix build over all current tiles |
| Gallery.Viewer.PushGridTargets | main.js:142-152 | appends the bulk grid build over all current tiles |
| Gallery.Viewer.InitialFetch | main.js:208-225 | a failed fetch changes nothing; a successful one stores the document and its keys and builds the shapes; starting from the empty state, all four arrays then have one entry per key |
| Gallery.Viewer.AddNewObject | main.js:329-397 | appends exactly one tile for the last key (`undefined` if there is none), one helix and one grid target computed from `key count - 1`, and the constant sphere pole; keeps earlier entries, `Valid` and `Aligned`; restarts the sphere transition |
| Gallery.Viewer.CheckForJsonUpdates | main.js:305-327 | a failed fetch, or a document that serialises like the stored one, changes nothing at all (no tile, no target, no transition); any other document replaces the stored one and adds exactly one tile, whatever number of keys differ |
| Scenarios.LoadThenGrow | main.js:305-397 | start with `a.png` and `b.png`: grid cells are (0,0) and (1,0). Polling with `c.png` appended gives 3 tiles and 3 entries per layout. The new grid target is at z = -2000 and the sphere transition covers all 3 tiles |
| Scenarios.RepeatPoll | main.js:315-317 | after a poll and a press of the helix button (main.js:63-65), polling the same document again adds no tile and leaves the helix transition in place instead of restarting the sphere one |
| Scenarios.CaptionEdit | main.js:329-333 | a poll that changes a caption but not the key count adds a second tile computed for the same index, with the same sphere, helix and grid targets as the tile added before it |
| Scenarios.BurstPoll | main.js:329-333 | three keys arrive between polls, and only the last one becomes a tile. It takes slot 2, but its helix target is computed for index 4 |
| Scenarios.EmptiedPoll | main.js:329-394 | polling an empty document adds a tile showing `undefined`, with grid target (-1200, 1200, -3000) and helix height 460 |
| Scenarios.EarlyPoll | main.js:82-155 | when a poll adds a tile before the initial load lands, the load leaves 2 tiles but 3 entries in every target array |
| Scenarios.FailedLoadThenEmptyPoll | main.js:305-322 | after a failed initial fetch, polling an empty document matches the pending promise's `{}` and changes nothing |

## Left out

- Network I/O is not modelled. The `fetch` calls, `response.ok`, JSON parsing, `async`/`await` and the 10-second `setInterval` become the `Option<Snapshot>` argument of `InitialFetch` and `CheckForJsonUpdates`.
- Error rethrows and `console` logging are not modelled. They do not affect state.
- Snapshots are sequences of (key, caption) pairs in `Object.keys` order. JavaScript lists integer-like keys first, and the model does not capture that reordering. Sequence equality stands for the `JSON.stringify` comparison.
- Three.js is not modelled: the scene, the `CSS3DRenderer`, the camera, `TrackballControls`, `render`, `animate` and window resizing. This is rendering through a foreign library.
- The DOM elements of a tile are not modelled. The browser's normalisation of `img.src` (for example percent-encoding) is not modelled either.
- The popup, mouse and raycaster handlers are not modelled, and neither is `isModalOpen`. Only the `slice(41)` key recovery is modelled (`KeyOfAsset`).
- The random initial positions of new tiles are not modelled (lines 96-98 and 345-347). A tile's current pose is not part of `Tile`.
- Trigonometric values are not computed: sphere and helix coordinates, `lookAt` rotations and the helix angle `i * 0.275 + PI`. They are floating point. Poses keep the values these are computed from instead.
- Layout.SphereCosPhi: `-1 + (2 * i) / l` is taken as an exact real, while JavaScript computes it in doubles. `SphereTarget`'s bounds and `SphereOrdered` are proved over the reals and do not account for double rounding.
- A `Snapshot` can list the same key twice, which a parsed JSON object never does. The model does not exclude such snapshots. Its contracts hold for them too, with `Keys` then repeating the key, but that case never arises from the source.
- Only documents that parse to a JSON object are modelled. A document that parses to `null` or another non-object is not representable as a `Snapshot`. For `null`, `checkForJsonUpdates` stores it in `jsonData` (main.js:320), and then `Object.keys(null)` throws at main.js:331 before anything is pushed. So `jsonData` changes and no tile is added. `CheckForJsonUpdates`'s promise of exactly one added tile covers object documents only.
- Tween stepping (`TWEEN.update`), exponential easing and how tile poses evolve over time are not modelled. They are library behaviour on floats.
- Gallery.Viewer.Transform: does not state the tween durations. They are `Math.random() * duration + duration` per tween and are left out as randomness. A tween records only its tile, its destination and, for the redraw tween, its length `2 * duration`.
