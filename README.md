# BasedRace diagonal track, in Dafny

A model of the browser racing mini-game's core: the **diagonal scrolling track**, the
**racer** that moves along the same diagonal, the **game state machine** that drives
them frame by frame, and the **renderer's decisions**.

- `optional.dfy` (`Optional`): `Option`, standing for JavaScript's `undefined`.
- `entities.dfy` (`Entities`): the `Track` class and the `Racer` class from `js/entities.js`.
  - The track builds a 14-tile chain by the recurrence "next tile is `(−CHAIN_HEIGHT·OFFSET_X_RATIO, +CHAIN_HEIGHT)` from the previous".
  - It starts at `(initialX, −550)` and sorts the list by `y`.
  - It scrolls every tile along the diagonal, and looks up the `'finish'` tile by name.
  - The class keeps two ghost fields: `layout` (the list the last `generate` produced) and `scrolled` (the movement applied since).
  - `Valid()` states `tiles == Moved(layout, scrolled, offsetXRatio)`. So the tile list is at all times the generated chain moved by one amount, and it stays sorted by `y`.
  - The racer is a two-state record (racing, finished). Its screen position is a function of its accumulated `progress`.
- `renderer.dfy` (`Renderer`): `js/renderer.js` as pure functions. It covers tile culling, the fallback sizes, the snapped and stitched draw rectangle, racer marks and their colours, and the frame order. The canvas is replaced by the list of `Command`s the renderer would issue. `Render` and `DrawRacers` are loops proved equal to those functions.
- `game.dfy` (`GameLoop`): the `Game` class from `js/main.js`.
  - It covers start and restart, the per-frame update, and the end-of-race test on the last tile.
  - It covers the frame loop's delta gate and the debug controls that change zoom, chain height and ratio, then regenerate.

Numbers are `real`; IEEE rounding is not modelled. Randomness and clocks become parameters:
- the racer's `Math.random()` speed draw is `speedRoll ∈ [0,1)`;
- its oscillation term `sin(…)·10` is `bonus`;
- `Date.now()` is `now`;
- `performance.now()` / `requestAnimationFrame` timestamps are the `now` / `timestamp` arguments.

The library sort `tiles.sort((a, b) => a.y - b.y)` is stable. It is modelled as the stable insertion sort `SortByY`.

Notes on the source, recorded as written and not changed:
- With a negative `CHAIN_HEIGHT` (reachable by holding ArrowDown, `js/main.js:193`), the sort in `generate` reverses the chain (`GeneratedReversed`). The last tile of the list is then the first chain tile. Its `y` is at most −550, so the race ends on the first racing frame.
- `restartBtn` calls `this.reset()`, but `Game` has no `reset` method (`js/main.js:41`). That handler is not modelled.
- `Track` has no `smoothRender`, so the test at `js/main.js:120` is always false. `Game.Render` goes straight to the renderer, and tiles never carry `renderX`/`renderY`.
- `js/main.js` never passes racers to `render`, and no `Racer` is constructed anywhere. The racer drawing defect below is therefore latent.

## Model

| member | source | states |
|---|---|---|
| `Entities.DefaultConfig` | js/entities.js:116-130 | A new track has `WIDTH = 1200·1.61 = 1932`, `HEIGHT = 1800·1.61 = 2898`, `initialX = −WIDTH/2 + 600 = −366`, ratio 1.67, chain height 800 and the 14-name sequence |
| `Entities.Track.constructor` | js/entities.js:112-131 | Starts with no tiles and the default configuration; the object invariant holds |
| `Entities.Track.Generate` | js/entities.js:133-155 | Replaces the whole list by the chain of one tile per sequence entry, sorted by `y`, and returns it; the loop's accumulators are `initialX − i·CHAIN_HEIGHT·ratio` and `−550 + i·CHAIN_HEIGHT` |
| `Entities.LayoutChained` | js/entities.js:149-150 | Consecutive chain tiles differ by exactly `+CHAIN_HEIGHT` in `y` and `−CHAIN_HEIGHT·OFFSET_X_RATIO` in `x` |
| `Entities.LayoutAscending` | js/entities.js:149 | For `CHAIN_HEIGHT ≥ 0` the chain is already ascending by `y` |
| `Entities.LayoutDescending` | js/entities.js:149 | For `CHAIN_HEIGHT < 0` the chain is strictly descending by `y` |
| `Entities.GeneratedTiles` | js/entities.js:133-155 | For `CHAIN_HEIGHT ≥ 0` the sort is the identity: 14 tiles, tile i is named `sequence[i]`, at `(initialX − i·CHAIN_HEIGHT·ratio, −550 + i·CHAIN_HEIGHT)`, with size `WIDTH × HEIGHT` and the image loaded for its name |
| `Entities.GeneratedReversed` | js/entities.js:153 | For `CHAIN_HEIGHT < 0` the generated list is the chain reversed: tile i is chain tile 13 − i |
| `Entities.InsertByYSorted` | js/entities.js:153 | Inserting a tile into an ascending list keeps it ascending and adds exactly that tile |
| `Entities.SortByYSortsAndPermutes` | js/entities.js:153 | The sort returns an ascending list that is a permutation of its input |
| `Entities.SortByYKeepsSorted` | js/entities.js:153 | Sorting a list that is already ascending returns it unchanged |
| `Entities.SortByYReversesDescending` | js/entities.js:153 | Sorting a strictly descending list reverses it |
| `Entities.Track.UpdateMovement` | js/entities.js:163-168 | Every tile's `y` drops by `speed` and its `x` grows by `speed·OFFSET_X_RATIO`, in place; the invariant (generated chain moved by `scrolled`) is kept with `scrolled` grown by `speed` |
| `Entities.MovedKeepsShape` | js/entities.js:163-168 | Movement keeps count, order, names, images and sizes, and every pairwise `x`/`y` difference between tiles; only `x` and `y` change |
| `Entities.MovedKeepsSorted` | js/entities.js:163-168 | Movement keeps the list ascending by `y` |
| `Entities.MovedTwice` | js/entities.js:163-168 | Moving by `a` then by `b` equals moving by `a + b` |
| `Entities.MovedByZero` | js/entities.js:163-168 | Moving by 0 changes nothing |
| `Entities.Track.ValidTilesSorted` | js/entities.js:153-168 | Under the object invariant the live tile list is ascending by `y` after any sequence of generates and moves |
| `Entities.Track.GenerateWithPreScroll` | js/entities.js:157-161 | The list becomes the generated chain moved by the pre-scroll offset; the second sort changes nothing |
| `Entities.PreScrollByZeroIsGenerate` | js/entities.js:157-161 | `generateWithPreScroll(0)` yields the same list as `generate()` |
| `Entities.Track.Reset` | js/entities.js:170 | Has exactly the effect of `generate` |
| `Entities.FirstIndexNamed` | js/entities.js:171 | Finds the first index whose tile has the name, or reports that no tile has it |
| `Entities.FindTile` | js/entities.js:171 | Returns a tile of the list with the name and no earlier tile with it, or none exactly when no tile has the name |
| `Entities.Track.GetFinishTile` | js/entities.js:171 | Returns the first tile of the list named `'finish'`, or none exactly when the list has no such tile |
| `Entities.FindTileAfterMove` | js/entities.js:163-171 | Looking up by name commutes with movement: the tile found after a move is the tile found before, moved |
| `Entities.DefaultFinishTile` | js/entities.js:130 | After `generate` with the default configuration, the finish tile is chain tile 10, at `y = −550 + 10·800 = 7450` |
| `Entities.BaseSpeed` | js/entities.js:39 | A base speed drawn from `[0,1)` lies in `[0.3, 1.0)` |
| `Entities.Approach` | js/entities.js:63 | One smoothing step leaves 95% of the gap to the target speed and never overshoots it |
| `Entities.Racer.constructor` | js/entities.js:9-50 | Start position from the name table, with unknown names at (0,0); `progress = 0`, not finished, size 600 × 600, and all three speeds equal to the drawn base speed |
| `Entities.Racer.Update` | js/entities.js:53-82 | A no-op once finished. Otherwise `targetSpeed = baseSpeed + bonus`, then `currentSpeed` steps 5% toward it and `progress += currentSpeed·dt/100`. `finished` latches, with `finishTime = now`, exactly when `abs(yPosOnScreen − startY) ≥ 10`. Always `x − startX = (yPosOnScreen − startY)·(−1.67)` |
| `Entities.Racer.Reset` | js/entities.js:85-108 | Restores the start table position, `progress = 0`, unfinished, `finishTime = 0`, and all three speeds to the new base speed |
| `Renderer.Ceil` | js/renderer.js:51-52 | `Math.ceil`: the least whole number not below its argument |
| `Renderer.DrawTile` | js/renderer.js:24-54 | At most one image. None exactly when the tile has no image or is culled (`y > H+500`, `y+h < −500`, `x > W+1000` or `x+w < −1000`). Sizes come from `w`/`h` when non-zero, else from the fallbacks; position is `renderX`/`renderY` when present, else `x`/`y`. The image goes to `(floor x, floor y)` with size exactly `(ceil w + 2) × (ceil h + 2)`, so it reaches more than one pixel past the tile's far edges |
| `Renderer.VisibleTileIsDrawn` | js/renderer.js:34-38 | A tile with an image that overlaps the canvas itself is always drawn |
| `Renderer.TileCommands` | js/renderer.js:98-101 | The tiles' calls are images, at most one per tile |
| `Renderer.TilesDrawnInListOrder` | js/renderer.js:97-101 | With nothing culled, image k is tile k of the list: drawing follows list order, with no re-sort |
| `Renderer.DrawnTiles` | js/renderer.js:25-38 | The tiles that are not skipped: at most as many as the list, each one from the list and each one drawn |
| `Renderer.TileImagesFollowListOrder` | js/renderer.js:97-101 | Culled or not, image k of the frame is the image of the k-th tile that is not skipped: the list order is kept and nothing is re-sorted |
| `Renderer.DrawnRacerOnDiagonal` | js/renderer.js:60-67 | A valid unfinished racer with an image is drawn at `(floor(startX + (yPosOnScreen − startY)·(−1.67)), floor yPosOnScreen)`, its own diagonal, less than 10 pixels from its start height |
| `Renderer.DrawRacer` | js/renderer.js:60-85 | An unfinished racer with an image gets image, border and index label at `(floor x, floor yPosOnScreen)`, coloured `colors[i]`; a finished racer or one without an image gets nothing |
| `Renderer.RacerColorsDistinct` | js/renderer.js:58 | Racers 0–3 get four different colours, none of them the white fallback |
| `Renderer.RacerCommandsCount` | js/renderer.js:60-62 | Each drawable racer yields exactly three calls and every other racer none |
| `Renderer.DrawRacers` | js/renderer.js:57-86 | The loop issues exactly the racers' calls in racer order |
| `Renderer.Frame` | js/renderer.js:89-105 | A frame is empty exactly when the track or its tile list is missing; otherwise it starts by clearing the canvas |
| `Renderer.FrameDrawsTilesInListOrder` | js/renderer.js:89-105 | With nothing culled, a frame is the clear, then one image per tile in list order (call 1 + i draws tile i), then three calls per drawable racer |
| `Renderer.FrameDrawsVisibleTilesInListOrder` | js/renderer.js:89-105 | Whatever is culled, a frame is the clear, then the images of the tiles that are not skipped in list order, then three calls per drawable racer |
| `Renderer.Render` | js/renderer.js:89-105 | The render loop issues exactly the frame's calls |
| `Renderer.RacerInvisibleAsWritten` | js/renderer.js:65-66 | As written, a racer that should be drawn gets three calls whose `y` is NaN |
| `GameLoop.PreScrollDistance` | js/main.js:86 | The pre-scroll `scrollSpeed·1.25` is 500 pixels |
| `GameLoop.RaceOverWhenScrolledPast` | js/main.js:104-108 | For `CHAIN_HEIGHT ≥ 0` the last tile of the list is below `y = 600` exactly until the total scroll passes `−550 + 13·CHAIN_HEIGHT − 600` |
| `GameLoop.DefaultRaceLength` | js/main.js:104-108 | On the default track the race is over exactly when the total scroll exceeds 9250 pixels |
| `GameLoop.DefaultFinishTileAfterStart` | js/main.js:85-87 | After a start on the default track, the finish tile is chain tile 10 moved 500 pixels, at `y = 6950` |
| `GameLoop.Game.constructor` | js/main.js:20-25 | Starts loading, with clocks at 0, scroll speed 400 and no track |
| `GameLoop.Game.Init` | js/main.js:37-56 | After loading, builds the default track pre-scrolled by 500, becomes ready and records the time |
| `GameLoop.Game.StartRace` | js/main.js:79-91 | Ignored while racing. Otherwise, from ready or finished: racing, `raceTime = 0`, `lastTime = now`, and the track regenerated and pre-scrolled by 500 |
| `GameLoop.Game.Update` | js/main.js:93-109 | Changes nothing unless racing. While racing it adds `delta/1000` to `raceTime` and moves the track by `scrollSpeed·delta/1000`. The race ends in the same update in which the last tile of the list has `y < 600` |
| `GameLoop.Game.FinishRace` | js/main.js:111-116 | The state becomes finished |
| `GameLoop.Game.Render` | js/main.js:118-124 | The frame is the renderer's frame of the track's tiles with no racers |
| `GameLoop.Game.Loop` | js/main.js:126-136 | Always sets `lastTime := timestamp`. It advances the race only when the delta is under 1000 ms, then draws the frame |
| `GameLoop.Game.RefreshTrack` | js/main.js:146-153 | Recomputes `WIDTH = 1200·Z`, `HEIGHT = 1800·Z` and `initialX = −WIDTH/2 + 600`, then regenerates, with other settings unchanged |
| `GameLoop.Game.SetZoom` | js/main.js:177-187 | A zoom value is applied, and the track refreshed, only when it is a number greater than zero: the new size and `initialX` follow from the zoom, and ratio, chain height, sequence and images are kept. Otherwise nothing changes |
| `GameLoop.Game.SetChainHeight` | js/main.js:155-164 | Any number, negative ones included, becomes the chain height and the track is refreshed: size and `initialX` recomputed from the zoom, and zoom, ratio, sequence and images kept. A non-number changes nothing |
| `GameLoop.Game.SetOffsetRatio` | js/main.js:166-175 | Any number becomes the diagonal ratio and the track is refreshed: size and `initialX` recomputed from the zoom, and zoom, chain height, sequence and images kept. A non-number changes nothing |
| `GameLoop.Game.KeyDown` | js/main.js:189-198 | ArrowUp/ArrowDown change the chain height by ±2 and ArrowRight/ArrowLeft change the ratio by ±0.005, each leaving the other setting, the zoom, the sequence and the images as they were, and each followed by a refresh that recomputes size and `initialX`. Other keys, or no track, change nothing |

## Findings

| source | as written | input that shows it | evidently intended | confidence | as-written member | corrected member |
|---|---|---|---|---|---|---|
| js/renderer.js:66 | `Math.floor(racer.y)`, but `Racer` has no `y` property (it keeps `yPosOnScreen`, js/entities.js:30), so the image, border and label get a NaN `y` and nothing is drawn | any unfinished `Racer` with an image passed to `render(track, [racer])` | place the racer at `Math.floor(racer.yPosOnScreen)` | not executed; latent, since js/main.js never passes racers | `Renderer.RacerInvisibleAsWritten` | `Renderer.DrawRacer` |

## Left out

- Asset loading (`loadAssets`, `Image`, promises, cache-busting `Date.now()`): `Game.Init` takes the map of loaded images as a parameter. A name that failed to load has no image.
- DOM lookups, event-listener wiring, button text and visibility, status text, and the `window.gameInstance` handle. The listeners' bodies are modelled as `StartRace`, `SetZoom`, `SetChainHeight`, `SetOffsetRatio` and `KeyDown`. `parseFloat` yielding NaN is `None`.
- The restart button's handler: it calls `Game.reset`, which does not exist.
- The timer text (`toFixed`, `padStart`), which is float-to-string formatting.
- `requestAnimationFrame` re-scheduling: `Loop` is one frame. `performance.now()` is the `now` parameter.
- `Racer`'s `sinOffset`, `oscillationFrequency` and `lastSpeedChange` fields. The first two only feed the oscillation term, which is the `bonus` parameter. The third is never read.
- `Racer.update`'s `trackSpeed` and `allRacers` parameters, which the source never reads.
- Start-table lookups for names that are `Object.prototype` properties (such as `"constructor"`).
- The canvas's own behaviour (`imageSmoothingEnabled`, fonts, line width as pixels): the model records the calls only.
- `Renderer.Frame`, `Renderer.DrawRacers`, `Renderer.Render`, `Renderer.FrameDrawsTilesInListOrder` and `Renderer.FrameDrawsVisibleTilesInListOrder`: racers are placed at `yPosOnScreen`, the corrected reading of js/renderer.js:66. The as-written NaN placement is modelled per racer only, in `RacerInvisibleAsWritten`.
- The draws `Init` and `StartRace` make right after pre-scrolling (`renderer.render(this.track)` at js/main.js:49 and js/main.js:88), and the first `this.loop(this.lastTime)` at js/main.js:56. They change no state; `Game.Render` and `Game.Loop` give the frame they draw.
- IEEE floating point: numbers are exact reals. NaN appears only as the racer `y` coordinate in the finding above.
- `Entities.Racer.Update`: does not bound `bonus` to [−10, 10]. Nothing proved depends on it, and progress is not claimed to be monotone, since the bonus can make the speed negative.
