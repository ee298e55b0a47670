# Before/after video comparison, modelled in Dafny

`js/video_comparison.js` shows one video whose frames pack two variants
side by side (left half A, right half B) on a canvas, with a vertical split
line that follows the pointer: variant A left of the line, variant B right
of it. This project models the logic under the canvas and DOM calls:

- `geometry.dfy`, module `SplitGeometry` (pure): `Number.prototype.clamp`,
  the split column computed against the canvas and against the half-frame,
  the canvas size that keeps one half-frame's aspect ratio, the pointer
  normalisation, and the two `drawImage` rectangles of a frame.
- `playback.dfy`, module `Playback` (pure): the two-state playback machine
  behind the widget. Its state is the `isPlaying` flag and the number of
  queued draw callbacks. Its events are `play()`, `pause()` and one queued
  frame running. `Refresh` is one display refresh. Lemmas cover
  whole event sequences.
- `comparator.dfy`, module `Comparator` (imperative): class
  `VideoComparison` with the fields the source updates (`position`,
  `isPlaying`, the canvas `width`/`height`, the readiness listeners, the
  queued animation frames) and its operations `resize`, `play`, `pause`,
  `playWhenReady`, the readystatechange listener, the pointer handlers and
  one draw-loop step (`Tick`) and one display refresh (`Refresh`).
- `legacy.dfy`, module `Legacy`: the older `playVids` function, whose
  closures hold the position and an unconditional draw loop.

Numbers are JavaScript doubles, modelled as `real`. `requestAnimationFrame`
is modelled by `pendingFrames`, the count of queued draw callbacks. `Tick`
is one of those callbacks running, and it reports whether it queued the
next. A display refresh runs every callback queued before it
(`Playback.Refresh`). `video.play()`/`video.pause()` set the ghost flag
`mediaPlaying`. The media element's dimensions and readiness, the
container's width and the pointer's coordinates are parameters.

Facts about the code that shape the model:
- `resize` divides by the video width without a guard. The model requires
  a positive video width.
- The pointer handlers write `position` directly, unclamped. Clamping
  happens only where the draw routine uses it.
- The readiness listener is attached to `document`'s `readystatechange`
  event, not to the video. That event tracks the page's own loading. So a
  video that becomes ready after the page has finished loading is never
  started by this listener; it starts only at a later `playWhenReady()`
  call. The `readyStateListenerAttached` flag is never set.
- A touch event without touch points makes the handler throw before it
  stores the position, so the position is left as it was.
- The canvas `width`/`height` attributes are integers. `resize` stores the
  integer part of the computed size below 2^31, or the attribute's default
  (300 by 150) for values from 2^31 up to 2^32; larger values wrap modulo
  2^32 first (`CanvasDimension`). The draw routine
  keeps using the unrounded size.
- The handlers subtract the canvas's `getBoundingClientRect().x`, which is
  measured from the viewport, from the event's `pageX`, which is measured
  from the document. The two agree only while the page is not scrolled
  sideways.

## Model

| member | source | states |
|---|---|---|
| `SplitGeometry.Clamp` | js/video_comparison.js:7-9 | result never exceeds `max`, is at least `min` when `min <= max`, is `x` when `x` is in range, `min` below the range, `max` above it, and `max` whenever `max < min` |
| `SplitGeometry.ClampIdempotent` | js/video_comparison.js:7-9 | clamping twice equals clamping once, for any bounds |
| `SplitGeometry.ClampMonotone` | js/video_comparison.js:7-9 | clamp preserves the order of its inputs |
| `SplitGeometry.SplitColumn` | js/video_comparison.js:109-112 | for a non-negative extent, column start and width each lie in `[0, extent]`, for every position |
| `SplitGeometry.SplitColumnPartition` | js/video_comparison.js:109-112 | for every position, start + width == extent; position <= 0 gives `(0, extent)`, position >= 1 gives `(extent, 0)`, and in `[0, 1]` the start is `extent * position` |
| `SplitGeometry.SplitColumnScales` | js/video_comparison.js:109-112 | columns of two extents at one position are the same fraction of their extents (start and width scale by the ratio) |
| `SplitGeometry.CanvasSize` | js/video_comparison.js:55-62 | canvas width is the container width and `height * halfWidth == width * videoHeight` (aspect ratio of one half-frame); non-negative for non-negative inputs |
| `SplitGeometry.CanvasHeightUnique` | js/video_comparison.js:59 | the aspect-ratio equation has exactly one solution, the computed height |
| `SplitGeometry.Normalize` | js/video_comparison.js:35-42 | the normalised position `r` satisfies `bcr.x + r * bcr.width == pageX` |
| `SplitGeometry.NormalizeInRange` | js/video_comparison.js:35-42 | the position is in `[0, 1]` iff `pageX` is in `[bcr.x, bcr.x + bcr.width]`; below 0 left of it, above 1 right of it |
| `SplitGeometry.CanPlay` | js/video_comparison.js:83-87 | readiness test `readyState >= 3`; related to the legacy gate by `Legacy.LegacyGateStricter` |
| `SplitGeometry.DrawFrame` | js/video_comparison.js:101-118 | the two blits and the divider x of one frame; characterised by `BaseKeepsAspect`, `OverlayInsideRightHalf`, `OverlayFillsRightOfSplit`, `OverlayAlignedWithBase` and `WorkedExample` |
| `SplitGeometry.BaseKeepsAspect` | js/video_comparison.js:102-108 | the first blit reads exactly the left half at full height, `(0, 0, videoWidth / 2, videoHeight)`, ending where the right half begins; its destination is `(0, 0)` with the width and height `resize()` computes (before the attribute keeps its integer part), so it fills the canvas, with the source's aspect ratio |
| `SplitGeometry.OverlayInsideRightHalf` | js/video_comparison.js:111-118 | for every position the second blit's source starts at or right of the middle, has width >= 0 and ends at the frame's right edge (`2 * videoWidth`) |
| `SplitGeometry.OverlayFillsRightOfSplit` | js/video_comparison.js:109-118 | for every position the second blit's destination lies in the canvas and runs to its right edge; it is the whole canvas at position <= 0, empty at >= 1, and starts at the divider line in `[0, 1]` |
| `SplitGeometry.OverlayAlignedWithBase` | js/video_comparison.js:108-118 | the second blit uses the first blit's scale and offset, so variant B is registered with variant A |
| `SplitGeometry.WorkedExample` | js/video_comparison.js:101-118 | an 800x400 video in a 200-wide container at 0.25 gives a 200x200 canvas, destination column (50, 150) and source column (100, 300) offset by 400 |
| `Playback.StepLaws` | js/video_comparison.js:64-78 | `play()` twice equals `play()` once; `pause()` twice equals `pause()` once; `pause()` then `play()` plays again with a frame queued |
| `Playback.StepKeepsAlive` | js/video_comparison.js:64-78 | every event keeps "playing implies a frame is queued" |
| `Playback.RunKeepsAlive` | js/video_comparison.js:64-78 | over any event sequence, a playing widget always has a frame queued |
| `Playback.PlayingContinues` | js/video_comparison.js:178-180 | without `pause()`, the widget keeps playing and keeps the same queued frames across any number of frames and `play()` calls |
| `Playback.PausedDrains` | js/video_comparison.js:75-78 | once paused, each callback that runs retires itself, so after `pendingFrames` callbacks nothing is queued |
| `Playback.Step` | js/video_comparison.js:64-78 | one `play()`, `pause()` or drawFrame callback on the flag and the queued callbacks; characterised by `StepLaws`, `StepKeepsAlive`, `RunKeepsAlive`, `PlayingContinues` and `PausedDrains` |
| `Playback.Refresh` | js/video_comparison.js:178-180 | one display refresh: every callback queued before it runs once; characterised by `RefreshAfterPause` and `RefreshWhilePlaying` |
| `Playback.RefreshAfterPause` | js/video_comparison.js:75-78 | after `pause()`, the next refresh leaves nothing queued, however many loops were running |
| `Playback.RefreshWhilePlaying` | js/video_comparison.js:178-180 | while playing, a refresh leaves the flag and the queued callbacks as they were |
| `Playback.StepOneLoop` | js/video_comparison.js:64-73 | corrected `play()` step: queues a callback only when none is queued; characterised by `RunOneLoopKeepsSingle` |
| `Playback.RunOneLoopKeepsSingle` | js/video_comparison.js:64-73 | with the corrected `play()`, a single loop stays single and alive over any event sequence |
| `Comparator.CanvasDimension` | js/video_comparison.js:60-61 | a canvas dimension attribute stores the integer part of the assigned number below 2^31, and the attribute's default from 2^31 to 2^32 |
| `Comparator.VideoComparison.constructor` | js/video_comparison.js:13-23 | position 0.5, not playing, playback rate 0.5, no listener, no queued frame |
| `Comparator.VideoComparison.Resize` | js/video_comparison.js:55-62 | the canvas attributes hold the aspect-preserving size for the current container width |
| `Comparator.VideoComparison.Play` | js/video_comparison.js:64-73 | always resizes; the flag and queued frames follow `Playback.Step` for `play()` (queue one frame iff not already playing); position and listeners unchanged |
| `Comparator.VideoComparison.Pause` | js/video_comparison.js:75-78 | media stopped and `isPlaying` false, queued frames kept (`Playback.Step` for `pause()`), nothing else changed |
| `Comparator.VideoComparison.PlayWhenReady` | js/video_comparison.js:80-92 | plays iff `readyState >= 3`; otherwise adds one listener unless the flag is set, which it never is, and changes nothing else |
| `Comparator.VideoComparison.ReadyStateChange` | js/video_comparison.js:86-90 | the attached listeners together have the effect of one `play()` if there is a listener and `readyState >= 3`, and none otherwise |
| `Comparator.VideoComparison.TrackLocation` | js/video_comparison.js:34-38 | position becomes the normalised pointer x, unclamped |
| `Comparator.VideoComparison.TrackLocationTouch` | js/video_comparison.js:39-43 | position becomes the normalised x of the first touch; with no touch point nothing is stored |
| `Comparator.VideoComparison.MouseOut` | js/video_comparison.js:48 | position becomes exactly 0.5 |
| `Comparator.VideoComparison.Tick` | js/video_comparison.js:101-180 | one drawFrame callback draws `DrawFrame` for the current position and queues the next iff `isPlaying` (`Playback.Step` for a callback) |
| `Comparator.LastFrameAfterPause` | js/video_comparison.js:75-78 | with a single loop, after `pause()` exactly one more callback runs and it queues nothing |
| `Comparator.VideoComparison.Refresh` | js/video_comparison.js:99-180 | one display refresh runs every queued callback once: the new state is `Playback.Refresh` of the old, one frame is drawn per callback queued before it, each for the current position |
| `Playback.RunFramesSnoc` | js/video_comparison.js:178-180 | running k + 1 callbacks is running k and then one more, so a refresh can be run callback by callback |
| `Comparator.RestartWithinFrame` | js/video_comparison.js:64-78 | `play(); pause(); play()` before the next refresh, then that whole refresh: it draws two frames and leaves two queued, so two draw loops run |
| `Comparator.VideoComparison.PlayOneLoop` | js/video_comparison.js:64-73 | corrected `play()`: keeps at most one queued frame, so a single loop stays single |
| `Comparator.RestartWithinFrameOneLoop` | js/video_comparison.js:64-78 | the same sequence with the corrected `play()`: the refresh draws one frame and leaves one queued |
| `Comparator.ListenersAccumulate` | js/video_comparison.js:80-92 | two not-ready `playWhenReady()` calls attach two listeners |
| `Comparator.VideoComparison.PlayWhenReadyOnce` | js/video_comparison.js:80-92 | corrected `playWhenReady()`: sets the flag when it attaches, so at most one listener exists; when not ready, the playback state and the canvas are unchanged |
| `Comparator.ListenersAccumulateOnce` | js/video_comparison.js:85-90 | the same calls with the corrected version attach one listener |
| `Legacy.LegacyCanPlay` | js/video_comparison.js:196 | legacy readiness test `readyState > 3`; characterised by `LegacyGateStricter` |
| `Legacy.LegacyFrame` | js/video_comparison.js:215-219 | the legacy frame's blits and divider; characterised by `LegacyMatchesComparator` |
| `Legacy.LegacyGateStricter` | js/video_comparison.js:196 | the legacy gate `readyState > 3` implies `readyState >= 3`, and the two differ exactly at 3 |
| `Legacy.LegacyMatchesComparator` | js/video_comparison.js:215-219 | the legacy frame equals the comparator's frame for a container one half-frame wide |
| `Legacy.LegacyMerge.PlayVids` | js/video_comparison.js:185-197 | dimensions read once; starts the media and queues one frame iff `readyState > 3` |
| `Legacy.LegacyMerge.TrackLocation` | js/video_comparison.js:199-203 | position becomes the normalised pointer x if the handlers were attached |
| `Legacy.LegacyMerge.TrackLocationTouch` | js/video_comparison.js:204-208 | position becomes the first touch's normalised x if attached and a touch point exists |
| `Legacy.LegacyMerge.Tick` | js/video_comparison.js:215-220 | every legacy frame reschedules and draws `LegacyFrame` for the current position |

## Left out

- jQuery and DOM lookups, event registration, the window `resize` wiring, the `tab:show`/`tab:hide` wiring and style assignments (js/video_comparison.js:16-32, 45-52, 185-193). The events become calls of the corresponding methods.
- `requestAnimationFrame` and the media effects of `video.play()`/`video.pause()`. These are browser scheduling and media calls. They are modelled as `pendingFrames`, `Tick` and the ghost flag `mediaPlaying`.
- The rendering itself: pixels of `drawImage`, the handle circle, the divider stroke, the arrow glyph, colours and fonts (js/video_comparison.js:120-176, 223-274). Only the two blit rectangles and the divider's x are modelled.
- IEEE-754 rounding and non-finite values. Every equality is proved over exact reals.
- Division by zero before the metadata loads. Every member that sizes or draws (`CanvasSize`, `DrawFrame`, `Resize`, `Play`, `PlayOneLoop`, `Tick`, `Refresh`, and `PlayWhenReady`, `ReadyStateChange` and `PlayWhenReadyOnce` when the media can play) requires a positive video width. The pointer handlers require a positive bounding-rectangle width.
- The `self.bcr` cache that the pointer handlers write. Nothing reads it.
- `console.log` calls.
- `resizeAndPlay` (js/video_comparison.js:284-292). This is page wiring that sizes the legacy canvas and calls `playVids`.
- Which events fire `readystatechange`. This is decided by the browser's document life cycle. `ReadyStateChange` models one firing, so the model does not show that the event stops once the page has loaded.
- The page's horizontal scroll offset. `Normalize` takes `pageX` and the bounding rectangle's `x` as given, so on a page scrolled sideways the position it yields is off by the scroll offset over the width.
- Repeated `playVids` calls on one element, and the implicit global `bcr` in the legacy handlers.

## Findings

| source | as written | input that shows it | evidently intended | confidence | as-written member | corrected member |
|---|---|---|---|---|---|---|
| js/video_comparison.js:64-78 | `play()` queues a new draw loop whenever `isPlaying` is false, even when a frame queued before `pause()` is still pending | `play()`, `pause()`, `play()` within one display refresh (a quick tab hide/show): the next refresh runs both queued frames, both see `isPlaying` and reschedule, so every refresh draws twice from then on | one draw loop at a time, as the early return in `play()` intends | medium, not executed | `Comparator.RestartWithinFrame` | `Comparator.VideoComparison.PlayOneLoop` |
| js/video_comparison.js:85-90 | `readyStateListenerAttached` is tested but never assigned | two `playWhenReady()` calls while `readyState < 3` attach two listeners, and every later not-ready call attaches one more | attach the listener once | high, not executed | `Comparator.ListenersAccumulate` | `Comparator.VideoComparison.PlayWhenReadyOnce` |

`VideoComparison.Play` and `VideoComparison.PlayWhenReady` model the code
as written. The corrected `PlayOneLoop` and `PlayWhenReadyOnce` sit beside
them on the same class. `Playback.StepOneLoop` is the corrected step, and
`Playback.RunOneLoopKeepsSingle` proves the intended single-loop property
for it.
