# Loading-screen reveal animation, modelled in Dafny

This project models the core of a p5.js loading-screen animation: one
`Animation` object turns a base image into a destination image in timed
phases, each with its own border-line or crossfade geometry and its own sound
cue. The model follows `src/Animation.js`: the constructor, `draw()` and the
`easeOut` helper.

Each `draw()` call becomes the pure function `Animation.Draw(a, now, w, h)`.
It takes the animation's state, the clock reading and the canvas size. It
returns the next state and the commands the call issues, in order: sound
triggers (`PlaySound(i)`) and abstract drawing commands (`DrawBase`,
`DrawDest(rect, opacity)` and `DrawLine`). The state record holds
`hasStarted`, `startTime`, the three `soundsHavePlayed` flags, `hasFinished`
and the fixed destination corner. Time and geometry use exact `real`
arithmetic.

Files:

- `easing.dfy` (module `Easing`): `easeOut(x, n) = 1 - (1 - x)^n` and its shape.
- `geometry.dfy` (module `Geometry`): the margin and the 80 by 60 destination size; the border lines of the two reveals and the boxes they frame; the crossfade rectangle and opacity.
- `animation.dfy` (module `Animation`): the phase windows as a table; the chain of tests `draw` runs; the state; `Draw`; one lemma per phase.
- `runs.dfy` (module `Runs`): `Run` folds `Draw` over a sequence of clock readings. Its lemmas cover whole lifetimes: the start time is fixed once, each cue plays at most once, and `hasFinished` is monotone. A concrete end-to-end timeline is included.

The phase windows are open intervals between the breakpoints 1000, 2300,
3600 and 4400 ms. The first window has no lower bound and the last has no
upper bound. A tick exactly on a breakpoint runs no branch. In the model that
tick is the `Boundary` phase: it draws nothing and changes nothing except the
lazy start.

## Notes

- `1 - (1 - x)^3` lies above the identity on (0,1): the reveals move fast at first and slow down towards the end. `Easing.EaseOutShape` proves `x < EaseOut(x) < 1` there.
- `draw` finishes only when `4400 < t`, so a tick at exactly 4400 ms finishes nothing (`Animation.DrawBoundary`).
- No branch runs at exactly 3600 ms. The destination region and the whole canvas are only the crossfade formula's values at progress 0 and 1 (`Geometry.ExpandRectEndpoints`). Every drawn frame has progress strictly inside (0,1) (`Animation.ProgressInOpenUnit`).

## Model

| member | source | states |
|---|---|---|
| Easing.EaseOutN | src/Animation.js:204-206 | the curve `1 - (1 - x)^n` is 0 at x = 0 for every exponent and 1 at x = 1 for every positive exponent |
| Easing.EaseOut | src/Animation.js:204-206 | with the default exponent 3 the curve goes from 0 at 0 to 1 at 1, maps [0,1] into [0,1], and is strictly ahead of linear progress and strictly below 1 on (0,1) |
| Easing.EaseOutNEndpoints | src/Animation.js:204-206 | easeOut(0, n) = 0 for every n; easeOut(1, n) = 1 for n >= 1; with n = 0 the curve is 0 at 1 because 0^0 = 1 |
| Easing.EaseOutNStrictlyIncreasing | src/Animation.js:204-206 | for every positive exponent the curve is strictly increasing on [0,1] |
| Easing.EaseOutNUnitInterval | src/Animation.js:204-206 | the curve maps [0,1] into [0,1], and for a positive exponent it is never below the identity there; from exponent 2 up it is strictly above the identity on (0,1) |
| Easing.EaseOutShape | src/Animation.js:204-206 | with the default exponent 3: easeOut(0) = 0, easeOut(1) = 1, strictly increasing on [0,1], maps [0,1] into [0,1], and x < easeOut(x) < 1 on (0,1) |
| Easing.PowUnitBounds | src/Animation.js:205 | a power of a base in [0,1] stays in [0,1] and, for a positive exponent, does not exceed the base; with exponent 2 or more it is strictly below a base in (0,1) |
| Easing.PowStrictlyIncreasing | src/Animation.js:205 | for a positive exponent, the power is strictly increasing on the non-negative reals |
| Geometry.DestRegion | src/Animation.js:76-77 | the destination region has its top-left corner at the destination point and is 80 wide and 60 high |
| Geometry.CanvasRect | src/Animation.js:43-44 | the canvas rectangle starts at the origin and is w wide and h high |
| Geometry.InsetBox | src/Animation.js:45-48 | the hold frame's box lies the margin inside each edge of the canvas |
| Geometry.RevealNear | src/Animation.js:79 | the top line of the vertical reveal (and, with the same formula at line 113, the left line of the horizontal reveal) is at the margin at progress 0 and on the region's near edge at progress 1 |
| Geometry.RevealFar | src/Animation.js:80 | the bottom line (and, with the same formula at line 114, the right line) is at extent minus margin at progress 0 and on the region's far edge at progress 1 |
| Geometry.VerticalRevealBox | src/Animation.js:67-83 | the box framed by the vertical reveal's four lines keeps its sides at the inset; it is the hold frame's inset box at progress 0 and has its top and bottom on the region at progress 1 |
| Geometry.HorizontalRevealBox | src/Animation.js:105-117 | the box framed by the horizontal reveal's four lines is the box the vertical reveal ended on at progress 0 and the destination region at progress 1 |
| Geometry.ExpandRect | src/Animation.js:140-150 | the crossfade rectangle is the destination region at progress 0 and the whole canvas at progress 1 |
| Geometry.Opacity | src/Animation.js:138 | opacity is 0 at progress 0, 255 at progress 1, and strictly between them for progress in (0,1) |
| Geometry.RevealNearPath | src/Animation.js:76-79 | the top line (and, in phase 2, the left line) is at the margin at progress 0 and on the region edge at progress 1; for progress in [0,1] it is a convex combination of the two, strictly inside them for progress in (0,1) |
| Geometry.RevealFarPath | src/Animation.js:77-80 | the bottom line (and, in phase 2, the right line) goes from extent minus margin at progress 0 to the region's far edge (y + 60, or x + 80) at progress 1, staying between them |
| Geometry.ExpandRectEndpoints | src/Animation.js:140-150 | the crossfade rectangle equals (x, y, x+80, y+60) at progress 0 and (0, 0, w, h) at progress 1 |
| Geometry.ExpandRectGrows | src/Animation.js:140-150 | if the region lies on the canvas, the crossfade rectangle grows with progress, always contains the region, and always lies on the canvas |
| Geometry.OpacityRange | src/Animation.js:136-138 | opacity is 0 at progress 0 and 255 at progress 1, and strictly between them inside the phase |
| Animation.PhaseOf | src/Animation.js:40-168 | the chain of tests at lines 40, 52, 88, 122 and 165 lands in timed phase k exactly when the elapsed time is in window k of the table, and falls through every test exactly on a breakpoint |
| Animation.WindowsDisjoint | src/Animation.js:40-168 | the five windows of the table are pairwise disjoint: no elapsed time lies in two of them |
| Animation.CuedWindows | src/Animation.js:52-165 | the three cued windows and the end window each match their branch of the chain |
| Animation.PhaseOfMonotone | src/Animation.js:40-168 | a later elapsed time is never in an earlier phase |
| Animation.VerticalProgress | src/Animation.js:53-74 | the eased progress of the vertical reveal is 0 at 1000 ms, 1 at 2300 ms, and strictly inside (0,1) between them |
| Animation.HorizontalProgress | src/Animation.js:89-108 | the eased progress of the horizontal reveal is 0 at 2300 ms, 1 at 3600 ms, and strictly inside (0,1) between them |
| Animation.CrossfadeProgress | src/Animation.js:123-136 | the linear progress of the crossfade is 0 at 3600 ms, 1 at 4400 ms, and strictly inside (0,1) between them |
| Animation.ProgressInOpenUnit | src/Animation.js:52-136 | inside their windows, the eased progress of both reveals and the linear crossfade progress lie strictly in (0,1) |
| Animation.New | src/Animation.js:4-21 | a new animation is not started and not finished, has no cue played, and keeps its destination corner |
| Animation.StartedOnly | src/Animation.js:24-27 | the lazy start: an animation that has started is left unchanged; one that has not starts at the current reading; no other field changes |
| Animation.Elapsed | src/Animation.js:38 | the elapsed time is measured from the start time the draw fixes, so the first draw sees 0 |
| Animation.HoldCommands | src/Animation.js:41-48 | the base image, then four lines that are exactly the edges of the canvas inset by the margin; no cue |
| Animation.VerticalCommands | src/Animation.js:62-83 | the base image, then four lines that are exactly the edges of the vertical reveal's box at the eased progress; no cue |
| Animation.HorizontalCommands | src/Animation.js:98-117 | the base image, then four lines that are exactly the edges of the horizontal reveal's box at the eased progress; no cue |
| Animation.CrossfadeCommands | src/Animation.js:131-160 | the base image, the destination image into the crossfade rectangle at the opacity for the linear progress, then four lines that are exactly that rectangle's edges; no cue |
| Animation.PhasesJoin | src/Animation.js:62-150 | the phases join up: the vertical reveal starts from the hold frame, the horizontal reveal starts where the vertical one ends and ends on the destination region, and the crossfade rectangle is that region at 3600 ms and the whole canvas at 4400 ms |
| Animation.Cue | src/Animation.js:57-60 | the play-once block: it sets the cue's flag and leaves the other flags, the start and the finished flag alone; its commands are the phase body, preceded by `PlaySound(i)` exactly when the flag was clear |
| Animation.Dispatch | src/Animation.js:40-168 | the phase dispatch on a started state keeps the start; it raises the finished flag exactly past 4400 ms and sets cue flag i exactly when the elapsed time is in window i+1 |
| Animation.Draw | src/Animation.js:23-168 | start time is fixed on the first call and kept after; cue flag i is set exactly when it was set before or the elapsed time is in window i+1; hasFinished is set exactly when it was already set or the elapsed time is past 4400 |
| Animation.DrawPlays | src/Animation.js:52-129 | a draw plays cue i exactly once if the elapsed time is in window i+1 and the cue has not played before; otherwise it does not play cue i |
| Animation.DrawPlaysAtMostOneCue | src/Animation.js:40-168 | the windows exclude each other and every branch ends in `return`, so a single draw plays at most one of the three cues |
| Animation.CuePlays | src/Animation.js:57-60 | a cued phase body plays its own cue at most once and plays no other cue |
| Animation.DrawHold | src/Animation.js:40-50 | before 1000 ms: no cue, no flag change, hasFinished unchanged; only the base image and four border lines at margin, w - margin, margin and h - margin are drawn |
| Animation.DrawBoundary | src/Animation.js:165-200 | at exactly 1000, 2300, 3600 or 4400 ms nothing is drawn or played and only the lazy start changes the state |
| Animation.DrawVerticalReveal | src/Animation.js:52-86 | in (1000, 2300): cue 0 plays unless already played; the two vertical lines stay at the inset; the top and bottom lines lie strictly between the inset and the region's top and bottom edges; hasFinished unchanged |
| Animation.DrawHorizontalReveal | src/Animation.js:88-120 | in (2300, 3600): cue 1 plays unless already played; the horizontal lines sit on the region's edges; the left and right lines lie strictly between the inset and the region's left and right edges |
| Animation.DrawCrossfade | src/Animation.js:122-163 | in (3600, 4400): cue 2 plays unless already played; the destination image is drawn with opacity strictly between 0 and 255; when the region lies on the canvas, that rectangle contains the region and lies on the canvas; four lines frame the rectangle |
| Animation.DrawDone | src/Animation.js:165-168 | past 4400 ms: the animation is marked finished; nothing is drawn or played; the cue flags are unchanged |
| Runs.Run | src/Animation.js:23-168 | one draw per clock reading: the destination never moves, the animation has started once any tick is drawn, and no cue flag or finished flag is ever cleared |
| Runs.RunStartTime | src/Animation.js:24-27 | the start time comes from the first reading unless already set, and is never reassigned afterwards |
| Runs.RunCues | src/Animation.js:57-60 | over any run, cue i plays exactly once if it had not played and some tick lands strictly inside its window, and never otherwise (a skipped window stays silent); its flag is set at the end exactly in that case or if it was set before |
| Runs.RunFinished | src/Animation.js:165-168 | a run ends finished exactly when the animation was already finished or some tick lies past 4400 ms; the flag is never cleared |
| Runs.FreshRun | src/Animation.js:17-20 | from construction: the start is the first reading; the first draw shows the hold frame; each cue plays at most once, and exactly when some tick is in its window; the run ends finished exactly when some tick is past 4400 ms |
| Runs.ExampleTimeline | src/Animation.js:23-168 | region (100,100) on a 1024 by 768 canvas with ticks at 0, 500, 1650 and 4500 ms: hold frame twice; then cue 0 with lines at y = 87.625 and 235.875, since easeOut(0.5) = 0.875; then finished |

## Left out

- Rendering style calls are not modelled as commands: the line colour (4, 192, 255), the stroke weight 3, `imageMode(CORNERS)` and `tint`/`noTint`. The tint's opacity is carried by `DrawDest`.
- Image handles are not carried. `DrawBase` and `DrawDest` stand for drawing the base image and the destination image.
- The clock `p.millis()` is replaced by the `now` parameter. The first draw reads the clock twice, once for `startTime` and once for `t`; the model uses one reading for both, so the first draw sees an elapsed time of exactly 0.
- The canvas size is passed to each draw as `w` and `h`. The source reads `p.width` and `p.height` inside each branch. `Runs.Run` keeps one canvas size for a whole run, whereas the source would see a resized canvas on the next draw; no lemma depends on the size staying fixed.
- Before the first draw, `startTime` is undefined in the source. The model stores 0 and never reads it while `hasStarted` is false.
- IEEE-754 doubles and `Math.pow` are replaced by exact `real` arithmetic and a recursive power.
- `this.currentFrame++` on boundary ticks acts on a field that is never initialised. The model records only that such a tick runs no branch (`Animation.DrawBoundary`).
- The commented-out branches of `draw` (src/Animation.js:170-198) are not part of the behaviour.
- `src/recorder.js` (media capture and download) and `src/sketch.js` (canvas setup and a mouse handler) are not part of this model. Neither contains phase logic.
- The outer sequencer that calls `draw` and watches `hasFinished` is not part of this model. `Runs.Run` plays its role for a single animation.
- The sound handles' own playback is not modelled. A `PlaySound(i)` command is the call to `soundEffects[i].play()`.
