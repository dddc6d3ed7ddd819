# Object-detection demo: scheduling loop and overlay renderer

This project models the core of a browser demo that runs an object detector on
a webcam stream. Once per animation frame, `detectLoop` runs the detector on
the video frame if the frame is new. It redraws the bounding-box overlay when
more than `DRAW_OBJECTS_INTERVAL` has passed since the last redraw. It reports
the mean time per detection when more than `DRAW_PROCESSING_TIME_INTERVAL` has
passed since the last report. `drawObjects` clears the canvas and draws one
labelled rectangle per (detection, category) pair with `drawBox`.

Two modules:

- `Overlay` (overlay.dfy) holds the renderer.
  - The detection datatypes and the canvas calls as a `Command` datatype.
  - The label text of a category. The decimal text of the category index has
    a proved parse-back.
  - The nine commands of one box, and the command sequence of a whole
    overlay.
  - A `Canvas` class whose `DrawBox` and `DrawObjects` methods append to a
    command log. `DrawObjects` keeps the source's nested loops and is proved
    against `OverlayCommands`.
- `Scheduling` (scheduling.dfy) holds the loop.
  - The four loop variables, as `LoopState` and as the fields of the
    `DetectLoop` class.
  - `Step`, one call of `detectLoop`, and `Run`, a sequence of calls.
  - A reference reading of the action log: the last redraw, the last report,
    and the detections since the last report. Predicates say that redraws and
    reports keep their intervals and that every report divides by at least
    one detection.
  - `DetectLoop.Tick` and `DetectLoop.RunTicks`, proved equal to `Step` and
    `Run`. Their canvas output is proved equal to the overlays that the
    redraws in the log produce.

The detector, the clock (`performance.now()`) and the video position
(`video.currentTime`) are read in the source. Here they are fields of a
`Frame` that the caller hands to each tick. The detector's result for that
frame is one of those fields. Timestamps are `real`. The two intervals are a
`Config`, and `DefaultConfig` holds the source's values, 0.1 and 0.25. They
are compared literally against differences of clock readings, as the source
compares them, whatever unit the clock uses.

## Model

| member | source | states |
|---|---|---|
| Overlay.Canvas.DrawBox | index.ts:17-33 | appends `beginPath`, the label stroke 8 px above (x, y), then a closed path (x,y)→(x+w,y)→(x+w,y+h)→(x,y+h)→(x,y), nothing else |
| Overlay.BoxPath | index.ts:26-30 | the path of one box visits exactly the five points top-left, top-right, bottom-right, bottom-left, top-left |
| Overlay.BoxTexts | index.ts:22-24 | one box strokes exactly one text, its label, at (x, y - 8) |
| Overlay.BoxTracesRectangle | index.ts:22-32 | a box's path is closed, its four sides are axis-parallel, it visits every corner and nothing else; its one label sits at the left edge 8 px above the top edge |
| Overlay.NatTextRoundTrip | index.ts:75 | the decimal digits written for a non-negative index read back to that index |
| Overlay.NatTextDigits | index.ts:75 | the index text consists of digits with no leading zero |
| Overlay.IntTextRoundTrip | index.ts:75 | the text of any integer index (sign, then digits) is well formed and reads back to the index |
| Overlay.AllJobsLength | index.ts:72-79 | there are as many boxes as (detection, category) pairs |
| Overlay.AllJobsAt | index.ts:72-79 | the box of pair (i, j) is box number CategoryCount(ds[..i]) + j: it comes right after all the boxes of detections 0..i-1 and is the j-th box of detection i |
| Overlay.CommandsAt | index.ts:74-78 | box number k is drawn by commands 9k .. 9k+9 |
| Overlay.OverlayBlock | index.ts:71-79 | after the clear, box number k of the overlay is drawn by commands 1+9k .. 1+9k+9 |
| Overlay.OverlayLength | index.ts:70-79 | an overlay is one full-canvas clear and then 9 commands per (detection, category) pair |
| Overlay.OverlayShape | index.ts:70-79 | commands 1 + 9k .. 1 + 9k + 9 of the overlay, for the pair (i, j) numbered k in list order, draw category j's label at detection i's box |
| Overlay.Canvas.DrawObjects | index.ts:70-80 | the nested loops append exactly `OverlayCommands(ds)` to the log (a clear, then every pair's box in order); a detection with categories must have a box |
| Scheduling.Step | index.ts:43-63 | a frame at the last seen position does nothing and changes nothing; a new frame runs the detector first, with the start time; the last seen position becomes the frame's; the counter goes up by one or restarts at 0 |
| Scheduling.StepDetectsOnce | index.ts:44-48 | a tick runs the detector exactly once on a new position and never on an old one |
| Scheduling.StepDrawsWhenDue | index.ts:50-53 | the overlay is redrawn, with the detections just returned, if and only if the frame is new and endTime - lastObjectDrawTime exceeds the interval; the redraw time becomes endTime exactly then; a new frame issues exactly one detection, one redraw if due and one report if due, so a due redraw happens exactly once |
| Scheduling.StepReportsWhenDue | index.ts:44-60 | the throughput is reported if and only if the frame is new and endTime - lastProcessingTimeDrawTime exceeds its interval; the figure is that difference over the detections since the last report, this one included (so the divisor is at least 1); with a report, the report time becomes endTime and the counter 0; without one, the report time is unchanged and the counter goes up by one on a new frame and stays put on an old one; a new frame issues exactly one detection, one redraw if due and one report if due, so a due report happens exactly once |
| Scheduling.FirstTickFiresBoth | index.ts:35-40 | from the sentinel state, the first tick on a real position with a non-negative clock redraws and reports; the first figure is endTime + 1, the inaccurate first value that the source's comment mentions |
| Scheduling.RunDetections | index.ts:44-62 | over any sequence of ticks, the last seen position is the last frame's, and the detector runs once per change of position |
| Scheduling.HeldPositionDetectsOnce | index.ts:44-62 | a video held on one new frame for any number of ticks is detected exactly once |
| Scheduling.DetectExplained | index.ts:45-48 | running the detector adds one detection to the count since the last report, and nothing else the log explains changes |
| Scheduling.DrawExplained | index.ts:50-53 | a due redraw comes more than the interval after the previous one, and afterwards lastObjectDrawTime is the time of the latest redraw in the log |
| Scheduling.ReportExplained | index.ts:55-60 | a due report comes more than its interval after the previous one, divides by the detections since then (at least one), and afterwards the report time and the restarted counter match the log |
| Scheduling.StepExplained | index.ts:43-63 | one tick keeps the loop variables equal to what the action log says and keeps the log well timed |
| Scheduling.RunExplained | index.ts:35-68 | over any run from start-up: lastObjectDrawTime is the time of the last redraw (or -1); lastProcessingTimeDrawTime is the time of the last report (or -1); detectionsSinceLastRefresh is the number of detections since the last report; every redraw and every report comes more than its interval after the previous one; every report is the elapsed time over a count of at least one |
| Scheduling.DetectLoop.constructor | index.ts:37-40 | the loop starts with every time at -1 and the counter at 0 |
| Scheduling.DetectLoop.Tick | index.ts:43-63 | the fields change as `Step` says; it returns `Step`'s actions; the canvas receives exactly the overlay of a redraw, if there is one; boxes are needed only when the redraw is due |
| Scheduling.DetectLoop.RedrawIfDue | index.ts:50-53 | the fields and actions change as the redraw stage of `Step` says; the canvas receives the overlay of the detections exactly when the redraw is due; boxes are needed only then |
| Scheduling.DetectLoop.ReportIfDue | index.ts:55-60 | the fields and actions change as the report stage of `Step` says, dividing by a counter of at least one; the canvas is untouched |
| Scheduling.DetectLoop.RunTicks | index.ts:65-67 | ticking frame after frame changes the fields as `Run` says; it returns `Run`'s actions; the canvas receives the overlays of all redraws in order; boxes are needed only on the ticks whose redraw is due |

## Left out

- Camera access, the video element, the detector's construction and its model files (index.ts:86 onward) are not modelled. Neither are the DOM lookups and styling (index.ts:10-15, 19-21, 23, 25): only the calls that put content on the canvas are modelled.
- `requestAnimationFrame` (index.ts:65-67) re-arms the loop forever. `DetectLoop.RunTicks` runs it over a finite sequence of frames that the caller supplies.
- The detector, `performance.now()` and `video.currentTime` are inputs of `Frame`. `video.currentTime` is read twice, at index.ts:44 and index.ts:62. It is modelled as one value, because a media element's current position does not change within one synchronous task.
- Score formatting with `toFixed(2)` (index.ts:76) is not modelled. A category carries its score as the text that formatting produces.
- The throughput text (index.ts:82-84) is not modelled. Its figure is carried by the `DrewProcessingTime` action.
- Index formatting: `IntText` writes an integer as a sign and decimal digits. JavaScript's exponent notation for magnitudes of 1e21 and above is not modelled, and category indices never reach it.
- Numbers are `real`, not floating point. Rounding, NaN and infinities are not modelled.
- The unit mismatch between the second-valued intervals and the millisecond clock is kept as written: the intervals are compared literally against clock differences.
- Overlay.Canvas.DrawObjects requires that a detection with categories has a box. The source asserts `boundingBox` non-null at index.ts:73, before the category loop. That assertion is erased at run time. The box is first read at index.ts:77, inside the category loop. So a box-less detection with a category throws there, and one without categories draws nothing. The model follows the code. `DetectLoop.Tick` and `DetectLoop.RunTicks` need boxes only on the ticks whose redraw is due (`RedrawDue`), the only ticks on which the source reads them.
- A detector that throws (index.ts:46) is not modelled: a `Frame` always carries a detection result. In the source such a throw leaves the counter unchanged and draws nothing. It also skips the `requestAnimationFrame` re-arm at index.ts:65, so the loop stops for good.
