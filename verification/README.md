# Webcam object detector: detection history and screenshot model

A Dafny model of the bookkeeping inside the `WebcamCapture` React component
of a browser object detector. Every 100 ms the component runs a pretrained
COCO-SSD detector on the current webcam frame, publishes the result set as
its `predictions` state and records a *first sighting* in its detection
history for each predicted class that the history does not yet hold. Each
history entry carries an annotated screenshot of the hidden canvas. The user
can also take a manual screenshot, hide the bounding boxes, move the
confidence-threshold slider and switch between the front and back camera.

The model is split by concern:

- `Shapes` (shapes.dfy): predictions, bounding boxes, frames, the video
  element, canvas draw commands, encoded images and history entries.
- `Threshold` (threshold.dfy): the `score >= confidenceThreshold` filter.
- `Annotation` (annotation.dfy): label placement, the marks drawn per kept
  prediction, the image a capture produces, and the live overlay.
- `Drawing` (drawing.dfy): the hidden `<canvas>` as a class whose methods
  record draw commands, and the drawing loop.
- `History` (history.dfy): the first-sighting rule as functions, with the
  lemmas about what a tick adds to the history.
- `Camera` (camera.dfy): the `'user'` / `'environment'` facing toggle.
- `Session` (session.dfy): the component's state as the class
  `WebcamCapture`, with the detection tick, both capture paths and the
  toggles as methods.

A tick builds one candidate entry per prediction. It captures a candidate
when the candidate's class does not occur in the history *as it stood when
the tick began*, and it prepends each capture, so the history is newest
first. The duplicate check never looks at entries captured earlier in the same tick.
So a new class that appears twice in one result set is captured twice
(`History.NewClassTwiceInOneTick`), and the history does **not** keep at
most one entry per class in general. What does hold is the per-class count
law `History.TickClassCount`: a class the history already held gains no
entry, and any other class gains one entry per candidate carrying it.
"One entry per class" survives a tick exactly when the history had at most
one entry per class and no class new to it occurs twice among the tick's
candidates: `History.AtMostOnePerClassPreserved` proves that this suffices
and `History.AtMostOnePerClassOnlyWhen` that it is necessary.

The model follows the code in two places where it behaves differently
from what a reader of the interface would expect:

- An automatic screenshot is meant to show the result set that triggered
  the capture, filtered at the current threshold. The code draws other
  values. The tick is a `useCallback` with dependencies `[model,
  detectionHistory]` (src/components/WebcamCapture.js:59). It is re-created
  only after the model loads or the history changes, and it keeps the
  `predictions` and `confidenceThreshold` of that render. The model holds
  these as `callbackPredictions` and `callbackThreshold`. `OnModelLoaded`
  sets them, and a tick refreshes them only when it grew the history. Take
  a cat first seen at (1, 1), then seen again at (50, 50), then a dog. The
  second tick captures nothing, so the callback is not re-created. The
  dog's screenshot therefore shows the cat at (1, 1)
  (`Session.DogTick`, called from `Session.StaleCallbackScenario`).
- One might expect the history to record only detections that reach the
  threshold. The code does not consult the threshold when it decides to
  capture, so a low-score prediction claims its class for good. The
  threshold only filters what is drawn.

## Model

| member | source | states |
|---|---|---|
| `Threshold.AboveThreshold` | src/components/WebcamCapture.js:80 | the filtered list is never longer than the predictions |
| `Threshold.AboveThresholdKeeps` | src/components/WebcamCapture.js:109 | every kept prediction comes from the input and reaches the threshold, and every input prediction that reaches it is kept |
| `Threshold.AboveThresholdAppend` | src/components/WebcamCapture.js:80 | filtering a concatenation filters each part in place, so the kept predictions stay in input order |
| `Threshold.AboveThresholdSingle` | src/components/WebcamCapture.js:191 | one prediction is kept exactly when its score is at least the threshold |
| `Threshold.RaiseThreshold` | src/components/WebcamCapture.js:191 | filtering at a lower and then a higher threshold equals filtering at the higher one; at equal thresholds the filter is idempotent |
| `Annotation.LabelY` | src/components/WebcamCapture.js:87 | the label goes above the box's top edge when the box's y exceeds 10 and below that edge otherwise; for y >= 0 its baseline lies below the canvas's top edge (y > 0) |
| `Annotation.Annotate` | src/components/WebcamCapture.js:85-87 | one prediction yields two marks, a box and then a label with the prediction's class at the box's x, whose baseline is below the top edge for a box with y >= 0 |
| `Annotation.Plan` | src/components/WebcamCapture.js:81-88 | the annotations hold two marks per kept prediction |
| `Annotation.PlanAppend` | src/components/WebcamCapture.js:79-88 | annotating a concatenation concatenates the annotations |
| `Annotation.PlanSnoc` | src/components/WebcamCapture.js:81-88 | annotating one more prediction appends its box and its label |
| `Annotation.PlanAt` | src/components/WebcamCapture.js:82-87 | mark 2i is the i-th prediction's box at its bbox; mark 2i+1 is its class label at the box's x and at `LabelY` of the box's y |
| `Annotation.ScreenshotPlanShape` | src/components/WebcamCapture.js:107-118 | with bounding boxes hidden a screenshot has no marks; otherwise one box and one label per prediction that reaches the threshold, in order |
| `Annotation.ScreenshotPlan` | src/components/WebcamCapture.js:107-118 | a screenshot carries no marks when boxes are hidden, and never more than one box and one label per prediction |
| `Annotation.LabelPlacement` | src/components/WebcamCapture.js:116 | for a box with y >= 0, its label starts at the box's x, has its baseline below the canvas's top edge (y > 0), and lies above the box exactly when the box's y exceeds 10 |
| `Annotation.Shot` | src/components/WebcamCapture.js:102-120 | the exported image has the video's size and shows its frame, carries no marks when boxes are hidden, and at most two marks per prediction |
| `Annotation.BoxOf` | src/components/WebcamCapture.js:195-208 | an overlay box is placed and sized by the prediction's bbox and captioned with its class and score |
| `Annotation.Boxes` | src/components/WebcamCapture.js:192-209 | one overlay box per kept prediction, at its bbox and captioned with its class, in order |
| `Annotation.Overlay` | src/components/WebcamCapture.js:188-213 | the live overlay is empty when boxes are hidden; otherwise it has one box per prediction that reaches the threshold, and each box's score reaches it |
| `Drawing.Canvas.constructor` | src/components/WebcamCapture.js:187 | the hidden canvas starts blank |
| `Drawing.Canvas.Resize` | src/components/WebcamCapture.js:73-74 | setting the canvas size sets width and height and clears the canvas |
| `Drawing.Canvas.DrawImage` | src/components/WebcamCapture.js:76 | the video frame covers the canvas; the size is kept |
| `Drawing.Canvas.StrokeRect` | src/components/WebcamCapture.js:85 | appends one box mark and changes nothing else |
| `Drawing.Canvas.FillText` | src/components/WebcamCapture.js:87 | appends one text mark and changes nothing else |
| `Drawing.Canvas.ToDataURL` | src/components/WebcamCapture.js:91 | the exported image keeps the canvas's size, its frame and every mark drawn on it |
| `Drawing.DrawPlan` | src/components/WebcamCapture.js:81-88 | the drawing loop appends exactly the annotations of the kept predictions, in order, and keeps the size and the frame |
| `Drawing.DrawAnnotations` | src/components/WebcamCapture.js:79-88 | drawing the filtered predictions appends the annotations of those that reach the threshold |
| `History.NewDetections` | src/components/WebcamCapture.js:45-50 | one candidate per prediction, in order, with the prediction's class and score, the tick's timestamp and no screenshot |
| `History.Known` | src/components/WebcamCapture.js:54 | a class is in the history exactly when some history entry carries it |
| `History.Stamped` | src/components/WebcamCapture.js:92 | a captured entry carries the screenshot and is otherwise the candidate unchanged |
| `History.CaptureOf` | src/components/WebcamCapture.js:54-55 | one candidate adds nothing when its class is in the tick-start history and one entry of its class with the screenshot otherwise |
| `History.Prepended` | src/components/WebcamCapture.js:53-57 | a tick adds at most one entry per candidate |
| `History.PrependedStep` | src/components/WebcamCapture.js:53-57 | processing one more candidate puts its capture, if any, in front of the earlier captures |
| `History.KnownIffCounted` | src/components/WebcamCapture.js:54 | a class is in the history exactly when at least one entry carries it |
| `History.PrependedAppend` | src/components/WebcamCapture.js:93 | captures of later candidates come before those of earlier ones: the history is newest first |
| `History.PrependedLength` | src/components/WebcamCapture.js:53-57 | a tick adds one entry per candidate whose class is absent from the tick-start history, duplicates included |
| `History.PrependedClassCount` | src/components/WebcamCapture.js:53-57 | a tick adds no entry for a class the history held, and one per candidate for any other class |
| `History.AllKnownAddsNothing` | src/components/WebcamCapture.js:54-56 | a tick whose predictions all carry classes the history holds leaves the history unchanged |
| `History.PrependedSound` | src/components/WebcamCapture.js:53-57 | every added entry is a candidate of this tick with an absent class, carrying the capture's screenshot |
| `History.PrependedComplete` | src/components/WebcamCapture.js:53-57 | every candidate whose class is absent from the tick-start history is captured |
| `History.CaptureIgnoresScreenshot` | src/components/WebcamCapture.js:54 | which candidates are captured, and in what order, does not depend on the screenshot, hence not on the threshold it was drawn with |
| `History.TickClassCount` | src/components/WebcamCapture.js:53-57 | after a tick, a class's entry count is unchanged if the history held it, and grows by the number of its candidates otherwise |
| `History.AtMostOnePerClassPreserved` | src/components/WebcamCapture.js:53-57 | "at most one entry per class" survives a tick when no new class occurs twice among its predictions |
| `History.AtMostOnePerClassOnlyWhen` | src/components/WebcamCapture.js:53-57 | conversely, if a tick leaves at most one entry per class, the history had at most one per class and no new class occurred twice among the tick's predictions |
| `History.NewClassTwiceInOneTick` | src/components/WebcamCapture.js:54 | a new class predicted twice in one tick is captured twice, so the history can hold two entries for one class |
| `Camera.Toggled` | src/components/WebcamCapture.js:139 | the toggle always yields a facing mode; from a facing mode it yields the other one |
| `Camera.ToggleTwice` | src/components/WebcamCapture.js:139 | toggling twice restores the facing mode |
| `Session.TickRuns` | src/components/WebcamCapture.js:34 | a tick runs only with a webcam and a loaded model, and then exactly when the video's readyState is HAVE_ENOUGH_DATA (4) |
| `Session.WebcamCapture.constructor` | src/components/WebcamCapture.js:10-18 | no model and loading, no predictions, empty history, boxes shown, threshold 0.5, front camera |
| `Session.WebcamCapture.OnModelLoaded` | src/components/WebcamCapture.js:27-28 | once the model is set, loading is over, and the re-created tick callback sees the current predictions and threshold |
| `Session.WebcamCapture.CaptureScreenshotWithBoundingBoxes` | src/components/WebcamCapture.js:70-94 | prepends exactly one entry, the candidate whose screenshot is the frame annotated with the callback's predictions that reach the callback's threshold, and keeps every older entry in place |
| `Session.WebcamCapture.CaptureIfNew` | src/components/WebcamCapture.js:54-56 | captures the candidate only if its class is absent from the tick-start history |
| `Session.WebcamCapture.CaptureNew` | src/components/WebcamCapture.js:53-57 | the capture loop prepends exactly the first-sighting entries of the candidates to the history |
| `Session.WebcamCapture.DetectObjects` | src/components/WebcamCapture.js:33-59 | a tick that runs publishes the result set and prepends its first sightings to the history, whose old entries become its suffix; their screenshots are drawn with the callback's predictions and threshold, which the tick refreshes to this result set and the current threshold exactly when the history grew; without a webcam, a ready video or a model it changes nothing |
| `Session.WebcamCapture.CaptureScreenshot` | src/components/WebcamCapture.js:99-127 | the exported image is the frame plus the annotations of the current predictions that reach the current threshold, only when boxes are shown; the canvas then holds that image; the history is untouched |
| `Session.CatTick` | src/components/WebcamCapture.js:33-59 | from an empty history, a tick that sees a cat captures it and re-creates the callback with that result set |
| `Session.MovedCatTick` | src/components/WebcamCapture.js:53-59 | a tick that sees the known cat again publishes it but captures nothing and leaves the callback as it was |
| `Session.DogTick` | src/components/WebcamCapture.js:53-59 | after those two ticks, a tick that sees a dog captures it, and the dog's screenshot shows the cat where it was first seen, not where the last tick saw it |
| `Session.WebcamCapture.ToggleBoundingBoxes` | src/components/WebcamCapture.js:225 | flips whether boxes are shown |
| `Session.WebcamCapture.SetConfidenceThreshold` | src/components/WebcamCapture.js:250 | sets the threshold and never changes the history |
| `Session.WebcamCapture.ToggleCamera` | src/components/WebcamCapture.js:138-140 | switches the facing mode between `'user'` and `'environment'` |

## Left out

- The timer (`setInterval` every 100 ms) and overlapping asynchronous detector calls. The code has no guard against overlapping calls: a tick whose detector call outlasts 100 ms overlaps the next one. The model runs each tick to completion before the next, so it does not capture interleaved ticks.
- Session.WebcamCapture.DetectObjects: the model reads the video once per tick, so the guard, the detector and the captures all see the same video. The code checks `readyState` (line 34) before `await model.detect(video)` (line 42), and each capture re-reads `webcamRef.current.video` after the await (lines 71-76). In the code, a capture therefore draws the frame and size the video has when the detector returns, and still records the entry if the camera was toggled or the video stopped being ready in the meantime. The model does not capture this.
- Loading the COCO-SSD model and `model.detect`. These are a foreign library. The result set of a tick is a parameter of `DetectObjects`. `OnModelLoaded` only records that loading finished. A failed load is not handled by the code and is not modelled.
- Pixel drawing, `drawImage` scaling and JPEG encoding. An image is the frame it shows plus the list of marks drawn on it. The constant stroke and fill style (red, 2 px) is not recorded.
- Setting the video element's `width` and `height` at the start of a tick (lines 39-40). This is a DOM side effect with no state in the model.
- Download links for the manual screenshot and for history entries (`downloadScreenshot`). This is DOM I/O. `CaptureScreenshot` returns the image the link would receive.
- A manual screenshot without a webcam throws a TypeError in the code. The model returns `None` there and draws nothing.
- `toLocaleTimeString` timestamps. They are clock and locale output. The model uses one opaque timestamp per tick, while the code reads the clock once per candidate.
- The in-place write of `detection.screenshot`. No other code holds the candidate object, so it is modelled as a value update.
- The slider's string-to-number coercion. The slider stores `e.target.value`, a string (line 250). On the next render `confidenceThreshold.toFixed(2)` (line 243) throws on that string, so in the code no session goes on after the slider moves. The model stores a real and lets the session continue; this is a deliberate departure.
- Rendering: JSX, the welcome popup, dark mode, the `Confidence` tooltip and percentage formatting, and the history list. `src/App.js` only mounts the component.
