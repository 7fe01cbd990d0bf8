# ROI collector component, modelled in Dafny

`AppComponent` of the ROI collector shows a webcam snapshot on a canvas, lets
the user drag a rectangular region of interest over it, blits that region onto
a second canvas and builds an export record holding the snapshot's data URL
and the rectangle. This project models the component's state and its handlers
and proves what they do.

- `wrappers.dfy` (module `Wrappers`): `Option` for the nullable fields, `Result`
  for the export, which fails when there is no snapshot.
- `canvas.dfy` (module `Canvas`): nullable numbers (`Num`), image elements
  (`Bitmap`) and the drawing calls (`DrawCmd`: `clearRect`, the 3- and
  9-argument `drawImage`, `strokeRect`). Each canvas is an append-only log of
  these calls, so that the fixed 500×500 and 640×480 clears, the outline at the
  current rectangle and the crop blit can be stated without pixels.
- `component_model.dfy` (module `ComponentModel`): the component's fields as a
  value `Model`, one function per handler giving the state after it (these are
  the reference definitions the class is proved against), the object invariant
  `Inv`, and `Event`/`Step`/`Run` for sequences of events.
- `component_properties.dfy` (module `ComponentProperties`): lemmas about the
  handlers and about whole gestures.
- `app_component.dfy` (module `App`): `class AppComponent` with the source's
  fields, updated in place by methods whose postconditions tie the new state to
  the `ComponentModel` function of the old one and keep `Inv`; and two client
  scenarios that run on a fresh component.

Points where the code behaves differently from what the component's purpose suggests. The model follows the code:

- `mouseDown` sets only the start point; width and height keep their old
  values. So the rectangle is not "all null or all numbers": a press with no
  move leaves a start point and a null size (`PartialRectReachable`). A new
  drag does not overwrite all four fields at the press; only a move does
  (`DragWithoutMoveKeepsSize`, against `CompleteDrag`).
- Operations on a missing image raise a `TypeError` in the browser, and the
  model keeps what happened before the raise. `mouseMove` while dragging with
  no image element has already cleared the canvas, and the selection stays
  unchanged. `cutImage` likewise clears the crop canvas first. `draw` with no
  snapshot has already replaced the image element with an empty one.
  `ProcessImage` with no snapshot gives `Err(NullSnapshot)`.
- `deleteSnapshot` clears only `webcamImage`. The image element drawn from it
  stays, so dragging and cropping after a delete still use the old image.
- `strokeStyle = 'red'` is set right before every `strokeRect`. It is recorded
  as the colour argument of the logged `StrokeRect`.

## Model

| member | source | states |
|---|---|---|
| `App.AppComponent.constructor` | src/app/app.component.ts:17-39 | the initial field values: webcam shown, one webcam, no device, not dragging, all four rectangle fields null, no snapshot or image element, no errors, empty logs; the invariant holds |
| `App.AppComponent.MouseDown` | src/app/app.component.ts:133-138 | the new state is `MouseDown` of the old one (start point set, drag on, width and height untouched); keeps the invariant |
| `App.AppComponent.MouseMove` | src/app/app.component.ts:140-149 | the new state is `MouseMove` of the old one and the outcome is the TypeError exactly when dragging without an image element; keeps the invariant |
| `App.AppComponent.MouseUp` | src/app/app.component.ts:151-154 | the new state is the old one with drag off |
| `App.AppComponent.CutImage` | src/app/app.component.ts:156-160 | the new state is `CutImage` of the old one; raises exactly when there is no image element |
| `App.AppComponent.ProcessImage` | src/app/app.component.ts:162-169 | changes nothing; returns the record `ComponentModel.ProcessImage` gives for the current fields |
| `App.AppComponent.HandleInitError` | src/app/app.component.ts:80-82 | the new state is the old one with the error appended |
| `App.AppComponent.ToggleWebcam` | src/app/app.component.ts:72-74 | the new state is the old one with visibility negated |
| `App.AppComponent.DeleteSnapshot` | src/app/app.component.ts:76-78 | the new state is the old one with no snapshot |
| `App.AppComponent.HandleImage` | src/app/app.component.ts:91-95 | the new state is `HandleImage` of the old one: snapshot stored, then drawn; keeps the invariant |
| `App.AppComponent.Draw` | src/app/app.component.ts:110-122 | the new state is `Draw` of the old one; raises exactly when there is no snapshot; keeps the invariant |
| `App.AppComponent.CameraWasSwitched` | src/app/app.component.ts:97-100 | the new state is the old one with the device id recorded |
| `App.AppComponent.CaptureSnapshot` | src/app/app.component.ts:67-70 | the new state is `CaptureSnapshot` of the old one: one more request, primary canvas cleared |
| `App.AppComponent.DevicesListed` | src/app/app.component.ts:47-50 | the new state is `DevicesListed` of the old one |
| `App.ScenarioExport` | src/app/app.component.ts:91-169 | on a fresh component: a snapshot with data URL `data:image/png;base64,AAA`, a press at (10, 10), a move to (60, 40) and a release export the record with that URL, 10, 10, 50, 30 |
| `App.ScenarioExportWithoutCapture` | src/app/app.component.ts:162-164 | on a fresh component, exporting after a drag but before any capture gives the null-snapshot error |
| `ComponentModel.ProcessImage` | src/app/app.component.ts:162-169 | the export succeeds exactly when there is a snapshot and otherwise fails with `NullSnapshot`; on success `image` is the snapshot's data URL and the four crop fields give back the selection exactly |
| `ComponentProperties.MouseDownKeepsSize` | src/app/app.component.ts:133-138 | after a press the start point is the pressed point, drag is on, width and height are the old ones, and no other field changes |
| `ComponentProperties.MoveWhileDragging` | src/app/app.component.ts:140-149 | while dragging with an image: the start point is kept and the width and height are the pointer minus the start, negative exactly for a left or upward drag. Exactly the 500×500 clear, the redraw at the origin and the red outline at the new rectangle are appended, in that order. Nothing else changes and nothing raises |
| `ComponentProperties.MoveWhileIdle` | src/app/app.component.ts:140-141 | outside a drag a move changes nothing, draws nothing and does not raise |
| `ComponentProperties.MoveWithoutImage` | src/app/app.component.ts:141-143 | dragging with no image element: only the clear is logged, the selection is unchanged and drawImage raises |
| `ComponentProperties.MoveRecomputesFromStart` | src/app/app.component.ts:144-145 | a move after any earlier move leaves the selection the last point alone gives (no accumulation; idempotent for the same point) |
| `ComponentProperties.MouseUpKeepsRect` | src/app/app.component.ts:151-154 | a release turns drag off and leaves the selection and every other field unchanged |
| `ComponentProperties.SnapshotMeansNoFault` | src/app/app.component.ts:93-94 | in a valid state with a snapshot, neither a drag move, a crop nor a draw can raise |
| `ComponentProperties.InitialInv` | src/app/app.component.ts:27-28 | the constructed component satisfies the invariant |
| `ComponentProperties.StepPreservesInv` | src/app/app.component.ts:133-136 | every handler keeps the invariant: dragging implies a start point, start coordinates null together, size null together, a size only with a start point, and a snapshot's image element built from its data URL |
| `ComponentProperties.RunPreservesInv` | src/app/app.component.ts:27-28 | any sequence of events from a valid state keeps the invariant |
| `ComponentProperties.ReachableInv` | src/app/app.component.ts:27-28 | every state reachable from construction satisfies the invariant, so dragging always has a start point |
| `ComponentProperties.PartialRectReachable` | src/app/app.component.ts:133-136 | a press from the initial state gives a start point with null width and height |
| `ComponentProperties.MovesLastWins` | src/app/app.component.ts:140-149 | during a drag with an image, any run of moves ending at a point leaves drag on and the selection from the start point to that last point |
| `ComponentProperties.CompleteDrag` | src/app/app.component.ts:133-154 | press, any moves, a last move and a release with an image present leave drag off and exactly the selection from the press point to the last point, whatever the previous selection was |
| `ComponentProperties.SimpleDrag` | src/app/app.component.ts:133-154 | press at (x0, y0), move to (x1, y1), release gives start (x0, y0) and size (x1 - x0, y1 - y0), signs kept |
| `ComponentProperties.DragWithoutMoveKeepsSize` | src/app/app.component.ts:133-138 | a press and release with no move keeps the previous width and height next to the new start point |
| `ComponentProperties.StepExtends` | src/app/app.component.ts:67-160 | one handler only appends to the errors and the two canvas logs, and never lowers the request count |
| `ComponentProperties.RunExtends` | src/app/app.component.ts:67-160 | over any sequence of events the earlier errors, drawing calls and requests remain, in order, as a prefix |
| `ComponentProperties.RectOnlyFromPointer` | src/app/app.component.ts:133-145 | events other than presses and moves never change the selection |
| `ComponentProperties.InitErrorAppends` | src/app/app.component.ts:80-82 | the error is added at the end, earlier entries keep their places, nothing else changes |
| `ComponentProperties.ToggleTwice` | src/app/app.component.ts:72-74 | a toggle flips visibility and two toggles restore the state |
| `ComponentProperties.DeleteThenExportFails` | src/app/app.component.ts:76-78 | delete clears only the snapshot, and exporting afterwards fails with `NullSnapshot` |
| `ComponentProperties.HandleImageDraws` | src/app/app.component.ts:91-95 | the snapshot is stored and an image element made from its data URL is drawn at the origin. Only those three fields change and the draw does not raise |
| `ComponentProperties.CutImageBlits` | src/app/app.component.ts:156-160 | with an image element: the 640×480 clear, then a blit of the selection region to the origin at the same size; only the crop log changes |
| `ComponentProperties.CutImageWithoutImage` | src/app/app.component.ts:156-159 | without an image element only the clear is logged and the blit raises |
| `ComponentProperties.CaptureRequestsOne` | src/app/app.component.ts:67-70 | exactly one snapshot request and the 500×500 clear; nothing else changes |
| `ComponentProperties.MultipleWebcamsRule` | src/app/app.component.ts:49 | the switch is offered exactly when the device list exists and has more than one entry; nothing else changes |
| `ComponentProperties.ExportAfterDrag` | src/app/app.component.ts:91-169 | after a snapshot and a complete drag, the export is the snapshot's data URL with the press point and the signed size |
| `ComponentProperties.RunPreservesWebcamImage` | src/app/app.component.ts:133-154 | pointer events never change the snapshot |

## Left out

- `ngAfterViewInit`, `getUserMedia`, `createObjectURL` and `play`: asynchronous platform I/O. The unhandled rejection of the stream request has no effect on the modelled fields.
- `WebcamUtil.getAvailableVideoInputs`: the promise is not modelled. `DevicesListed` takes the list's length as its argument, or None for a null list. JavaScript stores null in the field in that case, which reads as false; the model stores false.
- The `trigger` and `nextWebcam` subjects, their observable getters and `showNextWebcam`: signalling to the webcam component. A capture request is counted in `triggers`; `showNextWebcam` is not modelled.
- `ngOnInit`'s `getContext` calls, `@ViewChild`, `ElementRef` and the decorators: framework wiring. Both contexts are taken to exist.
- What `clearRect`, `drawImage` and `strokeRect` do to pixels, including how a zero or negative size is treated, and the decoding of data URLs: these are foreign canvas and DOM calls, logged with their arguments only. Image elements are known by their src, not by object identity.
- `obtemPonto`, `console.log` and `console.info`, and the `JSON.stringify` text of the record: logging and serialisation. The record is a datatype.
- `title`, `allowCameraSwitch` and `videoOptions`: constants bound to the view, never updated.
- Mouse coordinates are JavaScript doubles. The model takes the event's `offsetX` and `offsetY` as integers, so there is no floating-point rounding.
- `WebcamInitError` and `WebcamImage` keep only their message and their data URL.
