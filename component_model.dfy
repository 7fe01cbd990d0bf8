/**
 * The state of the ROI collector component as a value, and one function per
 * event handler giving the state after it. The handlers that can raise a
 * TypeError in the browser have a second function giving that outcome; the
 * changes they made before raising are kept, as they are in JavaScript.
 */
module ComponentModel {
  import opened Wrappers
  import opened Canvas

  /** The selection rectangle: a start point and a signed width and height, each nullable. */
  datatype Rect = Rect(startX: Num, startY: Num, w: Num, h: Num)

  /** The snapshot the webcam component emits; only its data URL is used. */
  datatype WebcamImage = WebcamImage(imageAsDataUrl: string)

  /** An error reported by the webcam component when it fails to start. */
  datatype InitError = InitError(message: string)

  /** The exported record, with the source's field names (cropHeigth included). */
  datatype ExportRecord = ExportRecord(image: string, cropPositionX: Num, cropPositionY: Num, cropWidth: Num, cropHeigth: Num)

  /** The TypeErrors the handlers can raise. */
  datatype Fault =
    | NullImageObject  // drawImage was handed the image element while it was still null
    | NullSnapshot     // webcamImage was dereferenced while it was null

  /** How a handler ended: normally, or by raising. */
  datatype Outcome = Done | Threw(fault: Fault)

  /** Every field of the component that the handlers read or write. */
  datatype Model = Model(
    showWebcam: bool,
    multipleWebcamsAvailable: bool,
    deviceId: Option<string>,
    drag: bool,
    rect: Rect,
    webcamImage: Option<WebcamImage>,
    imageObj: Option<Bitmap>,
    errors: seq<InitError>,
    triggers: nat,             // snapshot requests sent to the webcam component
    canvas: seq<DrawCmd>,      // calls made on the primary canvas
    canvas2: seq<DrawCmd>)     // calls made on the crop canvas

  const EmptyRect: Rect := Rect(None, None, None, None)

  /** The component as constructed. */
  const Initial: Model := Model(true, false, None, false, EmptyRect, None, None, [], 0, [], [])

  /** The object invariant: what holds in every state the handlers can reach. */
  predicate Inv(s: Model) {
    && (s.drag ==> s.rect.startX.Some? && s.rect.startY.Some?)
    && (s.rect.startX.Some? <==> s.rect.startY.Some?)
    && (s.rect.w.Some? <==> s.rect.h.Some?)
    && (s.rect.w.Some? ==> s.rect.startX.Some?)
    && (s.webcamImage.Some? ==> s.imageObj == Some(Bitmap(s.webcamImage.value.imageAsDataUrl)))
  }

  /** mouseDown: record the start point and start dragging; the width and height are left alone. */
  function MouseDown(s: Model, x: int, y: int): Model {
    s.(rect := s.rect.(startX := Some(x), startY := Some(y)), drag := true)
  }

  /**
   * mouseMove: while dragging, clear the primary canvas, redraw the image,
   * recompute width and height from the start point and stroke the outline.
   * With no image element the drawImage call raises, after the clear.
   */
  function MouseMove(s: Model, x: int, y: int): Model {
    if !s.drag then s
    else if s.imageObj.None? then s.(canvas := s.canvas + [PrimaryClear])
    else
      var r := s.rect.(w := Some(x - ToNumber(s.rect.startX)), h := Some(y - ToNumber(s.rect.startY)));
      s.(rect := r, canvas := s.canvas + [PrimaryClear, DrawImage(s.imageObj.value, 0, 0), StrokeRect(r.startX, r.startY, r.w, r.h, SelectionColor)])
  }

  function MouseMoveOutcome(s: Model): Outcome {
    if s.drag && s.imageObj.None? then Threw(NullImageObject) else Done
  }

  /** mouseUp: stop dragging. */
  function MouseUp(s: Model): Model {
    s.(drag := false)
  }

  /**
   * cutImage: clear the crop canvas and blit the selected region of the image
   * onto it at the origin, 1:1. With no image element the blit raises, after the clear.
   */
  function CutImage(s: Model): Model {
    var cleared := s.canvas2 + [CropClear];
    if s.imageObj.None? then s.(canvas2 := cleared)
    else
      var r := s.rect;
      s.(canvas2 := cleared + [DrawImageRegion(s.imageObj.value, r.startX, r.startY, r.w, r.h, 0, 0, r.w, r.h)])
  }

  function CutImageOutcome(s: Model): Outcome {
    if s.imageObj.None? then Threw(NullImageObject) else Done
  }

  /** The record ProcessImage builds from the snapshot and the selection. */
  function ProcessImage(s: Model): (r: Result<ExportRecord, Fault>)
    ensures r.Ok? <==> s.webcamImage.Some?
    ensures r.Err? ==> r.error == NullSnapshot
    ensures r.Ok? ==> r.value.image == s.webcamImage.value.imageAsDataUrl && SelectionOf(r.value) == s.rect
  {
    if s.webcamImage.None? then Err(NullSnapshot)
    else
      Ok(ExportRecord(s.webcamImage.value.imageAsDataUrl, s.rect.startX, s.rect.startY, s.rect.w, s.rect.h))
  }

  /** The selection a record describes. */
  function SelectionOf(rec: ExportRecord): Rect {
    Rect(rec.cropPositionX, rec.cropPositionY, rec.cropWidth, rec.cropHeigth)
  }

  /** handleInitError: keep the error, after the earlier ones. */
  function HandleInitError(s: Model, e: InitError): Model {
    s.(errors := s.errors + [e])
  }

  function ToggleWebcam(s: Model): Model {
    s.(showWebcam := !s.showWebcam)
  }

  /** deleteSnapshot: forget the snapshot (the image element already drawn is kept). */
  function DeleteSnapshot(s: Model): Model {
    s.(webcamImage := None)
  }

  /**
   * draw: make a new image element from the snapshot's data URL and draw it at
   * the origin. The element is created before the snapshot is dereferenced, so
   * with no snapshot an empty element replaces the old one and the call raises.
   */
  function Draw(s: Model): Model {
    if s.webcamImage.None? then s.(imageObj := Some(Bitmap("")))
    else
      var b := Bitmap(s.webcamImage.value.imageAsDataUrl);
      s.(imageObj := Some(b), canvas := s.canvas + [DrawImage(b, 0, 0)])
  }

  function DrawOutcome(s: Model): Outcome {
    if s.webcamImage.None? then Threw(NullSnapshot) else Done
  }

  /** handleImage: keep the new snapshot and draw it. */
  function HandleImage(s: Model, img: WebcamImage): Model {
    Draw(s.(webcamImage := Some(img)))
  }

  function CameraWasSwitched(s: Model, id: string): Model {
    s.(deviceId := Some(id))
  }

  /** captureSnapshot: ask the webcam component for one snapshot and clear the primary canvas. */
  function CaptureSnapshot(s: Model): Model {
    s.(triggers := s.triggers + 1, canvas := s.canvas + [PrimaryClear])
  }

  /**
   * The rule applied when the list of video inputs arrives: a camera switch is
   * offered only with more than one device. `devices` is the length of the
   * list, None when the list itself is null.
   */
  function MultipleWebcams(devices: Option<nat>): bool {
    devices.Some? && devices.value > 1
  }

  function DevicesListed(s: Model, devices: Option<nat>): Model {
    s.(multipleWebcamsAvailable := MultipleWebcams(devices))
  }

  /** The events the component reacts to. */
  datatype Event =
    | PointerDown(x: int, y: int)
    | PointerMove(x: int, y: int)
    | PointerUp
    | Crop
    | InitFailed(e: InitError)
    | ToggleCamera
    | Delete
    | ImageReceived(img: WebcamImage)
    | Redraw
    | CameraSwitched(id: string)
    | Capture
    | DevicesFound(devices: Option<nat>)

  function Step(s: Model, ev: Event): Model {
    match ev
    case PointerDown(x, y) => MouseDown(s, x, y)
    case PointerMove(x, y) => MouseMove(s, x, y)
    case PointerUp => MouseUp(s)
    case Crop => CutImage(s)
    case InitFailed(e) => HandleInitError(s, e)
    case ToggleCamera => ToggleWebcam(s)
    case Delete => DeleteSnapshot(s)
    case ImageReceived(img) => HandleImage(s, img)
    case Redraw => Draw(s)
    case CameraSwitched(id) => CameraWasSwitched(s, id)
    case Capture => CaptureSnapshot(s)
    case DevicesFound(n) => DevicesListed(s, n)
  }

  /** The state after handling the events in order. */
  function Run(s: Model, evs: seq<Event>): Model
    decreases |evs|
  {
    if evs == [] then s else Run(Step(s, evs[0]), evs[1..])
  }
}
