/**
 * The component itself: its fields are updated in place by its handlers.
 * Each handler is proved to move the component from its state s to the state
 * the corresponding function of ComponentModel gives for s, and to keep the
 * object invariant.
 */
module App {
  import opened Wrappers
  import opened Canvas
  import opened ComponentModel

  class AppComponent {
    var showWebcam: bool
    var multipleWebcamsAvailable: bool
    var deviceId: Option<string>
    var drag: bool
    var rect: Rect
    var webcamImage: Option<WebcamImage>
    var imageObj: Option<Bitmap>
    var errors: seq<InitError>
    var triggers: nat            // snapshots requested from the webcam component
    var canvas: seq<DrawCmd>     // calls made on the primary 2D context
    var canvas2: seq<DrawCmd>    // calls made on the crop 2D context

    /** The component's fields as one value. */
    function State(): Model
      reads this
    {
      Model(showWebcam, multipleWebcamsAvailable, deviceId, drag, rect, webcamImage, imageObj,
            errors, triggers, canvas, canvas2)
    }

    ghost predicate Valid()
      reads this
    {
      Inv(State())
    }

    constructor ()
      ensures Valid() && State() == Initial
    {
      showWebcam := true;
      multipleWebcamsAvailable := false;
      deviceId := None;
      drag := false;
      rect := EmptyRect;
      webcamImage := None;
      imageObj := None;
      errors := [];
      triggers := 0;
      canvas := [];
      canvas2 := [];
    }

    /** The callback of the device listing. */
    method DevicesListed(devices: Option<nat>)
      requires Valid()
      modifies this
      ensures Valid() && State() == ComponentModel.DevicesListed(old(State()), devices)
    {
      multipleWebcamsAvailable := devices.Some? && devices.value > 1;
    }

    method CaptureSnapshot()
      requires Valid()
      modifies this
      ensures Valid() && State() == ComponentModel.CaptureSnapshot(old(State()))
    {
      triggers := triggers + 1;
      canvas := canvas + [PrimaryClear];
    }

    method ToggleWebcam()
      requires Valid()
      modifies this
      ensures Valid() && State() == ComponentModel.ToggleWebcam(old(State()))
    {
      showWebcam := !showWebcam;
    }

    method DeleteSnapshot()
      requires Valid()
      modifies this
      ensures Valid() && State() == ComponentModel.DeleteSnapshot(old(State()))
    {
      webcamImage := None;
    }

    method HandleInitError(e: InitError)
      requires Valid()
      modifies this
      ensures Valid() && State() == ComponentModel.HandleInitError(old(State()), e)
    {
      errors := errors + [e];
    }

    method HandleImage(img: WebcamImage)
      requires Valid()
      modifies this
      ensures Valid() && State() == ComponentModel.HandleImage(old(State()), img)
    {
      webcamImage := Some(img);
      var _ := Draw();
    }

    method CameraWasSwitched(id: string)
      requires Valid()
      modifies this
      ensures Valid() && State() == ComponentModel.CameraWasSwitched(old(State()), id)
    {
      deviceId := Some(id);
    }

    /** Called with the snapshot already stored by HandleImage, so it does not demand the invariant. */
    method Draw() returns (out: Outcome)
      modifies this
      ensures State() == ComponentModel.Draw(old(State()))
      ensures out == DrawOutcome(old(State()))
      ensures old(Valid()) ==> Valid()
    {
      imageObj := Some(Bitmap(""));
      if webcamImage.None? {
        return Threw(NullSnapshot);
      }
      imageObj := Some(Bitmap(webcamImage.value.imageAsDataUrl));
      canvas := canvas + [DrawImage(imageObj.value, 0, 0)];
      out := Done;
    }

    method MouseDown(x: int, y: int)
      requires Valid()
      modifies this
      ensures Valid() && State() == ComponentModel.MouseDown(old(State()), x, y)
    {
      rect := rect.(startX := Some(x));
      rect := rect.(startY := Some(y));
      drag := true;
    }

    method MouseMove(x: int, y: int) returns (out: Outcome)
      requires Valid()
      modifies this
      ensures Valid() && State() == ComponentModel.MouseMove(old(State()), x, y)
      ensures out == MouseMoveOutcome(old(State()))
    {
      if drag {
        canvas := canvas + [PrimaryClear];
        if imageObj.None? {
          return Threw(NullImageObject);
        }
        canvas := canvas + [DrawImage(imageObj.value, 0, 0)];
        rect := rect.(w := Some(x - ToNumber(rect.startX)));
        rect := rect.(h := Some(y - ToNumber(rect.startY)));
        canvas := canvas + [StrokeRect(rect.startX, rect.startY, rect.w, rect.h, SelectionColor)];
      }
      out := Done;
    }

    method MouseUp()
      requires Valid()
      modifies this
      ensures Valid() && State() == ComponentModel.MouseUp(old(State()))
    {
      drag := false;
    }

    method CutImage() returns (out: Outcome)
      requires Valid()
      modifies this
      ensures Valid() && State() == ComponentModel.CutImage(old(State()))
      ensures out == CutImageOutcome(old(State()))
    {
      canvas2 := canvas2 + [CropClear];
      if imageObj.None? {
        return Threw(NullImageObject);
      }
      canvas2 := canvas2 + [DrawImageRegion(imageObj.value, rect.startX, rect.startY, rect.w, rect.h, 0, 0, rect.w, rect.h)];
      out := Done;
    }

    /** Builds the export record; changes nothing. */
    method ProcessImage() returns (r: Result<ExportRecord, Fault>)
      ensures r == ComponentModel.ProcessImage(State())
    {
      if webcamImage.None? {
        return Err(NullSnapshot);
      }
      r := Ok(ExportRecord(webcamImage.value.imageAsDataUrl, rect.startX, rect.startY, rect.w, rect.h));
    }
  }

  /** Capture, drag from (10, 10) to (60, 40), export: the record carries the data URL and 10, 10, 50, 30. */
  method ScenarioExport() returns (r: Result<ExportRecord, Fault>)
    ensures r == Ok(ExportRecord("data:image/png;base64,AAA", Some(10), Some(10), Some(50), Some(30)))
  {
    var app := new AppComponent();
    app.HandleImage(WebcamImage("data:image/png;base64,AAA"));
    app.MouseDown(10, 10);
    var _ := app.MouseMove(60, 40);
    app.MouseUp();
    r := app.ProcessImage();
  }

  /** Export before any capture raises the null-snapshot error. */
  method ScenarioExportWithoutCapture() returns (r: Result<ExportRecord, Fault>)
    ensures r == Err(NullSnapshot)
  {
    var app := new AppComponent();
    app.MouseDown(10, 10);
    var _ := app.MouseMove(60, 40);
    app.MouseUp();
    r := app.ProcessImage();
  }
}
