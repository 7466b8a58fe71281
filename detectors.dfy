/**
 * MPdetector's detector plumbing: `DetectorFactory.create`, the activity's detector
 * switch, the mirroring rule for camera frames, and the photo path from detection to
 * crop. Detection itself is an input; the crop box arrives already converted to whole
 * pixels (`toInt()` of the scaled normalized box).
 */
module Detectors {
  import opened Common

  // ---------------------------------------------------------------- the factory

  /** The detector implementations the factory knows. */
  datatype DetectorKind = TangueDetector | WinkDetector

  /** The `name` each implementation reports. */
  function Name(kind: DetectorKind): string
  {
    match kind
    case TangueDetector => "tangue_detector"
    case WinkDetector => "wink_detector"
  }

  /** `loadAvailableModels`: the models the selection dialog offers, in order. */
  const AvailableModels: seq<string> := ["tangue_detector", "wink_detector"]

  /** `DetectorFactory.create`: a detector named after the model for the two known names, `null` for anything else. */
  function Create(modelName: string): (r: Option<DetectorKind>)
    ensures r.Some? <==> modelName == "tangue_detector" || modelName == "wink_detector"
    ensures r.Some? ==> Name(r.value) == modelName
  {
    if modelName == "tangue_detector" then Some(TangueDetector)
    else if modelName == "wink_detector" then Some(WinkDetector)
    else None
  }

  /**
   * Creation and naming are inverse: every offered model yields a detector carrying
   * its name, and asking for a detector's own name yields that kind again.
   */
  lemma CreateNameRoundTrip()
    ensures forall m :: m in AvailableModels ==> Create(m).Some? && Name(Create(m).value) == m
    ensures forall k :: Create(Name(k)) == Some(k)
  {
    forall k: DetectorKind
      ensures Create(Name(k)) == Some(k)
    {
      match k
      case TangueDetector =>
      case WinkDetector =>
        assert Name(k)[0] != "tangue_detector"[0];
    }
  }

  // ---------------------------------------------------------------- orientation

  /** The matrix `imageProxyToBitmap` applies: a rotation, then optionally a horizontal flip about the centre. */
  datatype Orientation = Orientation(rotationDegrees: int, mirrored: bool)

  /** Only live-stream frames from the front lens are mirrored; captured photos never are. */
  function OrientationOf(rotationDegrees: int, isLiveStream: bool, lensFacingFront: bool): (o: Orientation)
    ensures o.rotationDegrees == rotationDegrees
    ensures o.mirrored <==> isLiveStream && lensFacingFront
  {
    Orientation(rotationDegrees, isLiveStream && lensFacingFront)
  }

  /** `postScale(-1f, 1f, width / 2f, ...)`: where a horizontal position lands after the flip. */
  function MirrorX(x: real, width: real): (r: real)
    ensures r - width / 2.0 == width / 2.0 - x
  {
    width - x
  }

  /** The horizontal extent `[left, right]` of a detection box, in pixels of a frame. */
  datatype Span = Span(left: real, right: real)

  /**
   * Where a box at `s` in the rotated frame of width `width` lies in the bitmap
   * `imageProxyToBitmap` returns. `createBitmap` moves the transformed frame back to
   * the origin, so a flip lands the box at the mirrored place whatever the pivot.
   */
  function Placed(o: Orientation, s: Span, width: real): (r: Span)
    ensures !o.mirrored ==> r == s
    ensures o.mirrored ==> r.left == MirrorX(s.right, width) && r.right == MirrorX(s.left, width)
  {
    if o.mirrored then Span(MirrorX(s.right, width), MirrorX(s.left, width)) else s
  }

  /**
   * As `OrientationOf` chooses the flip: a photo's box is where the detector saw it,
   * so the crop takes the region that was detected; a box in a live frame stays inside
   * the frame with its width, and flipping the result back gives the box again.
   */
  lemma PlacedStaysInFrame(rotationDegrees: int, isLiveStream: bool, lensFacingFront: bool, s: Span, width: real)
    requires 0.0 <= s.left <= s.right <= width
    ensures var o := OrientationOf(rotationDegrees, isLiveStream, lensFacingFront);
            var r := Placed(o, s, width);
            && (!isLiveStream ==> r == s)
            && (isLiveStream && lensFacingFront ==> r == Span(width - s.right, width - s.left))
            && 0.0 <= r.left <= r.right <= width
            && r.right - r.left == s.right - s.left
            && Placed(o, r, width) == s
  {
  }

  // ---------------------------------------------------------------- cropping

  /** The detection box in whole pixels: `left`, `top`, `width()` and `height()` of the scaled box, each `toInt()`. */
  datatype PixelBox = PixelBox(left: int, top: int, width: int, height: int)

  /** The sub-rectangle passed to `Bitmap.createBitmap(source, x, y, width, height)`. */
  datatype Rect = Rect(x: int, y: int, width: int, height: int)

  /** What `Bitmap.createBitmap(source, x, y, w, h)` accepts: a non-empty rectangle inside the source. */
  predicate Extractable(sourceWidth: int, sourceHeight: int, r: Rect) {
    && r.x >= 0 && r.y >= 0 && r.width > 0 && r.height > 0
    && r.x + r.width <= sourceWidth && r.y + r.height <= sourceHeight
  }

  /** Pixel `(px, py)` lies in rectangle `r`. */
  predicate InRect(r: Rect, px: int, py: int) {
    r.x <= px < r.x + r.width && r.y <= py < r.y + r.height
  }

  /** Pixel `(px, py)` lies in box `b`. */
  predicate InBox(b: PixelBox, px: int, py: int) {
    b.left <= px < b.left + b.width && b.top <= py < b.top + b.height
  }

  /** How `cropBitmap` as written ends. */
  datatype CropOutcome = Cropped(rect: Rect) | CropThrows

  /**
   * `cropBitmap` as written: left and top are raised to 0, but width and height are
   * capped by the distance from the UNCLAMPED left and top to the far edge. A crop
   * that `createBitmap` refuses throws.
   */
  function CropAsWritten(sourceWidth: int, sourceHeight: int, b: PixelBox): (r: CropOutcome)
    ensures r.Cropped? ==> Extractable(sourceWidth, sourceHeight, r.rect)
    ensures r.Cropped? ==> r.rect.x == (if b.left < 0 then 0 else b.left) && r.rect.y == (if b.top < 0 then 0 else b.top)
  {
    var x := if b.left < 0 then 0 else b.left;
    var y := if b.top < 0 then 0 else b.top;
    var w := if b.width < sourceWidth - b.left then b.width else sourceWidth - b.left;
    var h := if b.height < sourceHeight - b.top then b.height else sourceHeight - b.top;
    if Extractable(sourceWidth, sourceHeight, Rect(x, y, w, h)) then Cropped(Rect(x, y, w, h)) else CropThrows
  }

  /**
   * A box that sticks out past the left edge but overlaps the image makes the code as
   * written throw: left -10 and width 110 in a 100-pixel-wide photo give x 0 and width
   * 110, which ends 10 pixels past the right edge. When it does not throw, it crops
   * too much: left -10 and width 50 crop columns 0 to 49 although the box ends at
   * column 39.
   */
  lemma LeftOverhangAsWritten()
    ensures InBox(PixelBox(-10, 0, 110, 50), 50, 25)
    ensures CropAsWritten(100, 100, PixelBox(-10, 0, 110, 50)) == CropThrows
    ensures CropToImage(100, 100, PixelBox(-10, 0, 110, 50)) == Some(Rect(0, 0, 100, 50))
    ensures CropAsWritten(100, 100, PixelBox(-10, 0, 50, 50)) == Cropped(Rect(0, 0, 50, 50))
    ensures !InBox(PixelBox(-10, 0, 50, 50), 45, 25)
    ensures CropToImage(100, 100, PixelBox(-10, 0, 50, 50)) == Some(Rect(0, 0, 40, 50))
  {
  }

  /**
   * `cropBitmap` as evidently intended: the part of the box that lies in the image,
   * or nothing when they do not overlap.
   */
  function CropToImage(sourceWidth: int, sourceHeight: int, b: PixelBox): (r: Option<Rect>)
    ensures r.Some? ==> Extractable(sourceWidth, sourceHeight, r.value)
  {
    var x1 := if b.left < 0 then 0 else b.left;
    var y1 := if b.top < 0 then 0 else b.top;
    var x2 := if b.left + b.width < sourceWidth then b.left + b.width else sourceWidth;
    var y2 := if b.top + b.height < sourceHeight then b.top + b.height else sourceHeight;
    if x1 < x2 && y1 < y2 then Some(Rect(x1, y1, x2 - x1, y2 - y1)) else None
  }

  /** The corrected crop is exactly the intersection of the box with the image. */
  lemma CropToImageIsIntersection(sourceWidth: int, sourceHeight: int, b: PixelBox, px: int, py: int)
    ensures CropToImage(sourceWidth, sourceHeight, b).Some? ==>
              (InRect(CropToImage(sourceWidth, sourceHeight, b).value, px, py)
               <==> InBox(b, px, py) && 0 <= px < sourceWidth && 0 <= py < sourceHeight)
    ensures CropToImage(sourceWidth, sourceHeight, b).None? ==>
              !(InBox(b, px, py) && 0 <= px < sourceWidth && 0 <= py < sourceHeight)
  {
  }

  /** For a non-empty box inside the image both versions crop exactly the box. */
  lemma CropInsideAgrees(sourceWidth: int, sourceHeight: int, b: PixelBox)
    requires b.left >= 0 && b.top >= 0 && b.width > 0 && b.height > 0
    requires b.left + b.width <= sourceWidth && b.top + b.height <= sourceHeight
    ensures CropAsWritten(sourceWidth, sourceHeight, b) == Cropped(Rect(b.left, b.top, b.width, b.height))
    ensures CropToImage(sourceWidth, sourceHeight, b) == Some(Rect(b.left, b.top, b.width, b.height))
  {
  }

  /** When the box does not start left of or above the image, the code as written crops what the corrected version crops. */
  lemma CropAsWrittenAgreesWhenItCrops(sourceWidth: int, sourceHeight: int, b: PixelBox)
    requires b.left >= 0 && b.top >= 0
    requires CropAsWritten(sourceWidth, sourceHeight, b).Cropped?
    ensures CropToImage(sourceWidth, sourceHeight, b) == Some(CropAsWritten(sourceWidth, sourceHeight, b).rect)
  {
  }

  // ---------------------------------------------------------------- the activity

  /** MediaPipe's running mode a detector is set up for. */
  datatype RunningMode = LiveStream | Image

  /** What the activity does to detectors, the overlay and the camera, in order. */
  datatype DetectorEvent =
    | Closed(name: string)
    | OverlayCleared
    | SetUp(name: string, mode: RunningMode)
    | CameraStarted

  /** How `takePhotoAndCrop` ends. */
  datatype CaptureOutcome =
    | NoCaptureUseCase        // the camera is not bound yet: nothing happens
    | NoModel                 // no current detector: a "choose a model" message
    | NotDetected             // the detector found nothing: a message, no crop, no file
    | CropFailed              // `createBitmap` refuses the crop rectangle and throws on the capture callback
    | TempFileFailed          // writing the crop to the cache fails with an `IOException`: logged, no preview
    | PreviewLaunched(crop: Rect)

  class MainActivity {
    var availableModels: seq<string>
    var currentDetector: Option<DetectorKind>
    /** Everything done so far to detectors, the overlay and the camera. */
    var events: seq<DetectorEvent>

    /** The current detector, if any, is one of the offered models. */
    ghost predicate Valid()
      reads this
    {
      availableModels == AvailableModels && (currentDetector.Some? ==> Name(currentDetector.value) in availableModels)
    }

    /** `onCreate` up to `loadAvailableModels`: the first offered model is set up for the live stream. */
    constructor ()
      ensures Valid()
      ensures currentDetector == Some(TangueDetector) && Name(currentDetector.value) == AvailableModels[0]
      ensures events == [OverlayCleared, SetUp(AvailableModels[0], LiveStream), CameraStarted]
    {
      availableModels := AvailableModels;
      currentDetector := None;
      events := [];
      new;
      SetupDetector(availableModels[0]);
    }

    /**
     * `setupDetector`: the old detector, if any, is closed before the overlay is cleared
     * and the new one is created, set up for the live stream and the camera restarted.
     */
    method SetupDetector(modelName: string)
      modifies this
      ensures availableModels == old(availableModels) && currentDetector == Create(modelName)
      ensures events == old(events)
                        + (if old(currentDetector).Some? then [Closed(Name(old(currentDetector).value))] else [])
                        + [OverlayCleared]
                        + (if Create(modelName).Some? then [SetUp(modelName, LiveStream)] else [])
                        + [CameraStarted]
    {
      if currentDetector.Some? {
        events := events + [Closed(Name(currentDetector.value))];
      }
      events := events + [OverlayCleared];
      currentDetector := Create(modelName);
      if currentDetector.Some? {
        events := events + [SetUp(Name(currentDetector.value), LiveStream)];
      }
      events := events + [CameraStarted];
    }

    /**
     * A choice in the model dialog. Choosing the current model does nothing; any other
     * choice switches to it, so afterwards the current detector is always the one chosen.
     */
    method OnModelChosen(which: nat)
      requires Valid() && which < |availableModels|
      modifies this
      ensures Valid()
      ensures currentDetector.Some? && Name(currentDetector.value) == availableModels[which]
      ensures old(currentDetector).Some? && Name(old(currentDetector).value) == availableModels[which] ==>
                currentDetector == old(currentDetector) && events == old(events)
      ensures !(old(currentDetector).Some? && Name(old(currentDetector).value) == availableModels[which]) ==>
                events == old(events)
                          + (if old(currentDetector).Some? then [Closed(Name(old(currentDetector).value))] else [])
                          + [OverlayCleared, SetUp(availableModels[which], LiveStream), CameraStarted]
    {
      var selectedModel := availableModels[which];
      if currentDetector.None? || Name(currentDetector.value) != selectedModel {
        SetupDetector(selectedModel);
      }
    }

    /**
     * `takePhotoAndCrop` once the photo is taken: a detector for the current model is
     * created for single images, runs on the photo (`detection` is its box) and is
     * closed; the box is then cropped out of the photo by `cropBitmap` as written,
     * unless `createBitmap` refuses the rectangle, and `saveAndLaunchPreview` writes it
     * to a temporary JPEG. `tempFileWritten` says whether that write succeeds; only then
     * is the preview launched.
     */
    method TakePhotoAndCrop(captureReady: bool, photoWidth: int, photoHeight: int, detection: Option<PixelBox>,
                            tempFileWritten: bool)
      returns (outcome: CaptureOutcome)
      requires Valid()
      modifies this
      ensures Valid() && currentDetector == old(currentDetector)
      ensures !captureReady ==> outcome == NoCaptureUseCase && events == old(events)
      ensures captureReady && old(currentDetector).None? ==> outcome == NoModel && events == old(events)
      ensures captureReady && old(currentDetector).Some? ==>
                var name := Name(old(currentDetector).value);
                events == old(events) + [SetUp(name, Image), Closed(name)]
      ensures captureReady && currentDetector.Some? && detection.None? ==> outcome == NotDetected
      ensures captureReady && currentDetector.Some? && detection.Some? ==>
                match CropAsWritten(photoWidth, photoHeight, detection.value)
                case Cropped(rect) => outcome == (if tempFileWritten then PreviewLaunched(rect) else TempFileFailed)
                case CropThrows => outcome == CropFailed
      ensures !tempFileWritten ==> !outcome.PreviewLaunched?
      ensures outcome.PreviewLaunched? ==> Extractable(photoWidth, photoHeight, outcome.crop)
    {
      if !captureReady {
        return NoCaptureUseCase;
      }
      if currentDetector.None? {
        return NoModel;
      }
      var targetDetectorName := Name(currentDetector.value);
      var detectorForImage := Create(targetDetectorName);
      if detectorForImage.Some? {
        events := events + [SetUp(Name(detectorForImage.value), Image), Closed(Name(detectorForImage.value))];
      }
      if detection.None? {
        return NotDetected;
      }
      var crop := CropAsWritten(photoWidth, photoHeight, detection.value);
      if crop.CropThrows? {
        return CropFailed;
      }
      if !tempFileWritten {
        return TempFileFailed;
      }
      outcome := PreviewLaunched(crop.rect);
    }

    /** `onDestroy`: the current detector, if any, is closed. */
    method OnDestroy()
      modifies this
      ensures currentDetector == old(currentDetector) && availableModels == old(availableModels)
      ensures events == old(events) + (if currentDetector.Some? then [Closed(Name(currentDetector.value))] else [])
    {
      if currentDetector.Some? {
        events := events + [Closed(Name(currentDetector.value))];
      }
    }
  }
}
