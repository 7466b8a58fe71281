/**
 * What the two tongue stages share: the mouth-corner landmarks, the centre of the
 * tongue square, the in-bounds test for the crop window, and the save path.
 * The window itself (`cropX`, `cropY`, `cropSize`) comes out of trigonometry and
 * float truncation and is an input here.
 */
module TongueGeometry {
  import opened Common
  import opened Stages

  const TongueName: string := "Tongue"
  const TongueSaveDirectory: string := "TongueDetector"

  /** Face-mesh indices of the mouth corners used to place the square. */
  const MouthLeftCorner: nat := 61
  const MouthRightCorner: nat := 291

  /** A normalized landmark or a pixel position. */
  datatype Point = Point(x: real, y: real)

  /** The square crop window in the straightened image: top-left corner and side. */
  datatype CropWindow = CropWindow(x: int, y: int, size: nat)

  /** A normalized landmark scaled to an image of `width` x `height` pixels. */
  function ToPixels(p: Point, width: int, height: int): Point {
    Point(p.x * width as real, p.y * height as real)
  }

  /**
   * The centre of the tongue square: the exact midpoint of the two mouth corners,
   * landmark 61 and landmark 291, in pixels.
   */
  function SquareCenter(landmarks: seq<Point>, width: int, height: int): (c: Point)
    requires |landmarks| > MouthRightCorner
    ensures var l := ToPixels(landmarks[61], width, height);
            var r := ToPixels(landmarks[291], width, height);
            c.x - l.x == r.x - c.x && c.y - l.y == r.y - c.y
  {
    var l := ToPixels(landmarks[MouthLeftCorner], width, height);
    var r := ToPixels(landmarks[MouthRightCorner], width, height);
    Point((l.x + r.x) / 2.0, (l.y + r.y) / 2.0)
  }

  /** The integer bounds test both stages apply before cropping. */
  predicate CropAccepted(w: CropWindow, width: int, height: int) {
    w.x >= 0 && w.y >= 0 && w.x + w.size <= width && w.y + w.size <= height
  }

  /** Pixel (px, py) lies in the window. */
  predicate Covers(w: CropWindow, px: int, py: int) {
    w.x <= px < w.x + w.size && w.y <= py < w.y + w.size
  }

  /** Pixel (px, py) lies in an image of `width` x `height` pixels. */
  predicate InImage(px: int, py: int, width: int, height: int) {
    0 <= px < width && 0 <= py < height
  }

  /**
   * The test never clamps: a non-empty window is accepted exactly when every one of
   * its pixels lies in the image.
   */
  lemma CropAcceptedIffInside(w: CropWindow, width: int, height: int)
    requires w.size > 0
    ensures CropAccepted(w, width, height) <==>
            forall px, py :: Covers(w, px, py) ==> InImage(px, py, width, height)
  {
    if forall px, py :: Covers(w, px, py) ==> InImage(px, py, width, height) {
      assert Covers(w, w.x, w.y);
      assert Covers(w, w.x + w.size - 1, w.y + w.size - 1);
    }
  }

  /**
   * The save path as written: without a landmarker or a face it returns its input;
   * an accepted window is cropped and copied into a new bitmap of the crop's size,
   * which `Bitmap.createBitmap` refuses (it throws) when that size is 0; a rejected
   * window returns the input. `firstFace` is the window of the first detected face.
   */
  function TongueSaveAsWritten(hasLandmarker: bool, firstFace: Option<CropWindow>, width: int, height: int): (r: SaveOutcome)
    ensures r == SaveThrows <==>
              hasLandmarker && firstFace.Some? && CropAccepted(firstFace.value, width, height) && firstFace.value.size == 0
  {
    if !hasLandmarker || firstFace.None? then Returns(SameBitmap)
    else if CropAccepted(firstFace.value, width, height) then
      if firstFace.value.size == 0 then SaveThrows else Returns(NewBitmap(firstFace.value.size, firstFace.value.size))
    else Returns(SameBitmap)
  }

  /**
   * Mouth corners closer than one pixel give a window of size 0 at the centre, which
   * the test accepts; the display path skips such a crop, the save path throws.
   */
  lemma ZeroSizeCropThrowsAsWritten()
    ensures CropAccepted(CropWindow(320, 240, 0), 640, 480)
    ensures TongueSaveAsWritten(true, Some(CropWindow(320, 240, 0)), 640, 480) == SaveThrows
  {
  }

  /**
   * The save path with the display path's guard: a new bitmap only for an accepted,
   * non-empty window, otherwise the input.
   */
  function TongueSave(hasLandmarker: bool, firstFace: Option<CropWindow>, width: int, height: int): (r: SaveResult)
    ensures r.NewBitmap? <==>
              hasLandmarker && firstFace.Some? && CropAccepted(firstFace.value, width, height) && firstFace.value.size > 0
    ensures r.NewBitmap? ==> r.width == r.height == firstFace.value.size && 0 < r.width <= width && r.height <= height
  {
    if hasLandmarker && firstFace.Some? && CropAccepted(firstFace.value, width, height) && firstFace.value.size > 0 then
      NewBitmap(firstFace.value.size, firstFace.value.size)
    else SameBitmap
  }

  /** The corrected save path agrees with the written one wherever the written one returns. */
  lemma TongueSaveAgrees(hasLandmarker: bool, firstFace: Option<CropWindow>, width: int, height: int)
    ensures TongueSaveAsWritten(hasLandmarker, firstFace, width, height) != SaveThrows ==>
              TongueSaveAsWritten(hasLandmarker, firstFace, width, height) == Returns(TongueSave(hasLandmarker, firstFace, width, height))
  {
  }
}
