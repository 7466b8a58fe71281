/**
 * The tanguecaptureapp prototype's tongue crop (`cropToTongueArea`): from the two
 * mouth corners it builds a square hanging off the mouth line, without trigonometry,
 * and maps that square's corners onto an upright bitmap. Coordinates are exact reals;
 * `sqrt` appears only through its defining property, and the resampling itself is
 * the platform's.
 */
module Prototype {
  import opened Common
  import opened TongueGeometry

  /** The landmark read as the right mouth corner. */
  const RightCornerIndex: nat := 61
  /** The landmark read as the left mouth corner. */
  const LeftCornerIndex: nat := 291

  /** A face landmark in normalized image coordinates. */
  datatype Landmark = Landmark(x: real, y: real)

  /** The four source points handed to `setPolyToPoly`, in the order they are listed. */
  datatype Quad = Quad(topLeft: Point, topRight: Point, bottomRight: Point, bottomLeft: Point)

  /** A landmark in pixels of a `width` x `height` bitmap. */
  function ToPixels(l: Landmark, width: real, height: real): (p: Point)
    ensures width > 0.0 ==> p.x / width == l.x
    ensures height > 0.0 ==> p.y / height == l.y
  {
    Point(l.x * width, l.y * height)
  }

  /** `d * d` */
  function Sq(d: real): real {
    d * d
  }

  /** Squared distance between two points. */
  function Dist2(a: Point, b: Point): real {
    Sq(b.x - a.x) + Sq(b.y - a.y)
  }

  /** Dot product of the vectors `a -> b` and `c -> d`. */
  function Dot(a: Point, b: Point, c: Point, d: Point): real {
    (b.x - a.x) * (d.x - c.x) + (b.y - a.y) * (d.y - c.y)
  }

  /**
   * The square on the mouth line: its top edge runs from the left corner to the right
   * corner, and both bottom vertices are the top ones moved by `(dy, -dx)`, where
   * `(dx, dy)` runs from the left corner to the right one.
   */
  function SquareOn(left: Point, right: Point): (q: Quad)
    ensures q.topLeft == left && q.topRight == right
    ensures q.bottomLeft.x - left.x == right.y - left.y && q.bottomLeft.y - left.y == -(right.x - left.x)
    ensures q.bottomRight.x - right.x == right.y - left.y && q.bottomRight.y - right.y == -(right.x - left.x)
  {
    var dx := right.x - left.x;
    var dy := right.y - left.y;
    Quad(left, right, Point(right.x + dy, right.y - dx), Point(left.x + dy, left.y - dx))
  }

  /**
   * The quad is a square whose side is the mouth width: four equal sides, right
   * angles at every vertex, and equal diagonals of twice the squared side.
   */
  lemma SquareOnIsSquare(left: Point, right: Point)
    ensures var q := SquareOn(left, right); var s := Dist2(left, right);
      && Dist2(q.topLeft, q.topRight) == s
      && Dist2(q.topRight, q.bottomRight) == s
      && Dist2(q.bottomRight, q.bottomLeft) == s
      && Dist2(q.bottomLeft, q.topLeft) == s
      && Dot(q.topLeft, q.topRight, q.topRight, q.bottomRight) == 0.0
      && Dot(q.topRight, q.bottomRight, q.bottomRight, q.bottomLeft) == 0.0
      && Dot(q.bottomRight, q.bottomLeft, q.bottomLeft, q.topLeft) == 0.0
      && Dot(q.bottomLeft, q.topLeft, q.topLeft, q.topRight) == 0.0
      && Dist2(q.topLeft, q.bottomRight) == 2.0 * s
      && Dist2(q.topRight, q.bottomLeft) == 2.0 * s
  {
  }

  /**
   * On a level mouth whose right corner lies left of its left corner in the image,
   * as in the mirrored front-camera photo, the square hangs below the mouth line by
   * the mouth's width.
   */
  lemma SquareHangsBelow(left: Point, right: Point)
    requires right.y == left.y && right.x < left.x
    ensures SquareOn(left, right).bottomLeft == Point(left.x, left.y + (left.x - right.x))
    ensures SquareOn(left, right).bottomRight == Point(right.x, right.y + (left.x - right.x))
  {
  }

  /** The destination points of `setPolyToPoly`: the upright `side` x `side` bitmap's corners, in the same order. */
  function UprightSquare(side: real): (q: Quad)
    ensures q.topLeft == Point(0.0, 0.0) && q.bottomRight == Point(side, side)
    ensures Dist2(q.topLeft, q.topRight) == side * side && Dist2(q.topLeft, q.bottomLeft) == side * side
  {
    Quad(Point(0.0, 0.0), Point(side, 0.0), Point(side, side), Point(0.0, side))
  }

  /** Squared distances between all six pairs of a quad's corners. */
  function PairDistances(q: Quad): seq<real> {
    [Dist2(q.topLeft, q.topRight), Dist2(q.topRight, q.bottomRight), Dist2(q.bottomRight, q.bottomLeft),
     Dist2(q.bottomLeft, q.topLeft), Dist2(q.topLeft, q.bottomRight), Dist2(q.topRight, q.bottomLeft)]
  }

  /**
   * With `boxWidth` the square root of the squared mouth width, the corner-to-corner
   * mapping keeps every distance between corners: the tilted square is carried onto
   * the upright bitmap without stretching.
   */
  lemma CornerMappingIsRigid(left: Point, right: Point, boxWidth: real)
    requires boxWidth >= 0.0 && boxWidth * boxWidth == Dist2(left, right)
    ensures PairDistances(SquareOn(left, right)) == PairDistances(UprightSquare(boxWidth))
  {
    SquareOnIsSquare(left, right);
    var u := UprightSquare(boxWidth);
    var w2 := boxWidth * boxWidth;
    assert Dist2(u.topRight, u.bottomRight) == w2;
    assert Dist2(u.bottomRight, u.bottomLeft) == w2;
    assert Dist2(u.bottomLeft, u.topLeft) == w2;
    assert Dist2(u.topLeft, u.bottomRight) == 2.0 * w2;
    assert Dist2(u.topRight, u.bottomLeft) == 2.0 * w2;
  }

  /** A square is never negative, and it is 0 only for 0. */
  lemma SqCases(d: real)
    ensures Sq(d) >= 0.0
    ensures Sq(d) > 0.0 || d == 0.0
  {
    if d > 0.0 {
      calc {
        Sq(d);
        ==
        d * d;
        >
        0.0;
      }
    } else if d < 0.0 {
      calc {
        Sq(d);
        ==
        (-d) * (-d);
        >
        0.0;
      }
    }
  }

  /** Two points at squared distance 0 or less are the same point. */
  lemma CoincidentWhenZeroWidth(a: Point, b: Point)
    requires Dist2(a, b) <= 0.0
    ensures a == b
  {
    SqCases(b.x - a.x);
    SqCases(b.y - a.y);
  }

  /** How the prototype's crop ends. */
  datatype TongueCrop =
    | NoFace                                  // no face detected
    | CoincidentCorners                       // the mouth corners coincide: no square
    | Square(source: Quad, sideSquared: real) // the square to map onto a bitmap of side `sqrt(sideSquared)`

  /**
   * `cropToTongueArea` up to the mapping. The first face's landmarks 61 and 291 are
   * the right and left mouth corners; `sqrt(dx*dx + dy*dy) <= 0` holds exactly when the
   * squared width is 0.
   */
  function TongueCropOf(faces: seq<seq<Landmark>>, width: real, height: real): (r: TongueCrop)
    requires |faces| > 0 ==> |faces[0]| > LeftCornerIndex
    ensures r == NoFace <==> |faces| == 0
    ensures r.Square? ==>
              var left := ToPixels(faces[0][LeftCornerIndex], width, height);
              var right := ToPixels(faces[0][RightCornerIndex], width, height);
              r.source == SquareOn(left, right) && r.sideSquared == Dist2(left, right) && r.sideSquared > 0.0
    ensures r == CoincidentCorners <==>
              |faces| > 0 && ToPixels(faces[0][LeftCornerIndex], width, height) == ToPixels(faces[0][RightCornerIndex], width, height)
  {
    if |faces| == 0 then NoFace
    else
      var left := ToPixels(faces[0][LeftCornerIndex], width, height);
      var right := ToPixels(faces[0][RightCornerIndex], width, height);
      var s := Dist2(left, right);
      if s <= 0.0 then
        CoincidentWhenZeroWidth(left, right);
        CoincidentCorners
      else Square(SquareOn(left, right), s)
  }

  /** The face landmarker `cropToTongueArea` creates for one photo. */
  class ImageLandmarker {
    var closed: bool

    constructor ()
      ensures !closed
    {
      closed := false;
    }

    method Close()
      modifies this
      ensures closed
    {
      closed := true;
    }
  }

  /** `cropToTongueArea`: the landmarker it creates is closed on every path out. */
  method CropToTongueArea(faces: seq<seq<Landmark>>, width: real, height: real)
    returns (crop: TongueCrop, landmarker: ImageLandmarker)
    requires |faces| > 0 ==> |faces[0]| > LeftCornerIndex
    ensures fresh(landmarker) && landmarker.closed
    ensures crop == TongueCropOf(faces, width, height)
  {
    landmarker := new ImageLandmarker();
    if |faces| == 0 {
      landmarker.Close();
      return NoFace, landmarker;
    }
    crop := TongueCropOf(faces, width, height);
    landmarker.Close();
  }

  /** How `onCaptureSuccess` ends. */
  datatype CaptureOutcome =
    | MouthNotFound     // a failure message; no temp file, no preview
    | FileError         // the temp file could not be written: an error message
    | PreviewStarted    // the crop was written to a temp file and the preview opened

  /** The capture callback after the crop: only a square leads to a file and a preview. */
  function CaptureOutcomeOf(crop: TongueCrop, tempFileWritten: bool): (r: CaptureOutcome)
    ensures r == MouthNotFound <==> !crop.Square?
    ensures r == PreviewStarted <==> crop.Square? && tempFileWritten
  {
    if !crop.Square? then MouthNotFound
    else if tempFileWritten then PreviewStarted
    else FileError
  }
}
