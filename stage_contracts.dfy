/**
 * What each image processor promises to the pipelines that call it
 * (the `ImgProcessor` interface: `processFrameForDisplay` and `processFrameForSaving`),
 * and the contracts of the simple stages: Raw, Wink, Face and Pose.
 * Landmark detection is an input; only the branch logic and the drawing
 * decisions are modelled.
 */
module Stages {
  import opened Common

  /** Whether a display stage handed back its input `Mat` itself or a new `clone()` of it. */
  datatype FrameIdentity = SameFrame | FreshClone

  /** The `Pair<Mat, Boolean>` returned by `processFrameForDisplay`. */
  datatype DisplayResult = DisplayResult(output: FrameIdentity, status: bool)

  /** What `processFrameForSaving` returns: its argument, or a new bitmap of some size. */
  datatype SaveResult = SameBitmap | NewBitmap(width: int, height: int)

  /** How a call of `processFrameForSaving` ends: it returns, or an exception leaves it. */
  datatype SaveOutcome = Returns(result: SaveResult) | SaveThrows

  // ---------------------------------------------------------------- Raw

  const RawName: string := "Raw"
  const RawSaveDirectory: string := "Raw"

  /** Raw display stage: hands back the very frame it was given, and never blocks the shutter. */
  function RawDisplay(): (r: DisplayResult)
    ensures r.output == SameFrame && r.status
  {
    DisplayResult(SameFrame, true)
  }

  /** Raw save stage: hands back the very bitmap it was given. */
  function RawSave(): (r: SaveResult)
    ensures r == SameBitmap
  {
    SameBitmap
  }

  // ---------------------------------------------------------------- Wink

  const WinkName: string := "Wink"
  const WinkSaveDirectory: string := "WinkDetector"

  /** A filled or outlined circle drawn on a frame (`Imgproc.circle`). */
  datatype Circle = Circle(centerX: real, centerY: real, radius: nat, thickness: int)

  /** Wink display stage: marks a clone of the frame, so the input is never drawn on. */
  function WinkDisplay(): (r: DisplayResult)
    ensures r.output == FreshClone && r.status
  {
    DisplayResult(FreshClone, true)
  }

  /** The mark the Wink stage draws on its clone: a radius-50 ring at the frame's centre. */
  function WinkMark(cols: int, rows: int): (c: Circle)
    ensures c.centerX - 0.0 == cols as real - c.centerX
    ensures c.centerY - 0.0 == rows as real - c.centerY
    ensures c.radius == 50
  {
    Circle(cols as real / 2.0, rows as real / 2.0, 50, 3)
  }

  /** Wink save stage: hands back its input unchanged. */
  function WinkSave(): (r: SaveResult)
    ensures r == SameBitmap
  {
    SameBitmap
  }

  // ---------------------------------------------------------------- Face (MPdetector)

  const FaceName: string := "Face"
  const FaceSaveDirectory: string := "FaceDetector"

  /**
   * Face display stage. Without a landmarker it hands back its input and blocks
   * the shutter; with one it draws on a clone and reports true, face or no face.
   */
  function FaceDisplay(hasLandmarker: bool): (r: DisplayResult)
    ensures r.status <==> hasLandmarker
    ensures r.output == SameFrame <==> !hasLandmarker
  {
    if !hasLandmarker then DisplayResult(SameFrame, false) else DisplayResult(FreshClone, true)
  }

  /** Face save stage: its input without a landmarker, otherwise a new bitmap of the input's size. */
  function FaceSave(hasLandmarker: bool, width: int, height: int): (r: SaveResult)
    ensures r == SameBitmap <==> !hasLandmarker
    ensures r.NewBitmap? ==> r.width == width && r.height == height
  {
    if !hasLandmarker then SameBitmap else NewBitmap(width, height)
  }

  /** One landmark dot or one skeleton segment, named by landmark index. */
  datatype DrawOp = Dot(index: nat) | Line(first: nat, second: nat)

  /**
   * `drawFaceLandmarksOnMat`: one dot per landmark, in landmark order, with no
   * visibility test.
   */
  method DrawFaceLandmarks(landmarkCount: nat) returns (ops: seq<DrawOp>)
    ensures |ops| == landmarkCount
    ensures forall i :: 0 <= i < landmarkCount ==> ops[i] == Dot(i)
  {
    ops := [];
    var i := 0;
    while i < landmarkCount
      invariant 0 <= i <= landmarkCount
      invariant |ops| == i
      invariant forall k :: 0 <= k < i ==> ops[k] == Dot(k)
    {
      ops := ops + [Dot(i)];
      i := i + 1;
    }
  }

  // ---------------------------------------------------------------- Pose (AnyAICam)

  const PoseName: string := "Pose"
  const PoseSaveDirectory: string := "PoseDetector"

  /** A pose landmark; only its optional visibility score matters for drawing. */
  datatype PoseLandmark = PoseLandmark(x: real, y: real, visibility: Option<real>)

  /** `visibility().orElse(0.0f) > 0.5` */
  predicate Visible(l: PoseLandmark) {
    l.visibility.GetOr(0.0) > 0.5
  }

  /**
   * Pose display stage. It never blocks the shutter: without a landmarker it hands
   * back its input, with one it draws on a clone.
   */
  function PoseDisplay(hasLandmarker: bool): (r: DisplayResult)
    ensures r.status
    ensures r.output == SameFrame <==> !hasLandmarker
  {
    if !hasLandmarker then DisplayResult(SameFrame, true) else DisplayResult(FreshClone, true)
  }

  /** Pose save stage: its input without a landmarker, otherwise a new bitmap of the input's size. */
  function PoseSave(hasLandmarker: bool, width: int, height: int): (r: SaveResult)
    ensures r == SameBitmap <==> !hasLandmarker
    ensures r.NewBitmap? ==> r.width == width && r.height == height
  {
    if !hasLandmarker then SameBitmap else NewBitmap(width, height)
  }

  /** The skeleton: 35 pairs of landmark indices, each index one of the 33 pose landmarks. */
  function PoseConnections(): (r: seq<(nat, nat)>)
    ensures |r| == 35
    ensures forall i :: 0 <= i < |r| ==> r[i].0 < 33 && r[i].1 < 33
  {
    [(0, 1), (1, 2), (2, 3), (3, 7), (0, 4), (4, 5),
     (5, 6), (6, 8), (9, 10), (11, 12), (11, 13),
     (13, 15), (15, 17), (15, 19), (15, 21), (17, 19),
     (12, 14), (14, 16), (16, 18), (16, 20), (16, 22),
     (18, 20), (11, 23), (12, 24), (23, 24), (23, 25),
     (24, 26), (25, 27), (26, 28), (27, 29), (28, 30),
     (29, 31), (30, 32), (27, 31), (28, 32)]
  }

  /** The segments drawn for `connections`: those whose two ends are both visible, in order. */
  function VisibleLines(landmarks: seq<PoseLandmark>, connections: seq<(nat, nat)>): seq<DrawOp>
    requires forall i :: 0 <= i < |connections| ==> connections[i].0 < |landmarks| && connections[i].1 < |landmarks|
  {
    if connections == [] then []
    else
      var c := connections[|connections| - 1];
      VisibleLines(landmarks, connections[..|connections| - 1])
        + (if Visible(landmarks[c.0]) && Visible(landmarks[c.1]) then [Line(c.0, c.1)] else [])
  }

  /** The dots drawn for the first `n` landmarks: those that are visible, in order. */
  function VisibleDots(landmarks: seq<PoseLandmark>, n: nat): seq<DrawOp>
    requires n <= |landmarks|
  {
    if n == 0 then [] else VisibleDots(landmarks, n - 1) + (if Visible(landmarks[n - 1]) then [Dot(n - 1)] else [])
  }

  /** A segment is drawn iff it is one of the connections and both its ends are visible. */
  lemma {:induction false} VisibleLinesExact(landmarks: seq<PoseLandmark>, connections: seq<(nat, nat)>, a: nat, b: nat)
    requires forall i :: 0 <= i < |connections| ==> connections[i].0 < |landmarks| && connections[i].1 < |landmarks|
    ensures Line(a, b) in VisibleLines(landmarks, connections)
        <==> (a, b) in connections && a < |landmarks| && b < |landmarks| && Visible(landmarks[a]) && Visible(landmarks[b])
    ensures forall op :: op in VisibleLines(landmarks, connections) ==> op.Line?
  {
    if connections != [] {
      var init := connections[..|connections| - 1];
      VisibleLinesExact(landmarks, init, a, b);
      assert connections == init + [connections[|connections| - 1]];
    }
  }

  /** A landmark gets a dot iff it is visible. */
  lemma {:induction false} VisibleDotsExact(landmarks: seq<PoseLandmark>, n: nat, k: nat)
    requires n <= |landmarks|
    ensures Dot(k) in VisibleDots(landmarks, n) <==> k < n && Visible(landmarks[k])
    ensures forall op :: op in VisibleDots(landmarks, n) ==> op.Dot?
  {
    if n > 0 {
      VisibleDotsExact(landmarks, n - 1, k);
    }
  }

  /**
   * `drawPoseOnMat`: first the skeleton segments, then the landmark dots, each
   * filtered by visibility. MediaPipe's pose model reports 33 landmarks, which
   * every connection index needs.
   */
  method DrawPose(landmarks: seq<PoseLandmark>) returns (ops: seq<DrawOp>)
    requires |landmarks| >= 33
    ensures ops == VisibleLines(landmarks, PoseConnections()) + VisibleDots(landmarks, |landmarks|)
  {
    var connections := PoseConnections();
    ops := [];
    var i := 0;
    while i < |connections|
      invariant 0 <= i <= |connections|
      invariant ops == VisibleLines(landmarks, connections[..i])
    {
      var c := connections[i];
      if Visible(landmarks[c.0]) && Visible(landmarks[c.1]) {
        ops := ops + [Line(c.0, c.1)];
      }
      assert connections[..i + 1][..i] == connections[..i];
      i := i + 1;
    }
    assert connections[..i] == connections;
    var lines := ops;
    var j := 0;
    while j < |landmarks|
      invariant 0 <= j <= |landmarks|
      invariant ops == lines + VisibleDots(landmarks, j)
    {
      if Visible(landmarks[j]) {
        ops := ops + [Dot(j)];
      }
      j := j + 1;
    }
  }
}
