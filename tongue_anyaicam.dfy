/**
 * AnyAICam's tongue stage (`models/tongue_detector/ImgAnalyzer`): a face landmarker
 * and a TFLite classifier set up once, a display path that classifies the crop of
 * every detected face and reports the last face's verdict, and the save path.
 * Detection is an input: per face, its crop window and what inference does on it.
 */
module AnyAICamTongue {
  import opened Common
  import opened Stages
  import opened TongueGeometry
  import opened AnyAICamTflite

  /** One detected face as the display path sees it. */
  datatype FaceInput = FaceInput(window: CropWindow, run: Inference)

  /** The faces of a detection result: none for a null result. */
  function Faces(detected: Option<seq<FaceInput>>): seq<FaceInput> {
    if detected.None? then [] else detected.value
  }

  /**
   * `stateDiscriminator`: -1 without a helper, else the helper's class. `helper` is
   * the helper's interpreter when there is a helper.
   */
  function StateDiscriminator(helper: Option<Option<Backend>>, run: Inference): (r: int)
  {
    if helper.None? then -1 else Classification(helper.value, run)
  }

  /** The result code of one face: -1 unless its window is accepted and non-empty. */
  function FaceResult(face: FaceInput, width: int, height: int, helper: Option<Option<Backend>>): (r: int)
  {
    if CropAccepted(face.window, width, height) && face.window.size > 0 then StateDiscriminator(helper, face.run) else -1
  }

  /**
   * A face's code is one of -1, 0, 1, 2, and it is 0 (a tongue) only when its window
   * is accepted and non-empty, the helper and its interpreter exist, inference
   * completes and class 0 scores at least as high as class 1.
   */
  lemma FaceResultCases(face: FaceInput, width: int, height: int, helper: Option<Option<Backend>>)
    ensures FaceResult(face, width, height, helper) in {-1, 0, 1, 2}
    ensures FaceResult(face, width, height, helper) == 0 <==>
              && CropAccepted(face.window, width, height) && face.window.size > 0
              && helper.Some? && helper.value.Some? && face.run.Scores?
              && face.run.score0 >= face.run.score1
    ensures helper.None? ==> FaceResult(face, width, height, helper) == -1
  {
    if helper.Some? {
      ClassificationCases(helper.value, face.run);
    }
  }

  class TongueAnalyzer {
    var hasLandmarker: bool
    var helper: Option<TfliteHelper>

    constructor ()
      ensures !hasLandmarker && helper.None?
    {
      hasLandmarker, helper := false, None;
    }

    /** The helper's interpreter, when there is a helper. */
    function HelperState(): Option<Option<Backend>>
      reads this, if helper.Some? then {helper.value} else {}
    {
      if helper.None? then None else Some(helper.value.interpreter)
    }

    /**
     * `setup`: builds the landmarker unless there is one (a failure is caught), then
     * the classifier helper unless there is one; the helper's constructor can throw,
     * and that exception leaves `setup`.
     */
    method Setup(landmarkerLoads: bool, nnapi: Attempt, cpu: Attempt) returns (threw: bool)
      modifies this
      ensures hasLandmarker == (old(hasLandmarker) || landmarkerLoads)
      ensures old(helper).Some? ==> helper == old(helper) && !threw
      ensures old(helper).None? ==> (threw <==> Init(nnapi, cpu) == ConstructorThrows)
      ensures old(helper).None? && threw ==> helper.None?
      ensures old(helper).None? && !threw ==>
                helper.Some? && fresh(helper.value) && Init(nnapi, cpu) == Initialized(helper.value.interpreter)
    {
      threw := false;
      if !hasLandmarker {
        hasLandmarker := landmarkerLoads;
      }
      if helper.None? {
        var h := NewTfliteHelper(nnapi, cpu);
        if h.None? {
          threw := true;
          return;
        }
        helper := h;
      }
    }

    /**
     * `processFrameForDisplay` on a `width` x `height` frame. Without a landmarker the
     * frame itself comes back with false. Otherwise a clone comes back; each face's
     * code starts at -1 and the status is whether the LAST face's code is 0, false
     * when no face is found.
     */
    method ProcessFrameForDisplay(width: int, height: int, detected: Option<seq<FaceInput>>)
      returns (r: DisplayResult, results: seq<int>)
      ensures !hasLandmarker ==> r == DisplayResult(SameFrame, false) && results == []
      ensures hasLandmarker ==> r.output == FreshClone
      ensures hasLandmarker ==> |results| == |Faces(detected)|
      ensures hasLandmarker ==> forall i :: 0 <= i < |results| ==>
                results[i] == FaceResult(Faces(detected)[i], width, height, HelperState())
      ensures hasLandmarker ==> (r.status <==> |results| > 0 && results[|results| - 1] == 0)
    {
      if !hasLandmarker {
        return DisplayResult(SameFrame, false), [];
      }
      var faces := Faces(detected);
      var status := false;
      results := [];
      var i := 0;
      while i < |faces|
        invariant 0 <= i <= |faces|
        invariant |results| == i
        invariant forall k :: 0 <= k < i ==> results[k] == FaceResult(faces[k], width, height, HelperState())
        invariant status <==> i > 0 && results[i - 1] == 0
      {
        var face := faces[i];
        var result := -1;
        if CropAccepted(face.window, width, height) {
          if face.window.size > 0 {
            result := StateDiscriminatorCall(face.run);
          }
        }
        status := result == 0;
        results := results + [result];
        i := i + 1;
      }
      r := DisplayResult(FreshClone, status);
    }

    /** `stateDiscriminator(croppedImg)` with the helper's inference behaviour as `run`. */
    method StateDiscriminatorCall(run: Inference) returns (r: int)
      ensures r == StateDiscriminator(HelperState(), run)
    {
      if helper.None? {
        return -1;
      }
      r := helper.value.Classify(run);
    }

    /**
     * `processFrameForSaving` on a `width` x `height` bitmap, as written: the first
     * face's window is cropped whenever the bounds test accepts it, and a window of
     * size 0 makes `Bitmap.createBitmap` throw (`TongueSave` is the guarded version).
     */
    method ProcessFrameForSaving(width: int, height: int, firstFace: Option<CropWindow>) returns (r: SaveOutcome)
      ensures r == SaveThrows <==>
                hasLandmarker && firstFace.Some? && CropAccepted(firstFace.value, width, height) && firstFace.value.size == 0
      ensures r.Returns? && r.result.NewBitmap? <==>
                hasLandmarker && firstFace.Some? && CropAccepted(firstFace.value, width, height) && firstFace.value.size > 0
      ensures r.Returns? && r.result.NewBitmap? ==>
                r.result.width == r.result.height == firstFace.value.size && r.result.width <= width && r.result.height <= height
    {
      if !hasLandmarker || firstFace.None? {
        return Returns(SameBitmap);
      }
      var window := firstFace.value;
      if !CropAccepted(window, width, height) {
        return Returns(SameBitmap);
      }
      if window.size == 0 {
        return SaveThrows;
      }
      r := Returns(NewBitmap(window.size, window.size));
    }
  }

  /** A tongue-stage status of true means the last face's crop was classified as class 0. */
  lemma StatusMeansLastFaceIsClassZero(faces: seq<FaceInput>, results: seq<int>, width: int, height: int,
                                       helper: Option<Option<Backend>>)
    requires |results| == |faces| > 0
    requires forall i :: 0 <= i < |results| ==> results[i] == FaceResult(faces[i], width, height, helper)
    requires results[|results| - 1] == 0
    ensures var last := faces[|faces| - 1];
            && CropAccepted(last.window, width, height) && last.window.size > 0
            && helper.Some? && helper.value.Some? && last.run.Scores? && last.run.score0 >= last.run.score1
  {
    FaceResultCases(faces[|faces| - 1], width, height, helper);
  }
}
