/**
 * MPdetector's tongue stage (`models/tongue_detector/ImgAnalyzer`): a face
 * landmarker set up once, a display path that scores each face's crop by its share
 * of tongue-coloured pixels but always reports true, and the save path. The colour
 * mask is an input: per face, its crop window and the count of matching pixels.
 */
module MPdetectorTongue {
  import opened Common
  import opened Stages
  import opened TongueGeometry

  /** One detected face as the display path sees it. */
  datatype FaceInput = FaceInput(window: CropWindow, matchingPixels: nat)

  /** The faces of a detection result: none for a null result. */
  function Faces(detected: Option<seq<FaceInput>>): seq<FaceInput> {
    if detected.None? then [] else detected.value
  }

  /**
   * `stateDiscriminator`: 1 ("not found") for an empty crop, otherwise 0 when the
   * matching pixels are at least 50 percent of the crop and 1 when they are not.
   */
  function StateDiscriminator(matchingPixels: nat, totalPixels: nat): (r: int)
  {
    if totalPixels == 0 then 1
    else if (matchingPixels as real / totalPixels as real) * 100.0 >= 50.0 then 0
    else 1
  }

  /** The percentage test is the integer test "twice the matching pixels reach the total". */
  lemma StateDiscriminatorThreshold(matchingPixels: nat, totalPixels: nat)
    ensures StateDiscriminator(matchingPixels, totalPixels) in {0, 1}
    ensures totalPixels == 0 ==> StateDiscriminator(matchingPixels, totalPixels) == 1
    ensures totalPixels > 0 ==>
              (StateDiscriminator(matchingPixels, totalPixels) == 0 <==> 2 * matchingPixels >= totalPixels)
  {
    if totalPixels > 0 {
      var m, t := matchingPixels as real, totalPixels as real;
      var q := m / t;
      assert q * t == m;
      if q * 100.0 >= 50.0 {
        assert m == q * t >= 0.5 * t;
      } else {
        assert m == q * t < 0.5 * t;
      }
    }
  }

  /** A face whose window passes the bounds test and is not empty: its crop gets scored. */
  predicate Usable(face: FaceInput, width: int, height: int) {
    CropAccepted(face.window, width, height) && face.window.size > 0
  }

  /**
   * The result code after the faces `faces` were processed: it starts at 1 and only a
   * usable face overwrites it, with the score of its `size` x `size` crop.
   */
  function ResultAfter(faces: seq<FaceInput>, width: int, height: int): (r: int)
  {
    if faces == [] then 1
    else
      var last := faces[|faces| - 1];
      if Usable(last, width, height) then StateDiscriminator(last.matchingPixels, last.window.size * last.window.size)
      else ResultAfter(faces[..|faces| - 1], width, height)
  }

  /**
   * The result is not reset between faces: after a run of unusable faces it is still
   * the result of the faces before them, and it is always 0 or 1.
   */
  lemma {:induction false} ResultCarriesOver(faces: seq<FaceInput>, k: nat, width: int, height: int)
    requires k <= |faces|
    requires forall i :: k <= i < |faces| ==> !Usable(faces[i], width, height)
    ensures ResultAfter(faces, width, height) == ResultAfter(faces[..k], width, height)
    ensures ResultAfter(faces, width, height) in {0, 1}
  {
    if |faces| == k {
      assert faces[..k] == faces;
      ResultRange(faces, width, height);
    } else {
      var init := faces[..|faces| - 1];
      assert init[..k] == faces[..k];
      ResultCarriesOver(init, k, width, height);
    }
  }

  lemma {:induction false} ResultRange(faces: seq<FaceInput>, width: int, height: int)
    ensures ResultAfter(faces, width, height) in {0, 1}
  {
    if faces != [] {
      var last := faces[|faces| - 1];
      if Usable(last, width, height) {
        StateDiscriminatorThreshold(last.matchingPixels, last.window.size * last.window.size);
      } else {
        ResultRange(faces[..|faces| - 1], width, height);
      }
    }
  }

  class TongueAnalyzer {
    var hasLandmarker: bool

    constructor ()
      ensures !hasLandmarker
    {
      hasLandmarker := false;
    }

    /** `setup`: builds the landmarker unless there is one; a failure is caught. */
    method Setup(landmarkerLoads: bool)
      modifies this
      ensures hasLandmarker == (old(hasLandmarker) || landmarkerLoads)
    {
      if !hasLandmarker {
        hasLandmarker := landmarkerLoads;
      }
    }

    /**
     * `processFrameForDisplay` on a `width` x `height` frame. Without a landmarker the
     * frame itself comes back with false; with one, a clone comes back with true,
     * whatever the faces scored. `results[i]` is the code drawn for face `i`.
     */
    method ProcessFrameForDisplay(width: int, height: int, detected: Option<seq<FaceInput>>)
      returns (r: DisplayResult, results: seq<int>)
      ensures !hasLandmarker ==> r == DisplayResult(SameFrame, false) && results == []
      ensures hasLandmarker ==> r == DisplayResult(FreshClone, true)
      ensures hasLandmarker ==> |results| == |Faces(detected)|
      ensures hasLandmarker ==> forall i :: 0 <= i < |results| ==>
                results[i] == ResultAfter(Faces(detected)[..i + 1], width, height)
    {
      if !hasLandmarker {
        return DisplayResult(SameFrame, false), [];
      }
      var faces := Faces(detected);
      var result := 1;
      results := [];
      var i := 0;
      while i < |faces|
        invariant 0 <= i <= |faces|
        invariant |results| == i
        invariant result == ResultAfter(faces[..i], width, height)
        invariant forall k :: 0 <= k < i ==> results[k] == ResultAfter(faces[..k + 1], width, height)
      {
        var face := faces[i];
        assert faces[..i + 1][..i] == faces[..i];
        if CropAccepted(face.window, width, height) {
          if face.window.size > 0 {
            result := StateDiscriminator(face.matchingPixels, face.window.size * face.window.size);
          }
        }
        results := results + [result];
        i := i + 1;
      }
      r := DisplayResult(FreshClone, true);
    }

    /**
     * `processFrameForSaving` on a `width` x `height` bitmap, as written: the first
     * face's window is cropped whenever the bounds test accepts it, and a window of
     * size 0 makes `Bitmap.createBitmap` throw (`TongueSave` is the guarded version).
     */
    method ProcessFrameForSaving(width: int, height: int, firstFace: Option<CropWindow>) returns (r: SaveOutcome)
      ensures r == SaveThrows <==>
                hasLandmarker && firstFace.Some? && CropAccepted(firstFace.value, width, height) && firstFace.value.size == 0
      ensures r.Returns? && r.result.NewBitmap? <==>
                hasLandmarker && firstFace.Some? && CropAccepted(firstFace.value, width, height) && firstFace.value.size > 0
      ensures r.Returns? && r.result.NewBitmap? ==>
                r.result.width == r.result.height == firstFace.value.size && r.result.width <= width && r.result.height <= height
    {
      if !hasLandmarker || firstFace.None? {
        return Returns(SameBitmap);
      }
      var window := firstFace.value;
      if !CropAccepted(window, width, height) {
        return Returns(SameBitmap);
      }
      if window.size == 0 {
        return SaveThrows;
      }
      r := Returns(NewBitmap(window.size, window.size));
    }
  }
}
