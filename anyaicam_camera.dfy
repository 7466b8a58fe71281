/**
 * The AnyAICam camera screen (`CameraFragment`): the per-frame analyzer (rotation,
 * processor chain, shutter flag, buffer release in `finally`, recording hook) and
 * the recording toggle over `isRecording`, `videoRecorder` and `videoFile`.
 * The `VideoRecorder` class itself is not part of this model: a recorder is its
 * size, its file and the number of frames drawn into it.
 */
module AnyAICamCamera {
  import opened Common
  import opened Mats
  import opened Stages
  import opened ProcessorChain
  import opened Ingest

  /** A `VideoRecorder`: the size it was created with, its output file and the frames drawn so far. */
  datatype Recorder = Recorder(width: int, height: int, file: string, framesDrawn: nat)

  /** How `saveVideoToGallery` ends: no gallery entry, entry but copy failed, or copied. */
  datatype GalleryOutcome = InsertFailed | CopyFailed | Saved

  /** The active processor list of the shared view model: null and empty both mean "no stages". */
  function ActiveCalls(active: Option<seq<StageCall>>): seq<StageCall> {
    if active.None? then [] else active.value
  }

  /**
   * Size (rows, cols) of the rotated frame for a non-zero rotation hint: 90 and 270
   * swap the sides, 180 keeps them, and any other value leaves the `Mat()` that
   * `Core.rotate` never wrote to, which is empty.
   */
  function RotatedSize(rotation: int, rows: int, cols: int): (size: (int, int))
    ensures rotation == 90 || rotation == 270 ==> size == (cols, rows)
    ensures rotation == 180 ==> size == (rows, cols)
    ensures rotation !in {90, 180, 270} ==> size == (0, 0)
  {
    if rotation == 90 || rotation == 270 then (cols, rows)
    else if rotation == 180 then (rows, cols)
    else (0, 0)
  }

  // ------------------------------------------------ temp video file name

  /**
   * The temp file name as the source spells it: `${'$'}` is a literal dollar sign in
   * a Kotlin string template, so the braces after it are plain text and the
   * timestamp is never inserted.
   */
  function TempVideoNameAsWritten(timestamp: string): (name: string)
  {
    "temp_video_${timestamp}.mp4"
  }

  /** As written, every recording gets the same temp file name, whatever the time. */
  lemma TempVideoNameAsWrittenIsConstant(t1: string, t2: string)
    ensures TempVideoNameAsWritten(t1) == TempVideoNameAsWritten(t2)
    ensures TempVideoNameAsWritten("20240101_120000") == "temp_video_${timestamp}.mp4"
  {
  }

  /** The temp file name with the timestamp actually inserted. */
  function TempVideoName(timestamp: string): (name: string)
  {
    "temp_video_" + timestamp + ".mp4"
  }

  /** Recordings started at different timestamps get different temp files. */
  lemma TempVideoNameInjective(t1: string, t2: string)
    ensures TempVideoName(t1) == TempVideoName(t2) ==> t1 == t2
  {
    if TempVideoName(t1) == TempVideoName(t2) {
      var n1, n2 := TempVideoName(t1), TempVideoName(t2);
      assert t1 == n1[11..|n1| - 4];
      assert t2 == n2[11..|n2| - 4];
    }
  }

  /** The rotated frame's buffer, as the analyzer builds it from the converted frame. */
  method NormalizeRotation(heap: MatHeap, frame: MatRef, rotation: int, ghost n0: nat, ghost live: set<nat>)
    returns (rotated: MatRef)
    requires heap.FrameInv(n0, live) && frame.id in live
    modifies heap
    ensures rotation == 0 ==> rotated == frame && heap.nextId == old(heap.nextId) && heap.released == old(heap.released)
    ensures rotation != 0 ==>
      && rotated.id == old(heap.nextId) + 1
      && (rotated.rows, rotated.cols) == RotatedSize(rotation, frame.rows, frame.cols)
      && heap.nextId == old(heap.nextId) + 2
      && heap.released == old(heap.released) + [old(heap.nextId), frame.id]
    ensures heap.FrameInv(n0, if rotation == 0 then live else live - {frame.id} + {rotated.id})
  {
    if rotation != 0 {
      var temp := heap.Alloc(0, 0);
      var size := RotatedSize(rotation, frame.rows, frame.cols);
      temp := temp.(rows := size.0, cols := size.1);
      rotated := heap.Alloc(temp.rows, temp.cols);  // temp.clone()
      heap.Release(temp);
      heap.Release(frame);
    } else {
      rotated := frame;
    }
  }

  /**
   * The first steps of the analyzer: the camera image becomes an RGBA `Mat`, which is
   * rotated upright into a new buffer when the rotation hint is not 0. Only the
   * returned buffer is live afterwards. When the conversion throws (`converted` is
   * false), nothing is rotated and the two buffers of `imageProxyToMat` stay live.
   */
  method PrepareFrame(heap: MatHeap, image: CameraImage) returns (rotated: MatRef, converted: bool)
    requires heap.Valid()
    modifies heap
    ensures converted <==> Converts(image)
    ensures !converted ==>
              heap.released == old(heap.released) && heap.FrameInv(old(heap.nextId), {old(heap.nextId), old(heap.nextId) + 1})
    ensures converted && image.rotationDegrees == 0 ==> (rotated.rows, rotated.cols) == (image.height, image.width)
    ensures converted && image.rotationDegrees != 0 ==>
              (rotated.rows, rotated.cols) == RotatedSize(image.rotationDegrees, image.height, image.width)
    ensures converted ==> |heap.released| > |old(heap.released)|
    ensures heap.released[..|old(heap.released)|] == old(heap.released)
    ensures converted ==> heap.FrameInv(old(heap.nextId), {rotated.id})
  {
    ghost var n0 := heap.nextId;
    var frameMat, nv21;
    frameMat, nv21, converted := ImageProxyToMat(heap, image, n0, {});
    rotated := frameMat;
    if converted {
      rotated := NormalizeRotation(heap, frameMat, image.rotationDegrees, n0, {frameMat.id});
    }
  }

  /**
   * The analyzer up to its `finally`, on buffers: prepare the frame, then run the
   * processor chain on it. Exactly the rotated frame and the displayed buffer are live.
   * When the conversion throws (`converted` is false) no stage runs, `threw` is false,
   * and the two buffers of `imageProxyToMat` stay live.
   */
  method RenderFrame(heap: MatHeap, image: CameraImage, calls: seq<StageCall>)
    returns (rotated: MatRef, display: MatRef, allOk: bool, threw: bool, converted: bool)
    requires heap.Valid()
    modifies heap
    ensures converted <==> Converts(image)
    ensures !converted ==>
              && !threw
              && heap.released == old(heap.released)
              && heap.FrameInv(old(heap.nextId), {old(heap.nextId), old(heap.nextId) + 1})
    ensures converted && image.rotationDegrees == 0 ==> (rotated.rows, rotated.cols) == (image.height, image.width)
    ensures converted && image.rotationDegrees != 0 ==>
              (rotated.rows, rotated.cols) == RotatedSize(image.rotationDegrees, image.height, image.width)
    ensures converted ==> (threw <==> |Ran(calls)| < |calls|)
    ensures converted ==> allOk == AllOk(Ran(calls))
    ensures converted ==> display.rows == rotated.rows && display.cols == rotated.cols
    ensures converted && image.rotationDegrees !in {0, 90, 180, 270} ==> !BitmapConvertible(display)
    ensures converted ==> (display.id == rotated.id <==> FreshCount(Ran(calls)) == 0)
    ensures converted ==> |heap.released| > |old(heap.released)|
    ensures heap.released[..|old(heap.released)|] == old(heap.released)
    ensures converted ==> heap.FrameInv(old(heap.nextId), {rotated.id, display.id})
  {
    ghost var n0 := heap.nextId;
    rotated, converted := PrepareFrame(heap, image);
    display, allOk, threw := rotated, true, false;
    if converted {
      ghost var mid := heap.released;
      display, allOk, threw := RunChain(heap, rotated, calls, n0);
      assert heap.released[..|mid|] == mid;
    }
  }

  class CameraFragment {
    const heap: MatHeap
    var isRecording: bool
    var videoRecorder: Option<Recorder>
    var videoFile: Option<string>
    /** Every `VideoRecorder.stop()` call, with the recorder as it was stopped. */
    var stoppedRecorders: seq<Recorder>
    /** Temp files whose content was copied into the gallery. */
    var galleryVideos: seq<string>
    /** `_binding != null`: the view still exists. */
    var viewAttached: bool
    var shutterEnabled: bool
    /** (width, height) of the bitmap last put on the overlay, if any. */
    var overlaySize: Option<(int, int)>
    /** How many camera images have been closed. */
    var closedImages: nat

    /** No buffer released twice; a live recorder only while recording, writing to `videoFile`. */
    ghost predicate Valid()
      reads this, heap
    {
      && heap.Valid()
      && (videoRecorder.Some? ==> isRecording && videoFile == Some(videoRecorder.value.file))
    }

    constructor ()
      ensures Valid() && fresh(heap) && heap.released == []
      ensures !isRecording && videoRecorder.None? && videoFile.None?
      ensures stoppedRecorders == [] && galleryVideos == [] && viewAttached && closedImages == 0
    {
      heap := new MatHeap();
      isRecording, videoRecorder, videoFile := false, None, None;
      stoppedRecorders, galleryVideos := [], [];
      viewAttached, shutterEnabled, overlaySize, closedImages := true, false, None, 0;
    }

    /**
     * `saveVideoToGallery`: without a gallery entry nothing happens; otherwise the
     * temp file is deleted and forgotten, whether or not its bytes were copied.
     */
    method SaveVideoToGallery(file: string, outcome: GalleryOutcome)
      requires Valid() && videoRecorder.None?
      modifies this
      ensures Valid()
      ensures videoFile == if outcome == InsertFailed then old(videoFile) else None
      ensures galleryVideos == old(galleryVideos) + (if outcome == Saved then [file] else [])
      ensures isRecording == old(isRecording) && videoRecorder == old(videoRecorder)
      ensures stoppedRecorders == old(stoppedRecorders) && viewAttached == old(viewAttached)
      ensures shutterEnabled == old(shutterEnabled) && overlaySize == old(overlaySize)
      ensures closedImages == old(closedImages)
    {
      if outcome != InsertFailed {
        if outcome == Saved {
          galleryVideos := galleryVideos + [file];
        }
        videoFile := None;
      }
    }

    /**
     * `toggleRecording`. Turning recording on creates nothing: the recorder is made
     * by the next analyzed frame. Turning it off stops the recorder, drops it and
     * hands the temp file to the gallery.
     */
    method ToggleRecording(gallery: GalleryOutcome)
      requires Valid()
      modifies this
      ensures Valid()
      ensures isRecording == !old(isRecording)
      ensures isRecording ==> videoRecorder == old(videoRecorder) && videoFile == old(videoFile)
                               && stoppedRecorders == old(stoppedRecorders) && galleryVideos == old(galleryVideos)
      ensures !isRecording ==> videoRecorder.None?
      ensures !isRecording ==> stoppedRecorders == old(stoppedRecorders)
                                 + (if old(videoRecorder).Some? then [old(videoRecorder).value] else [])
      ensures !isRecording && old(videoFile).None? ==> videoFile.None? && galleryVideos == old(galleryVideos)
      ensures !isRecording && old(videoFile).Some? ==>
        && videoFile == (if gallery == InsertFailed then old(videoFile) else None)
        && galleryVideos == old(galleryVideos) + (if gallery == Saved then [old(videoFile).value] else [])
      ensures viewAttached == old(viewAttached) && shutterEnabled == old(shutterEnabled)
      ensures overlaySize == old(overlaySize) && closedImages == old(closedImages)
    {
      isRecording := !isRecording;
      if !isRecording {
        if videoRecorder.Some? {
          stoppedRecorders := stoppedRecorders + [videoRecorder.value];
        }
        videoRecorder := None;
        if videoFile.Some? {
          SaveVideoToGallery(videoFile.value, gallery);
        }
      }
    }

    /** `onDestroyView`: stops a live recorder (without dropping it) and detaches the view. */
    method OnDestroyView()
      requires Valid()
      modifies this
      ensures Valid()
      ensures stoppedRecorders == old(stoppedRecorders) + (if videoRecorder.Some? then [videoRecorder.value] else [])
      ensures !viewAttached
      ensures isRecording == old(isRecording) && videoRecorder == old(videoRecorder) && videoFile == old(videoFile)
      ensures galleryVideos == old(galleryVideos) && shutterEnabled == old(shutterEnabled)
      ensures overlaySize == old(overlaySize) && closedImages == old(closedImages)
    {
      if videoRecorder.Some? {
        stoppedRecorders := stoppedRecorders + [videoRecorder.value];
      }
      viewAttached := false;
    }

    /**
     * The image analyzer, for one camera image. `active` is the view model's ordered
     * processor list, each entry standing for what that processor's display call does.
     * When the image converts, every `Mat` made while handling it is released exactly
     * once, the rotated frame last, and the image is closed, even when a stage throws or
     * `matToBitmap` throws on an empty display `Mat`. When `imageProxyToMat` throws,
     * which happens before the `try`, the image is not closed, its two buffers are
     * never released and nothing else changes.
     */
    method AnalyzeFrame(image: CameraImage, active: Option<seq<StageCall>>, timestamp: string)
      returns (rotated: MatRef, display: MatRef, threw: bool)
      requires Valid()
      modifies this, heap
      ensures Valid()
      // a conversion that throws
      ensures !Converts(image) ==>
                && threw
                && closedImages == old(closedImages)
                && heap.released == old(heap.released)
                && heap.FrameInv(old(heap.nextId), {old(heap.nextId), old(heap.nextId) + 1})
      // buffers
      ensures Converts(image) ==> heap.FrameInv(old(heap.nextId), {})
      ensures Converts(image) ==> |heap.released| > |old(heap.released)|
      ensures heap.released[..|old(heap.released)|] == old(heap.released)
      ensures Converts(image) ==> heap.released[|heap.released| - 1] == rotated.id
      ensures Converts(image) ==> closedImages == old(closedImages) + 1
      // orientation and chain
      ensures Converts(image) && image.rotationDegrees == 0 ==> (rotated.rows, rotated.cols) == (image.height, image.width)
      ensures Converts(image) && image.rotationDegrees != 0 ==>
                (rotated.rows, rotated.cols) == RotatedSize(image.rotationDegrees, image.height, image.width)
      ensures Converts(image) ==>
                (threw <==> |Ran(ActiveCalls(active))| < |ActiveCalls(active)| || !BitmapConvertible(display))
      ensures image.rotationDegrees !in {0, 90, 180, 270} ==> threw
      ensures Converts(image) ==> display.rows == rotated.rows && display.cols == rotated.cols
      ensures Converts(image) ==> (display.id == rotated.id <==> FreshCount(Ran(ActiveCalls(active))) == 0)
      // shutter and overlay
      ensures !threw && viewAttached ==>
                shutterEnabled == AllOk(Ran(ActiveCalls(active))) && overlaySize == Some((display.cols, display.rows))
      ensures threw || !viewAttached ==> shutterEnabled == old(shutterEnabled) && overlaySize == old(overlaySize)
      // recording
      ensures !threw && isRecording && old(videoRecorder).None? ==>
                && videoRecorder == Some(Recorder(display.cols, display.rows, TempVideoNameAsWritten(timestamp), 1))
                && videoFile == Some(TempVideoNameAsWritten(timestamp))
      ensures !threw && isRecording && old(videoRecorder).Some? ==>
                && videoRecorder == Some(old(videoRecorder).value.(framesDrawn := old(videoRecorder).value.framesDrawn + 1))
                && videoFile == old(videoFile)
      ensures threw || !isRecording ==> videoRecorder == old(videoRecorder) && videoFile == old(videoFile)
      ensures isRecording == old(isRecording) && viewAttached == old(viewAttached)
      ensures stoppedRecorders == old(stoppedRecorders) && galleryVideos == old(galleryVideos)
    {
      ghost var n0 := heap.nextId;
      var allStatusesOk: bool;
      var stageThrew, converted: bool;
      rotated, display, allStatusesOk, stageThrew, converted := RenderFrame(heap, image, ActiveCalls(active));
      if !converted {
        return rotated, display, true;
      }
      threw := stageThrew || !BitmapConvertible(display);
      if !threw {
        // displayBitmap = matToBitmap(displayMat): width = cols, height = rows
        if isRecording {
          RecordFrame(display.cols, display.rows, timestamp);
        }
        if viewAttached {
          shutterEnabled := allStatusesOk;
          overlaySize := Some((display.cols, display.rows));
        }
      }
      ReleaseFrame(heap, rotated, display, n0);
      closedImages := closedImages + 1;
    }

    /**
     * The recording hook of the analyzer: the first frame after recording was turned
     * on creates the recorder at that frame's size and names its temp file as the
     * source spells it, the same name for every recording; every
     * frame, that one included, is drawn into the recorder.
     */
    method RecordFrame(width: int, height: int, timestamp: string)
      requires Valid() && isRecording
      modifies this
      ensures Valid()
      ensures old(videoRecorder).None? ==>
                && videoRecorder == Some(Recorder(width, height, TempVideoNameAsWritten(timestamp), 1))
                && videoFile == Some(TempVideoNameAsWritten(timestamp))
      ensures old(videoRecorder).Some? ==>
                && videoRecorder == Some(old(videoRecorder).value.(framesDrawn := old(videoRecorder).value.framesDrawn + 1))
                && videoFile == old(videoFile)
      ensures isRecording == old(isRecording) && viewAttached == old(viewAttached)
      ensures stoppedRecorders == old(stoppedRecorders) && galleryVideos == old(galleryVideos)
      ensures shutterEnabled == old(shutterEnabled) && overlaySize == old(overlaySize)
      ensures closedImages == old(closedImages)
    {
      if videoRecorder.None? {
        videoFile := Some(TempVideoNameAsWritten(timestamp));
        videoRecorder := Some(Recorder(width, height, videoFile.value, 0));
      }
      videoRecorder := Some(videoRecorder.value.(framesDrawn := videoRecorder.value.framesDrawn + 1));
    }
  }
}
