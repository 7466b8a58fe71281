/**
 * The MPdetector camera screen (`CameraFragment`): the per-frame analyzer. It differs
 * from the AnyAICam one in its rotation step (only 90, 180 and 270 rotate, straight
 * into a new buffer) and has no recording hook.
 */
module MPdetectorCamera {
  import opened Common
  import opened Mats
  import opened ProcessorChain
  import opened Ingest

  /** Whether the rotation hint is one of the three the analyzer rotates for. */
  predicate Rotates(rotation: int) {
    rotation == 90 || rotation == 180 || rotation == 270
  }

  /**
   * The rotation step: 90, 180 and 270 rotate into a new `Mat` and release the
   * converted frame; any other value, 0 included, keeps the converted frame.
   */
  method NormalizeRotation(heap: MatHeap, frame: MatRef, rotation: int, ghost n0: nat, ghost live: set<nat>)
    returns (rotated: MatRef)
    requires heap.FrameInv(n0, live) && frame.id in live
    modifies heap
    ensures rotated.id != frame.id <==> Rotates(rotation)
    ensures !Rotates(rotation) ==> rotated == frame && heap.nextId == old(heap.nextId) && heap.released == old(heap.released)
    ensures Rotates(rotation) ==>
      && rotated.id == old(heap.nextId)
      && heap.nextId == old(heap.nextId) + 1
      && heap.released == old(heap.released) + [frame.id]
    ensures rotation == 90 || rotation == 270 ==> rotated.rows == frame.cols && rotated.cols == frame.rows
    ensures rotation != 90 && rotation != 270 ==> rotated.rows == frame.rows && rotated.cols == frame.cols
    ensures heap.FrameInv(n0, live - {frame.id} + {rotated.id})
  {
    if rotation == 90 || rotation == 270 {
      rotated := heap.Alloc(frame.cols, frame.rows);
    } else if rotation == 180 {
      rotated := heap.Alloc(frame.rows, frame.cols);
    } else {
      rotated := frame;
    }
    if rotated.id != frame.id {
      heap.Release(frame);
    }
  }

  /**
   * The first steps of the analyzer: the camera image becomes an RGBA `Mat`, rotated
   * into a new buffer for 90, 180 and 270. Only the returned buffer is live afterwards.
   * When the conversion throws (`converted` is false), nothing is rotated and the two
   * buffers of `imageProxyToMat` stay live.
   */
  method PrepareFrame(heap: MatHeap, image: CameraImage) returns (rotated: MatRef, converted: bool)
    requires heap.Valid()
    modifies heap
    ensures converted <==> Converts(image)
    ensures !converted ==>
              heap.released == old(heap.released) && heap.FrameInv(old(heap.nextId), {old(heap.nextId), old(heap.nextId) + 1})
    ensures converted && (image.rotationDegrees == 90 || image.rotationDegrees == 270) ==>
              rotated.rows == image.width && rotated.cols == image.height
    ensures converted && image.rotationDegrees != 90 && image.rotationDegrees != 270 ==>
              rotated.rows == image.height && rotated.cols == image.width
    ensures converted ==> |heap.released| > |old(heap.released)|
    ensures heap.released[..|old(heap.released)|] == old(heap.released)
    ensures converted ==> heap.FrameInv(old(heap.nextId), {rotated.id})
  {
    ghost var n0 := heap.nextId;
    var frameMat, nv21;
    frameMat, nv21, converted := ImageProxyToMat(heap, image, n0, {});
    rotated := frameMat;
    if converted {
      rotated := NormalizeRotation(heap, frameMat, image.rotationDegrees, n0, {frameMat.id});
      assert {frameMat.id} - {frameMat.id} + {rotated.id} == {rotated.id};
    }
  }

  /**
   * The analyzer up to its `finally`, on buffers: convert, rotate, then run the
   * processor chain. Exactly the rotated frame and the displayed buffer are live.
   * When the conversion throws (`converted` is false) nothing is rotated, no stage
   * runs, `threw` is false, and the two buffers of `imageProxyToMat` stay live.
   */
  method RenderFrame(heap: MatHeap, image: CameraImage, calls: seq<StageCall>)
    returns (rotated: MatRef, display: MatRef, allOk: bool, threw: bool, converted: bool)
    requires heap.Valid()
    modifies heap
    ensures converted <==> Converts(image)
    ensures !converted ==>
              && !threw
              && heap.released == old(heap.released)
              && heap.FrameInv(old(heap.nextId), {old(heap.nextId), old(heap.nextId) + 1})
    ensures converted && (image.rotationDegrees == 90 || image.rotationDegrees == 270) ==>
              rotated.rows == image.width && rotated.cols == image.height
    ensures converted && image.rotationDegrees != 90 && image.rotationDegrees != 270 ==>
              rotated.rows == image.height && rotated.cols == image.width
    ensures converted ==> (threw <==> |Ran(calls)| < |calls|)
    ensures converted ==> allOk == AllOk(Ran(calls))
    ensures converted ==> display.rows == rotated.rows && display.cols == rotated.cols
    ensures converted ==> (display.id == rotated.id <==> FreshCount(Ran(calls)) == 0)
    ensures converted ==> |heap.released| > |old(heap.released)|
    ensures heap.released[..|old(heap.released)|] == old(heap.released)
    ensures converted ==> heap.FrameInv(old(heap.nextId), {rotated.id, display.id})
  {
    ghost var n0 := heap.nextId;
    rotated, converted := PrepareFrame(heap, image);
    display, allOk, threw := rotated, true, false;
    if converted {
      ghost var mid := heap.released;
      display, allOk, threw := RunChain(heap, rotated, calls, n0);
      assert heap.released[..|mid|] == mid;
    }
  }

  class CameraFragment {
    const heap: MatHeap
    /** `_binding != null`: the view still exists. */
    var viewAttached: bool
    var shutterEnabled: bool
    /** (width, height) of the bitmap last put on the overlay, if any. */
    var overlaySize: Option<(int, int)>
    /** How many camera images have been closed. */
    var closedImages: nat

    ghost predicate Valid()
      reads this, heap
    {
      heap.Valid()
    }

    constructor ()
      ensures Valid() && fresh(heap) && heap.released == []
      ensures viewAttached && closedImages == 0
    {
      heap := new MatHeap();
      viewAttached, shutterEnabled, overlaySize, closedImages := true, false, None, 0;
    }

    /** `onDestroyView`: the view is gone; later frames no longer touch it. */
    method OnDestroyView()
      requires Valid()
      modifies this
      ensures Valid() && !viewAttached
      ensures shutterEnabled == old(shutterEnabled) && overlaySize == old(overlaySize)
      ensures closedImages == old(closedImages)
    {
      viewAttached := false;
    }

    /**
     * The image analyzer, for one camera image and the view model's ordered list of
     * active processors (null or empty: no stage runs). When the image converts, every
     * `Mat` made for it is released exactly once, the rotated frame last, and the image
     * is closed, even when a stage throws or `matToBitmap` throws on an empty display
     * `Mat`. When `imageProxyToMat` throws, which happens before the `try`, the image is
     * not closed, its two buffers are never released and nothing else changes.
     */
    method AnalyzeFrame(image: CameraImage, active: Option<seq<StageCall>>)
      returns (rotated: MatRef, display: MatRef, threw: bool)
      requires Valid()
      modifies this, heap
      ensures Valid()
      // a conversion that throws
      ensures !Converts(image) ==>
                && threw
                && closedImages == old(closedImages)
                && heap.released == old(heap.released)
                && heap.FrameInv(old(heap.nextId), {old(heap.nextId), old(heap.nextId) + 1})
      // buffers
      ensures Converts(image) ==> heap.FrameInv(old(heap.nextId), {})
      ensures Converts(image) ==> |heap.released| > |old(heap.released)|
      ensures heap.released[..|old(heap.released)|] == old(heap.released)
      ensures Converts(image) ==> heap.released[|heap.released| - 1] == rotated.id
      ensures Converts(image) ==> closedImages == old(closedImages) + 1
      // chain
      ensures var calls := if active.None? then [] else active.value;
              && (Converts(image) ==> (threw <==> |Ran(calls)| < |calls| || !BitmapConvertible(display)))
              && (Converts(image) ==> (display.id == rotated.id <==> FreshCount(Ran(calls)) == 0))
              && (!threw && viewAttached ==> shutterEnabled == AllOk(Ran(calls)))
      ensures Converts(image) ==> display.rows == rotated.rows && display.cols == rotated.cols
      ensures !threw && viewAttached ==> overlaySize == Some((display.cols, display.rows))
      ensures threw || !viewAttached ==> shutterEnabled == old(shutterEnabled) && overlaySize == old(overlaySize)
      ensures viewAttached == old(viewAttached)
    {
      ghost var n0 := heap.nextId;
      var allStatusesOk: bool;
      var calls := if active.None? then [] else active.value;
      var stageThrew, converted: bool;
      rotated, display, allStatusesOk, stageThrew, converted := RenderFrame(heap, image, calls);
      if !converted {
        return rotated, display, true;
      }
      threw := stageThrew || !BitmapConvertible(display);
      if !threw {
        if viewAttached {
          shutterEnabled := allStatusesOk;
          overlaySize := Some((display.cols, display.rows));
        }
      }
      ReleaseFrame(heap, rotated, display, n0);
      closedImages := closedImages + 1;
    }
  }
}
