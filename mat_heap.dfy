/**
 * OpenCV `Mat` buffers as the camera pipelines see them: an object identity
 * (compared with Kotlin's `===` / `!==`) and a size. Pixel content is not modelled.
 * `MatHeap` hands out fresh identities and records every `release()` call in order,
 * so that "released twice" and "never released" become statements about the log.
 */
module Mats {
  import opened Common

  /** A reference to one `Mat` object: its identity and its size. */
  datatype MatRef = MatRef(id: nat, rows: int, cols: int)

  /** An empty `Mat()` of the given identity, before anything is written into it. */
  function EmptyMat(id: nat): MatRef { MatRef(id, 0, 0) }

  /**
   * `matToBitmap` succeeds: `Bitmap.createBitmap(cols, rows, ARGB_8888)` throws
   * unless both sides are positive.
   */
  predicate BitmapConvertible(m: MatRef) { m.rows > 0 && m.cols > 0 }

  class MatHeap {
    /** Identity the next `Mat()` / `clone()` gets; every identity below it exists. */
    var nextId: nat
    /** Every `release()` call so far, in call order. */
    var released: seq<nat>

    /** No buffer was released twice and only existing buffers were released. */
    ghost predicate Valid()
      reads this
    {
      NoDuplicates(released) && forall i :: 0 <= i < |released| ==> released[i] < nextId
    }

    /**
     * Bookkeeping for one frame whose first buffer got identity `n0`: exactly the
     * buffers in `live` are allocated during the frame and not yet released.
     */
    ghost predicate FrameInv(n0: nat, live: set<nat>)
      reads this
    {
      && Valid()
      && n0 <= nextId
      && (forall id :: id in live ==> n0 <= id < nextId)
      && (forall id :: n0 <= id < nextId ==> (id in released <==> id !in live))
    }

    constructor ()
      ensures Valid() && nextId == 0 && released == []
    {
      nextId := 0;
      released := [];
    }

    /** `Mat(rows, cols, type)`, `Mat()` (0 x 0) or `m.clone()`: a new buffer object. */
    method Alloc(rows: int, cols: int) returns (m: MatRef)
      modifies this
      ensures m == MatRef(old(nextId), rows, cols)
      ensures nextId == old(nextId) + 1 && released == old(released)
    {
      m := MatRef(nextId, rows, cols);
      nextId := nextId + 1;
    }

    /** `m.release()` */
    method Release(m: MatRef)
      modifies this
      ensures released == old(released) + [m.id] && nextId == old(nextId)
    {
      released := released + [m.id];
    }
  }
}
