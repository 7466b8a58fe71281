/**
 * `imageProxyToMat`, identical in both camera screens: the Y, V and U planes of a
 * camera image are copied into one NV21 byte array, wrapped in a single-channel
 * YUV `Mat` of height * 3/2 rows, and converted to a new RGBA `Mat`.
 */
module Ingest {
  import opened Common
  import opened Mats

  /** One camera frame as the analyzer receives it: size, rotation hint and plane bytes. */
  datatype CameraImage = CameraImage(
    width: nat, height: nat, rotationDegrees: int,
    yPlane: seq<uint8>, uPlane: seq<uint8>, vPlane: seq<uint8>)

  /** Rows of the NV21 matrix: the luma rows plus half as many chroma rows (integer division). */
  function YuvRows(height: nat): (rows: nat)
    ensures 2 * rows <= 3 * height && 3 * height <= 2 * rows + 1
  {
    height + height / 2
  }

  /** `buffer.get(dst, offset, src.size)`: copies `src` into `dst` from `offset` on. */
  method BufferGet(src: seq<uint8>, dst: array<uint8>, offset: nat)
    requires offset + |src| <= dst.Length
    modifies dst
    ensures dst[offset..offset + |src|] == src
    ensures dst[..offset] == old(dst[..offset])
    ensures dst[offset + |src|..] == old(dst[offset + |src|..])
  {
    var i := 0;
    while i < |src|
      invariant 0 <= i <= |src|
      invariant dst[offset..offset + i] == src[..i]
      invariant dst[..offset] == old(dst[..offset])
      invariant dst[offset + |src|..] == old(dst[offset + |src|..])
    {
      dst[offset + i] := src[i];
      i := i + 1;
    }
  }

  /** The NV21 array: Y bytes first, then V, then U, and nothing else. */
  method AssembleNv21(y: seq<uint8>, u: seq<uint8>, v: seq<uint8>) returns (nv21: array<uint8>)
    ensures nv21.Length == |y| + |u| + |v|
    ensures nv21[..] == y + v + u
  {
    nv21 := new uint8[|y| + |u| + |v|];
    BufferGet(y, nv21, 0);
    BufferGet(v, nv21, |y|);
    assert nv21[..|y|] == y;
    BufferGet(u, nv21, |y| + |v|);
    assert nv21[..|y|] == y;
    assert nv21[|y|..|y| + |v|] == v;
    assert nv21[..] == nv21[..|y|] + nv21[|y|..|y| + |v|] + nv21[|y| + |v|..];
  }

  /**
   * What `cvtColor(src, dst, COLOR_YUV2RGBA_NV21)` accepts of its single-channel source:
   * a non-empty matrix whose width is even and whose row count is a multiple of 3.
   * Anything else fails an OpenCV assertion, which Java sees as a `CvException`.
   */
  predicate YuvConvertible(rows: nat, cols: nat) {
    rows > 0 && cols > 0 && cols % 2 == 0 && rows % 3 == 0
  }

  /** The image's NV21 matrix can be converted. */
  predicate Converts(image: CameraImage) {
    YuvConvertible(YuvRows(image.height), image.width)
  }

  /** Conversion succeeds exactly for a non-empty image of even width and even height. */
  lemma ConvertsIff(image: CameraImage)
    ensures Converts(image) <==>
              image.width > 0 && image.height > 0 && image.width % 2 == 0 && image.height % 2 == 0
  {
  }

  /**
   * `imageProxyToMat`: allocates the YUV matrix and an empty RGBA `Mat()`, then
   * converts. On success the RGBA frame has the image's width and height and the YUV
   * matrix is released. When `cvtColor` throws, both matrices stay allocated and the
   * exception leaves the function: `converted` is false.
   */
  method ImageProxyToMat(heap: MatHeap, image: CameraImage, ghost n0: nat, ghost live: set<nat>)
    returns (rgba: MatRef, nv21: array<uint8>, converted: bool)
    requires heap.FrameInv(n0, live)
    modifies heap
    ensures nv21[..] == image.yPlane + image.vPlane + image.uPlane
    ensures converted <==> Converts(image)
    ensures heap.nextId == old(heap.nextId) + 2
    ensures converted ==>
              && rgba == MatRef(old(heap.nextId) + 1, image.height, image.width)
              && heap.released == old(heap.released) + [old(heap.nextId)]
              && heap.FrameInv(n0, live + {rgba.id})
    ensures !converted ==>
              && rgba == EmptyMat(old(heap.nextId) + 1)
              && heap.released == old(heap.released)
              && heap.FrameInv(n0, live + {old(heap.nextId), rgba.id})
  {
    nv21 := AssembleNv21(image.yPlane, image.uPlane, image.vPlane);
    var yuvImage := heap.Alloc(YuvRows(image.height), image.width);
    rgba := heap.Alloc(0, 0);
    converted := YuvConvertible(yuvImage.rows, yuvImage.cols);
    if converted {
      // cvtColor(COLOR_YUV2RGBA_NV21) gives the RGBA Mat two thirds of the YUV rows
      rgba := rgba.(rows := image.height, cols := image.width);
      heap.Release(yuvImage);
    }
  }
}
