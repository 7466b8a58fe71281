/** Small shared vocabulary: optional values, bytes and integer ranges. */
module Common {

  /** Kotlin's nullable value `T?`. */
  datatype Option<+T> = None | Some(value: T) {
    /** `x ?: default` */
    function GetOr(default: T): T {
      match this
      case Some(v) => v
      case None => default
    }
  }

  /** A Java/Kotlin `Byte` as stored in a `ByteArray` (the bit pattern, 0..255). */
  newtype uint8 = x: int | 0 <= x < 256

  /** The ids `lo, lo + 1, ..., hi - 1`, in increasing order. */
  function Range(lo: nat, hi: nat): (r: seq<nat>)
    ensures |r| == if lo <= hi then hi - lo else 0
    ensures forall i :: 0 <= i < |r| ==> r[i] == lo + i
    decreases hi - lo
  {
    if lo < hi then [lo] + Range(lo + 1, hi) else []
  }

  /** No element occurs twice. */
  ghost predicate NoDuplicates<T>(s: seq<T>) {
    forall i, j :: 0 <= i < j < |s| ==> s[i] != s[j]
  }
}
