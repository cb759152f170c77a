/** The base collections the adaptors wrap.

    A base is a random-access (or bidirectional) collection of unsigned integers whose
    indices are the integers `start .. start + count`, so a slice whose indices do not
    begin at zero is a base too. Its operations check the preconditions the Swift
    collection protocols document and trap when they are violated. */
module Collections {
  import opened Wrappers
  import opened UnsignedIntegers

  /** A read-only buffer as `withExistingUnsafeBuffer` hands it out: its elements and
      the element type it is typed with. */
  datatype Buffer = Buffer(elementType: UIntType, elems: seq<nat>)

  /** `$0 as Any as? UnsafeBufferPointer<t>`: succeeds exactly when the buffer is
      already typed with `t`. */
  function CastBuffer(buf: Buffer, t: UIntType): Option<Buffer> {
    if buf.elementType == t then Some(buf) else None
  }

  datatype Base = Base(elementType: UIntType, elems: seq<nat>, start: int, contiguous: bool) {

    /** Every element is a value of the element type. */
    predicate Valid() {
      forall k | 0 <= k < |elems| :: Fits(elems[k], elementType)
    }

    function Count(): nat {
      |elems|
    }

    function StartIndex(): int {
      start
    }

    function EndIndex(): int {
      start + |elems|
    }

    /** `index(atOffset:)`: the index `k` positions after `startIndex`. */
    function IndexAtOffset(k: int): Result<int> {
      if 0 <= k <= Count() then Ok(start + k) else Trap(IndexOutOfRange)
    }

    /** `offset(of:)`: the distance from `startIndex` to a valid index. */
    function OffsetOf(j: int): Result<int> {
      if start <= j <= EndIndex() then Ok(j - start) else Trap(IndexOutOfRange)
    }

    function IndexAfter(j: int): Result<int> {
      if start <= j < EndIndex() then Ok(j + 1) else Trap(IndexOutOfRange)
    }

    function IndexBefore(j: int): Result<int> {
      if start < j <= EndIndex() then Ok(j - 1) else Trap(IndexOutOfRange)
    }

    /** `index(_:offsetBy:)`: both the index and the result must lie in bounds. */
    function IndexOffsetBy(j: int, n: int): Result<int> {
      if start <= j <= EndIndex() && start <= j + n <= EndIndex() then Ok(j + n)
      else Trap(IndexOutOfRange)
    }

    function Subscript(j: int): Result<nat> {
      if start <= j < EndIndex() then Ok(elems[j - start]) else Trap(IndexOutOfRange)
    }

    /** Calls `body` on the base's own storage when it is contiguous; never copies. */
    function WithExistingUnsafeBuffer<R>(body: Buffer -> R): Option<R> {
      if contiguous then Some(body(Buffer(elementType, elems))) else None
    }
  }
}
