/** The four adaptors that present a base collection of unsigned integers through an
    erased view's interface: `AnyCodeUnitsZeroExtender` (offset indices, 32-bit
    elements), `AnyUTF16ZeroExtender` (`UnicodeIndex`, 16-bit elements),
    `AnyUnicodeBidirectionalUInt32ZeroExtender` (`UnicodeIndex`, 32-bit elements) and
    `AnyRandomAccessUnsignedIntegers` (offset indices, elements of any chosen type).

    Each operation is the shared offset logic of `OffsetAdaptor` at the adaptor's
    element type, with offsets wrapped in `UnicodeIndex` where the adaptor uses it. */
module ZeroExtenders {
  import opened Wrappers
  import opened UnsignedIntegers
  import opened Collections
  import opened UnicodeIndices
  import opened OffsetAdaptor

  /** `AnyCodeUnitsZeroExtender`. */
  datatype CodeUnitsZeroExtender = CodeUnitsZeroExtender(base: Base) {

    function StartIndex(): (r: int)
      ensures IsStart(base, r)
    {
      StartOffset(base)
    }

    function EndIndex(): (r: int)
      ensures IsEnd(base, r)
    {
      EndOffset(base)
    }

    function IndexAfter(i: int): (r: Result<int>)
      ensures IsAfter(base, i, r)
    {
      After(base, i)
    }

    function IndexBefore(i: int): (r: Result<int>)
      ensures IsBefore(base, i, r)
    {
      Before(base, i)
    }

    function IndexOffsetBy(i: int, n: int): (r: Result<int>)
      ensures IsOffsetBy(base, i, n, r)
    {
      OffsetBy(base, i, n)
    }

    function Element(i: int): (r: Result<nat>)
      ensures IsElement(base, UInt32, i, r)
    {
      OffsetAdaptor.Element(base, UInt32, i)
    }

    function ExistingBuffer<R>(body: Buffer -> R): (r: Option<R>)
      ensures IsExistingBuffer(base, UInt32, body, r)
    {
      OffsetAdaptor.ExistingBuffer(base, UInt32, body)
    }
  }

  /** `AnyUTF16ZeroExtender`. */
  datatype UTF16ZeroExtender = UTF16ZeroExtender(base: Base) {

    function StartIndex(): (r: UnicodeIndex)
      ensures IsStart(base, r.offset)
    {
      UnicodeIndex(StartOffset(base))
    }

    function EndIndex(): (r: UnicodeIndex)
      ensures IsEnd(base, r.offset)
    {
      UnicodeIndex(EndOffset(base))
    }

    function IndexAfter(i: UnicodeIndex): (r: Result<UnicodeIndex>)
      ensures IsAfter(base, i.offset, Offsets(r))
    {
      var k :- After(base, i.offset);
      Ok(UnicodeIndex(k))
    }

    function IndexBefore(i: UnicodeIndex): (r: Result<UnicodeIndex>)
      ensures IsBefore(base, i.offset, Offsets(r))
    {
      var k :- Before(base, i.offset);
      Ok(UnicodeIndex(k))
    }

    function IndexOffsetBy(i: UnicodeIndex, n: int): (r: Result<UnicodeIndex>)
      ensures IsOffsetBy(base, i.offset, n, Offsets(r))
    {
      var k :- OffsetBy(base, i.offset, n);
      Ok(UnicodeIndex(k))
    }

    function Element(i: UnicodeIndex): (r: Result<nat>)
      ensures IsElement(base, UInt16, i.offset, r)
    {
      OffsetAdaptor.Element(base, UInt16, i.offset)
    }

    function ExistingBuffer<R>(body: Buffer -> R): (r: Option<R>)
      ensures IsExistingBuffer(base, UInt16, body, r)
    {
      OffsetAdaptor.ExistingBuffer(base, UInt16, body)
    }
  }

  /** `AnyUnicodeBidirectionalUInt32ZeroExtender`. */
  datatype UInt32ZeroExtender = UInt32ZeroExtender(base: Base) {

    function StartIndex(): (r: UnicodeIndex)
      ensures IsStart(base, r.offset)
    {
      UnicodeIndex(StartOffset(base))
    }

    function EndIndex(): (r: UnicodeIndex)
      ensures IsEnd(base, r.offset)
    {
      UnicodeIndex(EndOffset(base))
    }

    function IndexAfter(i: UnicodeIndex): (r: Result<UnicodeIndex>)
      ensures IsAfter(base, i.offset, Offsets(r))
    {
      var k :- After(base, i.offset);
      Ok(UnicodeIndex(k))
    }

    function IndexBefore(i: UnicodeIndex): (r: Result<UnicodeIndex>)
      ensures IsBefore(base, i.offset, Offsets(r))
    {
      var k :- Before(base, i.offset);
      Ok(UnicodeIndex(k))
    }

    function IndexOffsetBy(i: UnicodeIndex, n: int): (r: Result<UnicodeIndex>)
      ensures IsOffsetBy(base, i.offset, n, Offsets(r))
    {
      var k :- OffsetBy(base, i.offset, n);
      Ok(UnicodeIndex(k))
    }

    function Element(i: UnicodeIndex): (r: Result<nat>)
      ensures IsElement(base, UInt32, i.offset, r)
    {
      OffsetAdaptor.Element(base, UInt32, i.offset)
    }

    function ExistingBuffer<R>(body: Buffer -> R): (r: Option<R>)
      ensures IsExistingBuffer(base, UInt32, body, r)
    {
      OffsetAdaptor.ExistingBuffer(base, UInt32, body)
    }
  }

  /** `AnyRandomAccessUnsignedIntegers`: the base's elements cast to `target`. */
  datatype RandomAccessUnsignedIntegers = RandomAccessUnsignedIntegers(base: Base, target: UIntType) {

    function StartIndex(): (r: int)
      ensures IsStart(base, r)
    {
      StartOffset(base)
    }

    function EndIndex(): (r: int)
      ensures IsEnd(base, r)
    {
      EndOffset(base)
    }

    function IndexAfter(i: int): (r: Result<int>)
      ensures IsAfter(base, i, r)
    {
      After(base, i)
    }

    function IndexBefore(i: int): (r: Result<int>)
      ensures IsBefore(base, i, r)
    {
      Before(base, i)
    }

    function IndexOffsetBy(i: int, n: int): (r: Result<int>)
      ensures IsOffsetBy(base, i, n, r)
    {
      OffsetBy(base, i, n)
    }

    function Element(i: int): (r: Result<nat>)
      ensures IsElement(base, target, i, r)
    {
      OffsetAdaptor.Element(base, target, i)
    }

    function ExistingBuffer<R>(body: Buffer -> R): (r: Option<R>)
      ensures IsExistingBuffer(base, target, body, r)
    {
      OffsetAdaptor.ExistingBuffer(base, target, body)
    }
  }
}
