/** The erased views: `AnyCodeUnits`, `AnyUTF16`, `AnyUnicodeBidirectionalUInt32` and
    `AnyCharacters`.

    Each erased protocol (`AnyCodeUnits_`, ...) is modelled as a datatype whose cases
    are the types that conform to it: the zero-extending adaptor, and the erased
    wrapper struct itself, which holds any conforming value as its `base` and forwards
    to it. A value is therefore a stack of wrappers over one adaptor, and `Storage()`
    is the base collection at the bottom of the stack. */
module ErasedViews {
  import opened Wrappers
  import opened UnsignedIntegers
  import opened Collections
  import opened UnicodeIndices
  import opened OffsetAdaptor
  import opened ZeroExtenders

  // ---------------------------------------------------------------- AnyCodeUnits

  datatype CodeUnitsView =
    | CodeUnitsExtended(extender: CodeUnitsZeroExtender)
    | AnyCodeUnits(base: CodeUnitsView)
  {
    function Storage(): Base {
      match this
      case CodeUnitsExtended(z) => z.base
      case AnyCodeUnits(v) => v.Storage()
    }

    /** The adaptor at the bottom of the stack of wrappers. */
    function Extender(): (z: CodeUnitsZeroExtender)
      ensures z.base == Storage()
    {
      match this
      case CodeUnitsExtended(z) => z
      case AnyCodeUnits(v) => v.Extender()
    }

    function StartIndex(): (r: int)
      ensures IsStart(Storage(), r)
    {
      match this
      case CodeUnitsExtended(z) => z.StartIndex()
      case AnyCodeUnits(v) => v.StartIndex()
    }

    function EndIndex(): (r: int)
      ensures IsEnd(Storage(), r)
    {
      match this
      case CodeUnitsExtended(z) => z.EndIndex()
      case AnyCodeUnits(v) => v.EndIndex()
    }

    function IndexAfter(i: int): (r: Result<int>)
      ensures IsAfter(Storage(), i, r)
    {
      match this
      case CodeUnitsExtended(z) => z.IndexAfter(i)
      case AnyCodeUnits(v) => v.IndexAfter(i)
    }

    function IndexBefore(i: int): (r: Result<int>)
      ensures IsBefore(Storage(), i, r)
    {
      match this
      case CodeUnitsExtended(z) => z.IndexBefore(i)
      case AnyCodeUnits(v) => v.IndexBefore(i)
    }

    /** As written, the wrapper passes the index `i` where the distance `n` belongs, so
        any wrapped view moves by `i`, whatever `n` is. */
    function IndexOffsetBy(i: int, n: int): (r: Result<int>)
      ensures IsOffsetBy(Storage(), i, if CodeUnitsExtended? then n else i, r)
    {
      match this
      case CodeUnitsExtended(z) => z.IndexOffsetBy(i, n)
      case AnyCodeUnits(v) => v.IndexOffsetBy(i, i)
    }

    /** The wrapper's `index(_:offsetBy:)` forwarding the distance it was given. */
    function IndexOffsetByIntended(i: int, n: int): (r: Result<int>)
      ensures IsOffsetBy(Storage(), i, n, r)
    {
      match this
      case CodeUnitsExtended(z) => z.IndexOffsetBy(i, n)
      case AnyCodeUnits(v) => v.IndexOffsetByIntended(i, n)
    }

    function Element(i: int): (r: Result<nat>)
      ensures IsElement(Storage(), UInt32, i, r)
    {
      match this
      case CodeUnitsExtended(z) => z.Element(i)
      case AnyCodeUnits(v) => v.Element(i)
    }

    function ExistingBuffer<R>(body: Buffer -> R): (r: Option<R>)
      ensures IsExistingBuffer(Storage(), UInt32, body, r)
    {
      match this
      case CodeUnitsExtended(z) => z.ExistingBuffer(body)
      case AnyCodeUnits(v) => v.ExistingBuffer(body)
    }
  }

  // ---------------------------------------------------------------- AnyUTF16

  datatype UTF16View =
    | UTF16Extended(extender: UTF16ZeroExtender)
    | AnyUTF16(base: UTF16View)
  {
    function Storage(): Base {
      match this
      case UTF16Extended(z) => z.base
      case AnyUTF16(v) => v.Storage()
    }

    function Extender(): (z: UTF16ZeroExtender)
      ensures z.base == Storage()
    {
      match this
      case UTF16Extended(z) => z
      case AnyUTF16(v) => v.Extender()
    }

    function StartIndex(): (r: UnicodeIndex)
      ensures IsStart(Storage(), r.offset)
    {
      match this
      case UTF16Extended(z) => z.StartIndex()
      case AnyUTF16(v) => v.StartIndex()
    }

    function EndIndex(): (r: UnicodeIndex)
      ensures IsEnd(Storage(), r.offset)
    {
      match this
      case UTF16Extended(z) => z.EndIndex()
      case AnyUTF16(v) => v.EndIndex()
    }

    function IndexAfter(i: UnicodeIndex): (r: Result<UnicodeIndex>)
      ensures IsAfter(Storage(), i.offset, Offsets(r))
    {
      match this
      case UTF16Extended(z) => z.IndexAfter(i)
      case AnyUTF16(v) => v.IndexAfter(i)
    }

    function IndexBefore(i: UnicodeIndex): (r: Result<UnicodeIndex>)
      ensures IsBefore(Storage(), i.offset, Offsets(r))
    {
      match this
      case UTF16Extended(z) => z.IndexBefore(i)
      case AnyUTF16(v) => v.IndexBefore(i)
    }

    function Element(i: UnicodeIndex): (r: Result<nat>)
      ensures IsElement(Storage(), UInt16, i.offset, r)
    {
      match this
      case UTF16Extended(z) => z.Element(i)
      case AnyUTF16(v) => v.Element(i)
    }

    /** Forwarded as is: the wrapper does not re-check the buffer's type. */
    function ExistingBuffer<R>(body: Buffer -> R): (r: Option<R>)
      ensures IsExistingBuffer(Storage(), UInt16, body, r)
    {
      match this
      case UTF16Extended(z) => z.ExistingBuffer(body)
      case AnyUTF16(v) => v.ExistingBuffer(body)
    }
  }

  // ---------------------------------------------------------------- AnyUnicodeBidirectionalUInt32

  datatype UInt32View =
    | UInt32Extended(extender: UInt32ZeroExtender)
    | AnyUnicodeBidirectionalUInt32(base: UInt32View)
  {
    function Storage(): Base {
      match this
      case UInt32Extended(z) => z.base
      case AnyUnicodeBidirectionalUInt32(v) => v.Storage()
    }

    function Extender(): (z: UInt32ZeroExtender)
      ensures z.base == Storage()
    {
      match this
      case UInt32Extended(z) => z
      case AnyUnicodeBidirectionalUInt32(v) => v.Extender()
    }

    function StartIndex(): (r: UnicodeIndex)
      ensures IsStart(Storage(), r.offset)
    {
      match this
      case UInt32Extended(z) => z.StartIndex()
      case AnyUnicodeBidirectionalUInt32(v) => v.StartIndex()
    }

    function EndIndex(): (r: UnicodeIndex)
      ensures IsEnd(Storage(), r.offset)
    {
      match this
      case UInt32Extended(z) => z.EndIndex()
      case AnyUnicodeBidirectionalUInt32(v) => v.EndIndex()
    }

    function IndexAfter(i: UnicodeIndex): (r: Result<UnicodeIndex>)
      ensures IsAfter(Storage(), i.offset, Offsets(r))
    {
      match this
      case UInt32Extended(z) => z.IndexAfter(i)
      case AnyUnicodeBidirectionalUInt32(v) => v.IndexAfter(i)
    }

    function IndexBefore(i: UnicodeIndex): (r: Result<UnicodeIndex>)
      ensures IsBefore(Storage(), i.offset, Offsets(r))
    {
      match this
      case UInt32Extended(z) => z.IndexBefore(i)
      case AnyUnicodeBidirectionalUInt32(v) => v.IndexBefore(i)
    }

    function Element(i: UnicodeIndex): (r: Result<nat>)
      ensures IsElement(Storage(), UInt32, i.offset, r)
    {
      match this
      case UInt32Extended(z) => z.Element(i)
      case AnyUnicodeBidirectionalUInt32(v) => v.Element(i)
    }

    /** The wrapper casts the buffer its base hands out to a 32-bit buffer before
        calling `body`; every buffer a 32-bit view hands out already has that type, so
        the cast always succeeds and the result is the base's. */
    function ExistingBuffer<R>(body: Buffer -> R): (r: Option<R>)
      ensures IsExistingBuffer(Storage(), UInt32, body, r)
    {
      match this
      case UInt32Extended(z) => z.ExistingBuffer(body)
      case AnyUnicodeBidirectionalUInt32(v) =>
        Flatten(v.ExistingBuffer((buf: Buffer) => OptionMap(CastBuffer(buf, UInt32), body)))
    }
  }

  // ---------------------------------------------------------------- AnyCharacters

  /** A character view over elements of an opaque type `C`. `CharacterStorage` is a
      stand-in leaf indexed by consecutive offsets, one per character, with or without
      contiguous storage; what is taken from the code is the wrapper's forwarding. */
  datatype CharactersView<C> =
    | CharacterStorage(chars: seq<C>, contiguous: bool)
    | AnyCharacters(base: CharactersView<C>)
  {
    function Chars(): seq<C> {
      match this
      case CharacterStorage(cs, _) => cs
      case AnyCharacters(v) => v.Chars()
    }

    function Contiguous(): bool {
      match this
      case CharacterStorage(_, c) => c
      case AnyCharacters(v) => v.Contiguous()
    }

    function StartIndex(): (r: UnicodeIndex)
      ensures r.offset == 0
    {
      match this
      case CharacterStorage(_, _) => UnicodeIndex(0)
      case AnyCharacters(v) => v.StartIndex()
    }

    function EndIndex(): (r: UnicodeIndex)
      ensures r.offset == |Chars()|
    {
      match this
      case CharacterStorage(cs, _) => UnicodeIndex(|cs|)
      case AnyCharacters(v) => v.EndIndex()
    }

    function IndexAfter(i: UnicodeIndex): (r: Result<UnicodeIndex>)
      ensures r.Ok? <==> 0 <= i.offset < |Chars()|
      ensures r.Ok? ==> r.value == UnicodeIndex(i.offset + 1)
      ensures r.Trap? ==> r.fault == IndexOutOfRange
    {
      match this
      case CharacterStorage(cs, _) =>
        if 0 <= i.offset < |cs| then Ok(UnicodeIndex(i.offset + 1)) else Trap(IndexOutOfRange)
      case AnyCharacters(v) => v.IndexAfter(i)
    }

    function IndexBefore(i: UnicodeIndex): (r: Result<UnicodeIndex>)
      ensures r.Ok? <==> 0 < i.offset <= |Chars()|
      ensures r.Ok? ==> r.value == UnicodeIndex(i.offset - 1)
      ensures r.Trap? ==> r.fault == IndexOutOfRange
    {
      match this
      case CharacterStorage(cs, _) =>
        if 0 < i.offset <= |cs| then Ok(UnicodeIndex(i.offset - 1)) else Trap(IndexOutOfRange)
      case AnyCharacters(v) => v.IndexBefore(i)
    }

    function Element(i: UnicodeIndex): (r: Result<C>)
      ensures r.Ok? <==> 0 <= i.offset < |Chars()|
      ensures r.Ok? ==> r.value == Chars()[i.offset]
      ensures r.Trap? ==> r.fault == IndexOutOfRange
    {
      match this
      case CharacterStorage(cs, _) =>
        if 0 <= i.offset < |cs| then Ok(cs[i.offset]) else Trap(IndexOutOfRange)
      case AnyCharacters(v) => v.Element(i)
    }

    /** Like the 32-bit wrapper, the character wrapper casts the base's buffer to its
        own element type, a cast that cannot fail since the base's elements already
        have that type. */
    function ExistingBuffer<R>(body: seq<C> -> R): (r: Option<R>)
      ensures r.Some? <==> Contiguous()
      ensures r.Some? ==> r.value == body(Chars())
    {
      match this
      case CharacterStorage(cs, c) => if c then Some(body(cs)) else None
      case AnyCharacters(v) => Flatten(v.ExistingBuffer((buf: seq<C>) => Some(body(buf))))
    }
  }
}
