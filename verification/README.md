# Zero-extending Unicode views, modelled in Dafny

This project models the view layer of the `AnyUnicode` prototype
(`test/Prototypes/AnyUnicode.swift`). The prototype lets code read text whose storage type
is not known at the call site. It has two parts:

- **Zero-extending adaptors** take any collection of unsigned integers and present it
  through a fixed interface. The adaptors are `AnyCodeUnitsZeroExtender`,
  `AnyUTF16ZeroExtender`, `AnyUnicodeBidirectionalUInt32ZeroExtender` and
  `AnyRandomAccessUnsignedIntegers`. Each one renumbers positions as offsets `0 ..
  count`, and each element goes through `numericCast` to the adaptor's element type.
- **Erased wrappers** hold any value that conforms to an interface and forward to it.
  They are `AnyCodeUnits`, `AnyUTF16`, `AnyUnicodeBidirectionalUInt32` and
  `AnyCharacters`.

How the model is laid out:

- `wrappers.dfy`: `Option`, and `Result`, which stands for an operation that either
  returns or traps. A trap is `IndexOutOfRange` or `NumericCastOverflow`.
- `unsigned.dfy`: the standard unsigned types and `numericCast`. `UInt` and `UInt64` are
  distinct types.
- `collections.dfy`: the base collection. Its indices are `start .. start + count`, so a
  slice that does not start at zero is a base too. It also has a flag saying whether it
  has contiguous storage. Its index operations trap when the collection protocols'
  preconditions are broken.
- `unicode_index.dfy`: `UnicodeIndex` and its ordering.
- `offset_adaptor.dfy`: the adaptor logic all four adaptors share. It also holds the
  reference predicates (`IsAfter`, `IsElement`, ...) that every layer's contract cites.
- `zero_extenders.dfy`: the four adaptors.
- `erased_views.dfy`: the four erased interfaces. Each is a datatype whose cases are the
  types that conform to it: the adaptor, and the wrapper itself around any conforming
  value. `Storage()` is the base at the bottom of a stack of wrappers.
- `view_properties.dfy`: how the wrappers relate to the adaptors, including the
  `index(_:offsetBy:)` discrepancy.
- `basics.dfy`: the "basics" test.

Two points about the code worth knowing:

- **Wider bases are accepted.** The adaptors only require the base's elements to be
  `UnsignedInteger`, so a base whose element type is wider than the adaptor's element
  type can be wrapped. Reading an element that does not fit traps in `numericCast`, so
  `IsElement` has that case.
- **`AnyCodeUnits.index(_:offsetBy:)` passes the index as the distance.** A wrapped
  code-unit view moves from `i` by `i`, whatever distance it is given (see Findings).

## Model

| member | source | states |
|---|---|---|
| `UnicodeIndices.EqualIsIdentity` | test/Prototypes/AnyUnicode.swift:19-21 | Two indices are `==` exactly when they are the same index, i.e. when their offsets agree |
| `UnicodeIndices.LessIsStrictTotalOrder` | test/Prototypes/AnyUnicode.swift:17-25 | `<` on offsets is irreflexive, asymmetric and transitive, and any two indices are `==` or ordered one way |
| `OffsetAdaptor.StartOffset` | test/Prototypes/AnyUnicode.swift:78 | The start offset is 0, and it maps back to the base's own `startIndex` |
| `OffsetAdaptor.EndOffset` | test/Prototypes/AnyUnicode.swift:79 | The end offset is the base's count; it maps back to the base's `endIndex`, and `offset(of: endIndex)` gives it |
| `OffsetAdaptor.After` | test/Prototypes/AnyUnicode.swift:81-84 | Converting to a base index, stepping in the base and converting back gives `i + 1` for `0 <= i < count`; any other `i` traps as out of range |
| `OffsetAdaptor.Before` | test/Prototypes/AnyUnicode.swift:86-89 | Gives `i - 1` for `0 < i <= count`; any other `i` traps as out of range |
| `OffsetAdaptor.OffsetBy` | test/Prototypes/AnyUnicode.swift:91-96 | Gives `i + n` when `i` and `i + n` both lie in `0 .. count`; traps otherwise |
| `OffsetAdaptor.Element` | test/Prototypes/AnyUnicode.swift:98-100 | Returns the base element at offset `i` with its value unchanged. Traps as out of range outside `0 ..< count`, and as a cast overflow when the value does not fit the target type |
| `OffsetAdaptor.ExistingBuffer` | test/Prototypes/AnyUnicode.swift:102-108 | Calls `body` on the base's own buffer exactly when the base has contiguous storage whose element type is the target type. Otherwise returns nothing and does not copy |
| `OffsetAdaptor.ElementsFrom` | test/Prototypes/AnyUnicode.swift:98-100 | Iterating the view from offset `i` yields `base[i..]` exactly when every remaining element fits the target; otherwise it traps with a cast overflow |
| `OffsetAdaptor.Bounds` | test/Prototypes/AnyUnicode.swift:78-79 | `startIndex <= endIndex`, and the view is empty exactly when the base is |
| `OffsetAdaptor.AfterThenBefore` | test/Prototypes/AnyUnicode.swift:81-89 | For `0 <= i < count`, `index(before: index(after: i)) == i` |
| `OffsetAdaptor.BeforeThenAfter` | test/Prototypes/AnyUnicode.swift:81-89 | For `0 < i <= count`, `index(after: index(before: i)) == i` |
| `OffsetAdaptor.OffsetByIsWalk` | test/Prototypes/AnyUnicode.swift:81-96 | For every `i` and `n`, traps included, `index(i, offsetBy: n)` equals `index(after:)` applied `n` times or `index(before:)` applied `-n` times |
| `OffsetAdaptor.ZeroExtensionIsLossless` | test/Prototypes/AnyUnicode.swift:98-100 | When the base type is no wider than the target, every in-range element reads back unchanged and never traps |
| `OffsetAdaptor.ZeroExtensionYieldsBase` | test/Prototypes/AnyUnicode.swift:65-69 | Iterating a zero-extended view whose base is no wider than the target yields exactly the base's elements |
| `OffsetAdaptor.EmptyViewHasNoElement` | test/Prototypes/AnyUnicode.swift:98-100 | Reading the start index of an empty view traps as out of range |
| `ZeroExtenders.CodeUnitsZeroExtender.StartIndex` | test/Prototypes/AnyUnicode.swift:78 | Start offset 0, denoting the base's `startIndex` |
| `ZeroExtenders.CodeUnitsZeroExtender.EndIndex` | test/Prototypes/AnyUnicode.swift:79 | End offset equals the base's count, denoting the base's `endIndex` |
| `ZeroExtenders.CodeUnitsZeroExtender.IndexAfter` | test/Prototypes/AnyUnicode.swift:81-84 | `i + 1` inside the view, out-of-range trap otherwise |
| `ZeroExtenders.CodeUnitsZeroExtender.IndexBefore` | test/Prototypes/AnyUnicode.swift:86-89 | `i - 1` for `0 < i <= count`, out-of-range trap otherwise |
| `ZeroExtenders.CodeUnitsZeroExtender.IndexOffsetBy` | test/Prototypes/AnyUnicode.swift:91-96 | `i + n` when both ends are in bounds, out-of-range trap otherwise |
| `ZeroExtenders.CodeUnitsZeroExtender.Element` | test/Prototypes/AnyUnicode.swift:98-100 | The base's element at offset `i` as an unchanged 32-bit value. Traps when out of range or when the value exceeds 32 bits |
| `ZeroExtenders.CodeUnitsZeroExtender.ExistingBuffer` | test/Prototypes/AnyUnicode.swift:102-108 | A result only when the base is contiguous storage of `UInt32`; nothing otherwise |
| `ZeroExtenders.UTF16ZeroExtender.StartIndex` | test/Prototypes/AnyUnicode.swift:154 | `UnicodeIndex(offset: 0)`, denoting the base's `startIndex` |
| `ZeroExtenders.UTF16ZeroExtender.EndIndex` | test/Prototypes/AnyUnicode.swift:155 | `UnicodeIndex` at the base's count, denoting the base's `endIndex` |
| `ZeroExtenders.UTF16ZeroExtender.IndexAfter` | test/Prototypes/AnyUnicode.swift:157-160 | Offset `+ 1` inside the view, out-of-range trap otherwise |
| `ZeroExtenders.UTF16ZeroExtender.IndexBefore` | test/Prototypes/AnyUnicode.swift:162-165 | Offset `- 1` for `0 < offset <= count`, out-of-range trap otherwise |
| `ZeroExtenders.UTF16ZeroExtender.IndexOffsetBy` | test/Prototypes/AnyUnicode.swift:167-172 | Offset `+ n` when both ends are in bounds, out-of-range trap otherwise |
| `ZeroExtenders.UTF16ZeroExtender.Element` | test/Prototypes/AnyUnicode.swift:174-176 | The base's element at the offset as an unchanged 16-bit value. Traps when out of range or when the value exceeds 16 bits |
| `ZeroExtenders.UTF16ZeroExtender.ExistingBuffer` | test/Prototypes/AnyUnicode.swift:178-184 | A result only when the base is contiguous storage of `UInt16`; nothing otherwise |
| `ZeroExtenders.UInt32ZeroExtender.StartIndex` | test/Prototypes/AnyUnicode.swift:233 | `UnicodeIndex(offset: 0)`, denoting the base's `startIndex` |
| `ZeroExtenders.UInt32ZeroExtender.EndIndex` | test/Prototypes/AnyUnicode.swift:234 | `UnicodeIndex` at the base's count, denoting the base's `endIndex` |
| `ZeroExtenders.UInt32ZeroExtender.IndexAfter` | test/Prototypes/AnyUnicode.swift:236-239 | Offset `+ 1` inside the view, out-of-range trap otherwise |
| `ZeroExtenders.UInt32ZeroExtender.IndexBefore` | test/Prototypes/AnyUnicode.swift:241-244 | Offset `- 1` for `0 < offset <= count`, out-of-range trap otherwise |
| `ZeroExtenders.UInt32ZeroExtender.IndexOffsetBy` | test/Prototypes/AnyUnicode.swift:246-251 | Offset `+ n` when both ends are in bounds, out-of-range trap otherwise |
| `ZeroExtenders.UInt32ZeroExtender.Element` | test/Prototypes/AnyUnicode.swift:253-255 | The base's element at the offset as an unchanged 32-bit value. Traps when out of range or when the value exceeds 32 bits |
| `ZeroExtenders.UInt32ZeroExtender.ExistingBuffer` | test/Prototypes/AnyUnicode.swift:257-263 | A result only when the base is contiguous storage of `UInt32`; nothing otherwise |
| `ZeroExtenders.RandomAccessUnsignedIntegers.StartIndex` | test/Prototypes/AnyUnicode.swift:330 | Start offset 0, denoting the base's `startIndex` |
| `ZeroExtenders.RandomAccessUnsignedIntegers.EndIndex` | test/Prototypes/AnyUnicode.swift:331 | End offset equals the base's count, denoting the base's `endIndex` |
| `ZeroExtenders.RandomAccessUnsignedIntegers.IndexAfter` | test/Prototypes/AnyUnicode.swift:333-336 | `i + 1` inside the view, out-of-range trap otherwise |
| `ZeroExtenders.RandomAccessUnsignedIntegers.IndexBefore` | test/Prototypes/AnyUnicode.swift:338-341 | `i - 1` for `0 < i <= count`, out-of-range trap otherwise |
| `ZeroExtenders.RandomAccessUnsignedIntegers.IndexOffsetBy` | test/Prototypes/AnyUnicode.swift:343-348 | `i + n` when both ends are in bounds, out-of-range trap otherwise |
| `ZeroExtenders.RandomAccessUnsignedIntegers.Element` | test/Prototypes/AnyUnicode.swift:350-352 | The base's element at offset `i`, unchanged, when it fits the chosen element type. A cast-overflow trap when it does not fit (the target may be narrower than the base); an out-of-range trap outside the view |
| `ZeroExtenders.RandomAccessUnsignedIntegers.ExistingBuffer` | test/Prototypes/AnyUnicode.swift:354-360 | A result only when the base is contiguous storage of exactly the chosen element type |
| `ErasedViews.CodeUnitsView.StartIndex` | test/Prototypes/AnyUnicode.swift:53 | Through any stack of wrappers: offset 0 of the underlying base |
| `ErasedViews.CodeUnitsView.EndIndex` | test/Prototypes/AnyUnicode.swift:54 | Through any stack of wrappers: the underlying base's count |
| `ErasedViews.CodeUnitsView.IndexAfter` | test/Prototypes/AnyUnicode.swift:55 | The adaptor's `index(after:)` over the underlying base, unchanged |
| `ErasedViews.CodeUnitsView.IndexBefore` | test/Prototypes/AnyUnicode.swift:56 | The adaptor's `index(before:)` over the underlying base, unchanged |
| `ErasedViews.CodeUnitsView.IndexOffsetBy` | test/Prototypes/AnyUnicode.swift:57 | As written: a bare adaptor moves by `n`, but once wrapped the view moves from `i` by `i` and ignores `n` |
| `ErasedViews.CodeUnitsView.IndexOffsetByIntended` | test/Prototypes/AnyUnicode.swift:57 | With the distance forwarded, the result is `i + n` within bounds and a trap otherwise, at any wrapping depth |
| `ErasedViews.CodeUnitsView.Element` | test/Prototypes/AnyUnicode.swift:58 | The adaptor's 32-bit element over the underlying base, unchanged |
| `ErasedViews.CodeUnitsView.ExistingBuffer` | test/Prototypes/AnyUnicode.swift:60-62 | Forwarded: a result exactly when the underlying base is contiguous `UInt32` storage |
| `ErasedViews.UTF16View.StartIndex` | test/Prototypes/AnyUnicode.swift:131 | Through any stack of wrappers: offset 0 |
| `ErasedViews.UTF16View.EndIndex` | test/Prototypes/AnyUnicode.swift:132 | Through any stack of wrappers: the underlying base's count |
| `ErasedViews.UTF16View.IndexAfter` | test/Prototypes/AnyUnicode.swift:133 | The adaptor's `index(after:)`, unchanged |
| `ErasedViews.UTF16View.IndexBefore` | test/Prototypes/AnyUnicode.swift:134 | The adaptor's `index(before:)`, unchanged |
| `ErasedViews.UTF16View.Element` | test/Prototypes/AnyUnicode.swift:135 | The adaptor's 16-bit element, unchanged |
| `ErasedViews.UTF16View.ExistingBuffer` | test/Prototypes/AnyUnicode.swift:136-140 | Forwarded without a cast: a result exactly when the underlying base is contiguous `UInt16` storage |
| `ErasedViews.UInt32View.StartIndex` | test/Prototypes/AnyUnicode.swift:208 | Through any stack of wrappers: offset 0 |
| `ErasedViews.UInt32View.EndIndex` | test/Prototypes/AnyUnicode.swift:209 | Through any stack of wrappers: the underlying base's count |
| `ErasedViews.UInt32View.IndexAfter` | test/Prototypes/AnyUnicode.swift:210 | The adaptor's `index(after:)`, unchanged |
| `ErasedViews.UInt32View.IndexBefore` | test/Prototypes/AnyUnicode.swift:211 | The adaptor's `index(before:)`, unchanged |
| `ErasedViews.UInt32View.Element` | test/Prototypes/AnyUnicode.swift:212 | The adaptor's 32-bit element, unchanged |
| `ErasedViews.UInt32View.ExistingBuffer` | test/Prototypes/AnyUnicode.swift:213-219 | The per-level cast to a `UInt32` buffer never loses a buffer. There is a result exactly when the underlying base is contiguous `UInt32` storage |
| `ErasedViews.CharactersView.StartIndex` | test/Prototypes/AnyUnicode.swift:286 | Through any stack of wrappers: offset 0 |
| `ErasedViews.CharactersView.EndIndex` | test/Prototypes/AnyUnicode.swift:287 | Through any stack of wrappers: the leaf's end; for the consecutive-offset stand-in, its character count |
| `ErasedViews.CharactersView.IndexAfter` | test/Prototypes/AnyUnicode.swift:288 | The leaf's `index(after:)` through any stack; for the stand-in, offset `+ 1` inside the storage and an out-of-range trap otherwise |
| `ErasedViews.CharactersView.IndexBefore` | test/Prototypes/AnyUnicode.swift:289 | The leaf's `index(before:)` through any stack; for the stand-in, offset `- 1` for `0 < offset <= count` and an out-of-range trap otherwise |
| `ErasedViews.CharactersView.Element` | test/Prototypes/AnyUnicode.swift:290 | The storage's character at the offset, out-of-range trap otherwise |
| `ErasedViews.CharactersView.ExistingBuffer` | test/Prototypes/AnyUnicode.swift:291-297 | The per-level cast to a `Character` buffer never fails. There is a result exactly when the storage is contiguous, and `body` sees its characters |
| `ViewProperties.CharactersViewForwards` | test/Prototypes/AnyUnicode.swift:286-297 | An `AnyCharacters` wrapper answers start, end, after, before, subscript and buffer exactly as the view it holds |
| `ViewProperties.UTF16ViewForwards` | test/Prototypes/AnyUnicode.swift:131-135 | Any stack of `AnyUTF16` wrappers answers start, end, after, before and subscript exactly as the adaptor it wraps |
| `ViewProperties.UInt32ViewForwards` | test/Prototypes/AnyUnicode.swift:208-219 | Any stack of `AnyUnicodeBidirectionalUInt32` wrappers answers every query, the buffer included, exactly as the adaptor |
| `ViewProperties.CodeUnitsViewForwards` | test/Prototypes/AnyUnicode.swift:53-62 | Any stack of `AnyCodeUnits` wrappers answers start, end, after, before, subscript and buffer exactly as the adaptor |
| `ViewProperties.WrappedOffsetByUsesIndex` | test/Prototypes/AnyUnicode.swift:57 | A wrapped code-unit view's `index(i, offsetBy: n)` is the adaptor's `index(i, offsetBy: i)`, for every `n` |
| `ViewProperties.WrappedOffsetByDisagrees` | test/Prototypes/AnyUnicode.swift:57 | Whenever `n != i` and the move stays in bounds, the adaptor lands on `i + n` and the wrapped view does not |
| `ViewProperties.WrappedOffsetByCounterexample` | test/Prototypes/AnyUnicode.swift:57 | Over three code units, `index(1, offsetBy: 0)` is 1 for the adaptor and 2 through the wrapper |
| `ViewProperties.IntendedOffsetByIsWalk` | test/Prototypes/AnyUnicode.swift:57 | With the distance forwarded, the wrapped view's `index(i, offsetBy: n)` is as many single steps as the size of `n`, and equals the adaptor's |
| `ViewProperties.UTF16StepsRoundTrip` | test/Prototypes/AnyUnicode.swift:133-134 | Through a UTF-16 view, `index(after:)` and `index(before:)` undo each other wherever they are defined |
| `Basics.ElementsEqual` | test/Prototypes/AnyUnicode.swift:399 | Lock-step iteration of two UTF-16 views traps (with a cast overflow) exactly when, at some position up to which the two agree, either view holds a value wider than 16 bits. Otherwise it returns "equal" exactly when the bases hold the same values |
| `Basics.Basics` | test/Prototypes/AnyUnicode.swift:396-400 | Zero-extending `[3, 4, 5, 6, 7]` from `UInt16` and from `UInt8` to UTF-16 gives views that `elementsEqual` reports equal |
| `Basics.BasicsViews` | test/Prototypes/AnyUnicode.swift:397-398 | Both views of the test read back `[3, 4, 5, 6, 7]`. Only the `UInt16`-sourced one lends its storage as a UTF-16 buffer |

## Findings

| source | as written | input that shows it | evidently intended | confidence | as-written member | corrected member |
|---|---|---|---|---|---|---|
| test/Prototypes/AnyUnicode.swift:57 | `AnyCodeUnits.index(_:offsetBy:)` returns `base.index(i, offsetBy: i)` | an `AnyCodeUnits` over three code units, `index(1, offsetBy: 0)`: returns 2 | `base.index(i, offsetBy: offsetBy)`, which returns 1 | high; not executed | `ErasedViews.CodeUnitsView.IndexOffsetBy` (shown by `ViewProperties.WrappedOffsetByCounterexample`) | `ErasedViews.CodeUnitsView.IndexOffsetByIntended` (proved by `ViewProperties.IntendedOffsetByIsWalk`) |

The model keeps the as-written `IndexOffsetBy` as the member that `AnyCodeUnits` answers
with. The corrected member sits beside it and is not substituted for it.

## Left out

- The `utf16View` transcoding entry point (test/Prototypes/AnyUnicode.swift:363-386): it is
  unfinished and ends in `fatalError()`. It also relies on `UnicodeStorage.TranscodedView`
  and on encoders and decoders, which are not part of this model.
- The `AnyUnicode` protocol (test/Prototypes/AnyUnicode.swift:300-316): it declares
  accessors and the ASCII, Latin-1 and normalization predicates, but implements none of
  them. The predicates depend on normalization and segmentation outside this file.
- The commented-out range subscript (line 37) and the commented-out `AnyUnicode`
  extension (lines 387-393).
- `Character` and grapheme-cluster semantics: character elements have an opaque type.
  `CharacterStorage` is a stand-in leaf: a collection indexed by consecutive offsets, one
  offset per character. A concrete character view whose `UnicodeIndex` counts code units
  would move by a whole cluster's length instead. Only the wrapper's forwarding is taken
  from the code; `ViewProperties.CharactersViewForwards` states it for any leaf.
- ErasedViews.CharactersView.EndIndex: the end offset being the character count holds of the consecutive-offset stand-in only.
- ErasedViews.CharactersView.IndexAfter: the step of `+ 1` holds of the consecutive-offset stand-in only.
- ErasedViews.CharactersView.IndexBefore: the step of `- 1` holds of the consecutive-offset stand-in only.
- Real `UnsafeBufferPointer` memory and the `as Any as?` dynamic cast. A buffer is its
  element-type tag plus its values, and the cast compares tags. `body` is a total
  function, so its `throws`/`rethrows` path is not modelled.
- `Int64` offsets and the `numericCast`s between `Int64` and the base's `Int` distances:
  offsets are unbounded integers, so overflow past `Int64.max` is not modelled.
- Unchecked bases: the base's index operations trap whenever the collection protocols'
  preconditions are broken. Some bases (for example `Array`'s `index(after:)`) do not
  check, and would return the out-of-range integer instead of trapping.
- User-defined `UnsignedInteger` types: only `UInt8`, `UInt16`, `UInt32`, `UInt64` and
  `UInt` are modelled as base element types.
- `elementsEqual` and the indexing iterator come from the standard library. They are
  modelled only as far as the "basics" test needs them.
- The test harness (`TestSuite`, `runAllTests`, lines 395 and 402).
