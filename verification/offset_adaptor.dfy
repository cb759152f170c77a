/** The offset-indexed adaptor logic shared by all four adaptors.

    Every adaptor presents its base's elements at positions `0 .. count`, whatever the
    base's own indices are, and casts each element to a target type. Index motion is
    done by converting the offset to a base index (`index(atOffset:)`), moving in the
    base, and converting back (`offset(of:)`); the adaptor never does index arithmetic
    itself. The `Is...` predicates state what each operation must return, independently
    of how it is computed; the functions below compute it the way the adaptors do. */
module OffsetAdaptor {
  import opened Wrappers
  import opened UnsignedIntegers
  import opened Collections

  // ---------------------------------------------------------------- specification

  ghost predicate IsStart(b: Base, r: int) {
    r == 0 && b.IndexAtOffset(r) == Ok(b.StartIndex())
  }

  ghost predicate IsEnd(b: Base, r: int) {
    r == b.Count() && b.IndexAtOffset(r) == Ok(b.EndIndex())
  }

  /** The successor of an offset that denotes an element; a trap otherwise. */
  ghost predicate IsAfter(b: Base, i: int, r: Result<int>) {
    if 0 <= i < b.Count() then r == Ok(i + 1) else r == Trap(IndexOutOfRange)
  }

  /** The predecessor of an offset past the first element; a trap otherwise. */
  ghost predicate IsBefore(b: Base, i: int, r: Result<int>) {
    if 0 < i <= b.Count() then r == Ok(i - 1) else r == Trap(IndexOutOfRange)
  }

  /** `i + n` when both `i` and `i + n` are positions of the view; a trap otherwise. */
  ghost predicate IsOffsetBy(b: Base, i: int, n: int, r: Result<int>) {
    if 0 <= i <= b.Count() && 0 <= i + n <= b.Count() then r == Ok(i + n)
    else r == Trap(IndexOutOfRange)
  }

  /** The element at offset `i` with its numeric value unchanged; a trap when `i` is
      not an element's offset, or when the value does not fit the target type. */
  ghost predicate IsElement(b: Base, target: UIntType, i: int, r: Result<nat>) {
    if !(0 <= i < b.Count()) then r == Trap(IndexOutOfRange)
    else if !Fits(b.elems[i], target) then r == Trap(NumericCastOverflow)
    else r == Ok(b.elems[i])
  }

  /** `body` applied to the base's own buffer, when the base has one and its element
      type is exactly the target type; nothing otherwise. */
  ghost predicate IsExistingBuffer<R>(b: Base, target: UIntType, body: Buffer -> R, r: Option<R>) {
    if b.contiguous && b.elementType == target then r == Some(body(Buffer(target, b.elems)))
    else r == None
  }

  /** Every element from offset `i` to the end fits the target type. */
  ghost predicate FitsFrom(b: Base, target: UIntType, i: int) {
    forall k | 0 <= k < b.Count() && i <= k :: Fits(b.elems[k], target)
  }

  // ---------------------------------------------------------------- operations

  function StartOffset(b: Base): (r: int)
    ensures IsStart(b, r)
  {
    0
  }

  function EndOffset(b: Base): (r: int)
    ensures IsEnd(b, r)
    ensures b.OffsetOf(b.EndIndex()) == Ok(r)
  {
    b.Count()
  }

  function After(b: Base, i: int): (r: Result<int>)
    ensures IsAfter(b, i, r)
  {
    var j :- b.IndexAtOffset(i);
    var k :- b.IndexAfter(j);
    b.OffsetOf(k)
  }

  function Before(b: Base, i: int): (r: Result<int>)
    ensures IsBefore(b, i, r)
  {
    var j :- b.IndexAtOffset(i);
    var k :- b.IndexBefore(j);
    b.OffsetOf(k)
  }

  function OffsetBy(b: Base, i: int, n: int): (r: Result<int>)
    ensures IsOffsetBy(b, i, n, r)
  {
    var j :- b.IndexAtOffset(i);
    var k :- b.IndexOffsetBy(j, n);
    b.OffsetOf(k)
  }

  function Element(b: Base, target: UIntType, i: int): (r: Result<nat>)
    ensures IsElement(b, target, i, r)
  {
    var j :- b.IndexAtOffset(i);
    var x :- b.Subscript(j);
    NumericCast(x, target)
  }

  function ExistingBuffer<R>(b: Base, target: UIntType, body: Buffer -> R): (r: Option<R>)
    ensures IsExistingBuffer(b, target, body, r)
  {
    Flatten(b.WithExistingUnsafeBuffer((buf: Buffer) => OptionMap(CastBuffer(buf, target), body)))
  }

  /** The elements an iterator over the view yields from offset `i` on: at each step it
      reads the element, then moves to the next index. */
  function ElementsFrom(b: Base, target: UIntType, i: int): (r: Result<seq<nat>>)
    requires 0 <= i <= b.Count()
    ensures r.Ok? <==> FitsFrom(b, target, i)
    ensures r.Ok? ==> r.value == b.elems[i..]
    ensures r.Trap? ==> r.fault == NumericCastOverflow
    decreases b.Count() - i
  {
    if i == EndOffset(b) then Ok([])
    else
      var x :- Element(b, target, i);
      var rest :- ElementsFrom(b, target, After(b, i).value);
      Ok([x] + rest)
  }

  /** `index(after:)` applied `n` times, or `index(before:)` applied `-n` times. */
  function Walk(b: Base, i: int, n: int): Result<int>
    decreases if n < 0 then -n else n
  {
    if n == 0 then
      if 0 <= i <= b.Count() then Ok(i) else Trap(IndexOutOfRange)
    else if n > 0 then
      var j :- After(b, i);
      Walk(b, j, n - 1)
    else
      var j :- Before(b, i);
      Walk(b, j, n + 1)
  }

  // ---------------------------------------------------------------- properties

  /** The view starts at 0, ends at the base's count, and is empty exactly when the
      base is. */
  lemma Bounds(b: Base)
    ensures StartOffset(b) <= EndOffset(b)
    ensures StartOffset(b) == EndOffset(b) <==> b.elems == []
  {
  }

  /** Moving forward then back returns to the same offset. */
  lemma AfterThenBefore(b: Base, i: int)
    requires 0 <= i < b.Count()
    ensures After(b, i).Ok? && Before(b, After(b, i).value) == Ok(i)
  {
  }

  /** Moving back then forward returns to the same offset. */
  lemma BeforeThenAfter(b: Base, i: int)
    requires 0 < i <= b.Count()
    ensures Before(b, i).Ok? && After(b, Before(b, i).value) == Ok(i)
  {
  }

  /** `index(_:offsetBy:)` is exactly `|n|` single steps in the right direction, in
      every case, traps included. */
  lemma {:induction false} OffsetByIsWalk(b: Base, i: int, n: int)
    ensures OffsetBy(b, i, n) == Walk(b, i, n)
    decreases if n < 0 then -n else n
  {
    if n > 0 {
      if 0 <= i < b.Count() {
        OffsetByIsWalk(b, i + 1, n - 1);
      }
    } else if n < 0 {
      if 0 < i <= b.Count() {
        OffsetByIsWalk(b, i - 1, n + 1);
      }
    }
  }

  /** Zero extension never loses a value: when every element of the base is a value of
      a type no wider than the target, every element can be read. */
  lemma ZeroExtensionIsLossless(b: Base, target: UIntType, i: int)
    requires b.Valid() && BitWidth(b.elementType) <= BitWidth(target)
    requires 0 <= i < b.Count()
    ensures Element(b, target, i) == Ok(b.elems[i])
  {
  }

  /** Reading every element of a zero-extended base yields the base's elements. */
  lemma ZeroExtensionYieldsBase(b: Base, target: UIntType)
    requires b.Valid() && BitWidth(b.elementType) <= BitWidth(target)
    ensures ElementsFrom(b, target, 0) == Ok(b.elems)
  {
  }

  /** An empty view has no element at its start index. */
  lemma EmptyViewHasNoElement(b: Base, target: UIntType)
    requires b.elems == []
    ensures Element(b, target, StartOffset(b)) == Trap(IndexOutOfRange)
  {
  }
}
