/** `UnicodeIndex`: the index type of the bidirectional Unicode views, a plain offset. */
module UnicodeIndices {
  import opened Wrappers

  datatype UnicodeIndex = UnicodeIndex(offset: int)

  /** The index type's `==`: offsets are equal. */
  predicate Equal(l: UnicodeIndex, r: UnicodeIndex) {
    l.offset == r.offset
  }

  /** The index type's `<`: offsets are ordered. */
  predicate Less(l: UnicodeIndex, r: UnicodeIndex) {
    l.offset < r.offset
  }

  /** `==` on indices is identity of indices: two indices are equal exactly when
      they are the same value. */
  lemma EqualIsIdentity(l: UnicodeIndex, r: UnicodeIndex)
    ensures Equal(l, r) <==> l == r
  {
  }

  /** `<` is a strict total order, as `Comparable` requires, and it agrees with `==`. */
  lemma LessIsStrictTotalOrder()
    ensures forall a :: !Less(a, a)
    ensures forall a, b :: Less(a, b) ==> !Less(b, a)
    ensures forall a, b, c :: Less(a, b) && Less(b, c) ==> Less(a, c)
    ensures forall a, b :: Equal(a, b) || Less(a, b) || Less(b, a)
  {
  }

  /** The offsets of a result of index type, keeping any trap. */
  function Offsets(r: Result<UnicodeIndex>): Result<int> {
    match r
    case Ok(u) => Ok(u.offset)
    case Trap(f) => Trap(f)
  }
}
