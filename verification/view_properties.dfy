/** Properties relating the erased views to the adaptors they wrap. */
module ViewProperties {
  import opened Wrappers
  import opened UnsignedIntegers
  import opened Collections
  import opened UnicodeIndices
  import opened OffsetAdaptor
  import opened ZeroExtenders
  import opened ErasedViews

  /** However many wrappers are stacked over a UTF-16 adaptor, the stack answers every
      query exactly as the adaptor does. */
  lemma UTF16ViewForwards(v: UTF16View, i: UnicodeIndex)
    ensures v.StartIndex() == v.Extender().StartIndex()
    ensures v.EndIndex() == v.Extender().EndIndex()
    ensures v.IndexAfter(i) == v.Extender().IndexAfter(i)
    ensures v.IndexBefore(i) == v.Extender().IndexBefore(i)
    ensures v.Element(i) == v.Extender().Element(i)
  {
  }

  /** The same for the 32-bit bidirectional view, whose buffer accessor re-casts the
      buffer at every level. */
  lemma UInt32ViewForwards<R>(v: UInt32View, i: UnicodeIndex, body: Buffer -> R)
    ensures v.StartIndex() == v.Extender().StartIndex()
    ensures v.EndIndex() == v.Extender().EndIndex()
    ensures v.IndexAfter(i) == v.Extender().IndexAfter(i)
    ensures v.IndexBefore(i) == v.Extender().IndexBefore(i)
    ensures v.Element(i) == v.Extender().Element(i)
    ensures v.ExistingBuffer(body) == v.Extender().ExistingBuffer(body)
  {
  }

  /** The code-unit view forwards everything except `index(_:offsetBy:)`. */
  lemma CodeUnitsViewForwards<R>(v: CodeUnitsView, i: int, body: Buffer -> R)
    ensures v.StartIndex() == v.Extender().StartIndex()
    ensures v.EndIndex() == v.Extender().EndIndex()
    ensures v.IndexAfter(i) == v.Extender().IndexAfter(i)
    ensures v.IndexBefore(i) == v.Extender().IndexBefore(i)
    ensures v.Element(i) == v.Extender().Element(i)
    ensures v.ExistingBuffer(body) == v.Extender().ExistingBuffer(body)
  {
  }

  /** A wrapped code-unit view moves by `i` instead of `n`: its `index(_:offsetBy:)`
      agrees with the wrapped adaptor's only when the index equals the distance. */
  lemma WrappedOffsetByUsesIndex(v: CodeUnitsView, i: int, n: int)
    requires v.AnyCodeUnits?
    ensures v.IndexOffsetBy(i, n) == v.Extender().IndexOffsetBy(i, i)
    ensures v.IndexOffsetBy(i, n) == v.IndexOffsetByIntended(i, i)
  {
  }

  /** For every in-range move with distance other than the index, the wrapped view
      does not land where the adaptor does. */
  lemma WrappedOffsetByDisagrees(v: CodeUnitsView, i: int, n: int)
    requires v.AnyCodeUnits? && i != n
    requires 0 <= i <= v.Storage().Count() && 0 <= i + n <= v.Storage().Count()
    ensures v.Extender().IndexOffsetBy(i, n) == Ok(i + n)
    ensures v.IndexOffsetBy(i, n) != Ok(i + n)
  {
  }

  /** The smallest witness: over three code units, moving from offset 1 by 0 stays at 1
      in the adaptor but reaches 2 through the wrapper. */
  lemma WrappedOffsetByCounterexample()
    ensures var z := CodeUnitsZeroExtender(Base(UInt16, [0, 0, 0], 0, true));
            && z.IndexOffsetBy(1, 0) == Ok(1)
            && AnyCodeUnits(CodeUnitsExtended(z)).IndexOffsetBy(1, 0) == Ok(2)
  {
  }

  /** With the distance forwarded, a wrapped code-unit view's `index(_:offsetBy:)` is
      `|n|` steps of `index(after:)` or `index(before:)`, as for the adaptor. */
  lemma IntendedOffsetByIsWalk(v: CodeUnitsView, i: int, n: int)
    ensures v.IndexOffsetByIntended(i, n) == Walk(v.Storage(), i, n)
    ensures v.IndexOffsetByIntended(i, n) == v.Extender().IndexOffsetBy(i, n)
  {
    OffsetByIsWalk(v.Storage(), i, n);
  }

  /** In a UTF-16 view, `index(after:)` and `index(before:)` undo each other at every
      index where they are defined. */
  lemma UTF16StepsRoundTrip(v: UTF16View, i: UnicodeIndex)
    ensures 0 <= i.offset < v.Storage().Count() ==>
      v.IndexAfter(i).Ok? && v.IndexBefore(v.IndexAfter(i).value) == Ok(i)
    ensures 0 < i.offset <= v.Storage().Count() ==>
      v.IndexBefore(i).Ok? && v.IndexAfter(v.IndexBefore(i).value) == Ok(i)
  {
    // Without these steps the proof is at the solver's resource limit on some seeds.
    var n := v.Storage().Count();
    if 0 <= i.offset < n {
      var a := v.IndexAfter(i);
      assert Offsets(a) == Ok(i.offset + 1);
      assert a == Ok(UnicodeIndex(i.offset + 1));
      assert Offsets(v.IndexBefore(a.value)) == Ok(i.offset);
    }
    if 0 < i.offset <= n {
      var b := v.IndexBefore(i);
      assert Offsets(b) == Ok(i.offset - 1);
      assert b == Ok(UnicodeIndex(i.offset - 1));
      assert Offsets(v.IndexAfter(b.value)) == Ok(i.offset);
    }
  }

  /** An `AnyCharacters` wrapper answers every query as the view it holds, whatever
      that view's own index motion is. */
  lemma CharactersViewForwards<C, R>(v: CharactersView<C>, i: UnicodeIndex, body: seq<C> -> R)
    requires v.AnyCharacters?
    ensures v.StartIndex() == v.base.StartIndex()
    ensures v.EndIndex() == v.base.EndIndex()
    ensures v.IndexAfter(i) == v.base.IndexAfter(i)
    ensures v.IndexBefore(i) == v.base.IndexBefore(i)
    ensures v.Element(i) == v.base.Element(i)
    ensures v.ExistingBuffer(body) == v.base.ExistingBuffer(body)
  {
  }
}
