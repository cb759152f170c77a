/** The "basics" test: a UTF-16 view zero-extended from 16-bit code units and one
    zero-extended from 8-bit code units with the same values are element-wise equal. */
module Basics {
  import opened Wrappers
  import opened UnsignedIntegers
  import opened Collections
  import opened OffsetAdaptor
  import opened ZeroExtenders

  /** Lock-step iteration of `xs` and `ys` reaches position `k` (the two agree before
      it) and traps there: reading `xs[k]` or `ys[k]` overflows a 16-bit element. */
  ghost predicate TrapsAt(xs: seq<nat>, ys: seq<nat>, k: int) {
    && 0 <= k <= |xs| && k <= |ys|
    && xs[..k] == ys[..k]
    && ((k < |xs| && !Fits(xs[k], UInt16)) || (k < |ys| && !Fits(ys[k], UInt16)))
  }

  /** `elementsEqual` on two UTF-16 views: both are iterated in lock step, each round
      reading the next element of `x` and then of `y` (each view reading its element
      before moving to its next index), until the elements differ or a view ends. The
      views are equal when they end together. */
  method ElementsEqual(x: UTF16ZeroExtender, y: UTF16ZeroExtender) returns (r: Result<bool>)
    ensures r.Trap? <==> exists k :: TrapsAt(x.base.elems, y.base.elems, k)
    ensures r.Trap? ==> r.fault == NumericCastOverflow
    ensures r.Ok? ==> (r.value <==> x.base.elems == y.base.elems)
  {
    ghost var xs, ys := x.base.elems, y.base.elems;
    var i := x.StartIndex();
    var j := y.StartIndex();
    while true
      invariant 0 <= i.offset <= |xs| && i.offset <= |ys|
      invariant j == i
      invariant xs[..i.offset] == ys[..i.offset]
      invariant forall k | 0 <= k < i.offset :: !TrapsAt(xs, ys, k)
      decreases |xs| - i.offset
    {
      ghost var step := i.offset;
      var e1: Option<nat> := None;
      if i != x.EndIndex() {
        var a := x.Element(i);
        if a.Trap? {
          assert TrapsAt(xs, ys, step);
          return Trap(a.fault);
        }
        e1 := Some(a.value);
        i := x.IndexAfter(i).value;
      }
      var e2: Option<nat> := None;
      if j != y.EndIndex() {
        var b := y.Element(j);
        if b.Trap? {
          assert TrapsAt(xs, ys, step);
          return Trap(b.fault);
        }
        e2 := Some(b.value);
        j := y.IndexAfter(j).value;
      }
      assert !TrapsAt(xs, ys, step);
      match (e1, e2)
      case (Some(a), Some(b)) =>
        if a != b {
          forall k | step < k
            ensures !TrapsAt(xs, ys, k)
          {
            if k <= |xs| && k <= |ys| {
              assert xs[..k][step] != ys[..k][step];
            }
          }
          return Ok(false);
        }
        assert xs[..step + 1] == xs[..step] + [a];
        assert ys[..step + 1] == ys[..step] + [b];
      case (None, None) =>
        assert xs == xs[..step];
        assert ys == ys[..step];
        return Ok(true);
      case _ =>
        assert |xs| != |ys|;
        return Ok(false);
    }
  }

  /** `Array(3...7)` as a collection of the given unsigned type. */
  function ThreeToSeven(t: UIntType): Base {
    Base(t, [3, 4, 5, 6, 7], 0, true)
  }

  /** The test body: `x.elementsEqual(y)` holds. */
  method Basics() returns (r: Result<bool>)
    ensures r == Ok(true)
  {
    var x := UTF16ZeroExtender(ThreeToSeven(UInt16));
    var y := UTF16ZeroExtender(ThreeToSeven(UInt8));
    r := ElementsEqual(x, y);
  }

  /** The two views of the test read back as `[3, 4, 5, 6, 7]` element by element; only
      the 16-bit-sourced one can lend its storage as a UTF-16 buffer. */
  lemma BasicsViews<R>(body: Buffer -> R)
    ensures ElementsFrom(ThreeToSeven(UInt16), UInt16, 0) == Ok([3, 4, 5, 6, 7])
    ensures ElementsFrom(ThreeToSeven(UInt8), UInt16, 0) == Ok([3, 4, 5, 6, 7])
    ensures UTF16ZeroExtender(ThreeToSeven(UInt16)).ExistingBuffer(body)
            == Some(body(Buffer(UInt16, [3, 4, 5, 6, 7])))
    ensures UTF16ZeroExtender(ThreeToSeven(UInt8)).ExistingBuffer(body) == None
  {
  }
}
