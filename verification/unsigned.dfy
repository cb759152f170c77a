/** The standard unsigned integer types a base collection may hold, and `numericCast`. */
module UnsignedIntegers {
  import opened Wrappers

  /** `UInt` and `UInt64` have the same width but are distinct types: a buffer of one
      does not cast to a buffer of the other. */
  datatype UIntType = UInt8 | UInt16 | UInt32 | UInt64 | UInt

  function BitWidth(t: UIntType): nat {
    match t
    case UInt8 => 8
    case UInt16 => 16
    case UInt32 => 32
    case UInt64 => 64
    case UInt => 64
  }

  /** 2 to the power `BitWidth(t)`: the least value `t` cannot represent. */
  function Bound(t: UIntType): nat {
    match t
    case UInt8 => 0x100
    case UInt16 => 0x1_0000
    case UInt32 => 0x1_0000_0000
    case UInt64 => 0x1_0000_0000_0000_0000
    case UInt => 0x1_0000_0000_0000_0000
  }

  predicate Fits(x: nat, t: UIntType) {
    x < Bound(t)
  }

  /** A wider (or equally wide) type can hold every value of a narrower one. */
  lemma WideningPreservesFit(x: nat, from: UIntType, to: UIntType)
    requires Fits(x, from) && BitWidth(from) <= BitWidth(to)
    ensures Fits(x, to)
  {
  }

  /** `numericCast(x) as t`: the value itself when it fits, a trap otherwise. */
  function NumericCast(x: nat, t: UIntType): (r: Result<nat>)
    ensures r.Ok? <==> Fits(x, t)
    ensures r.Ok? ==> r.value == x
    ensures r.Trap? ==> r.fault == NumericCastOverflow
  {
    if x < Bound(t) then Ok(x) else Trap(NumericCastOverflow)
  }
}
