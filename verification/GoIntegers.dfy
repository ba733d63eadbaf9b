// Go's fixed-width integers. Every counter of the transfer protocol is one of
// these, and every addition on one of them wraps.
module GoIntegers {
  const TWO_TO_63: int := 0x8000_0000_0000_0000
  const TWO_TO_64: int := 0x1_0000_0000_0000_0000

  type int64 = x: int | -TWO_TO_63 <= x < TWO_TO_63
  type uint64 = x: int | 0 <= x < TWO_TO_64

  // The int64 congruent to x modulo 2^64.
  function WrapInt64(x: int): (r: int64)
    ensures -TWO_TO_63 <= x < TWO_TO_63 ==> r == x
    decreases if x < 0 then -x else x + 1
  {
    if x >= TWO_TO_63 then WrapInt64(x - TWO_TO_64)
    else if x < -TWO_TO_63 then WrapInt64(x + TWO_TO_64)
    else x
  }

  // The uint64 congruent to x modulo 2^64.
  function WrapUint64(x: int): (r: uint64)
    ensures 0 <= x < TWO_TO_64 ==> r == x
    decreases if x < 0 then TWO_TO_64 - x else x + 1
  {
    if x >= TWO_TO_64 then WrapUint64(x - TWO_TO_64)
    else if x < 0 then WrapUint64(x + TWO_TO_64)
    else x
  }

  // Go's integer division truncates toward zero; Dafny's rounds toward a
  // non-negative remainder.
  function TruncatedDiv(a: int, b: int): (q: int)
    requires b > 0
    ensures 0 <= a ==> q == a / b
    ensures a < 0 ==> -q == (-a) / b
  {
    if a >= 0 then a / b else -((-a) / b)
  }

  lemma {:induction false} WrapInt64Period(x: int)
    ensures WrapInt64(x) == WrapInt64(x + TWO_TO_64)
    decreases if x < 0 then -x else x + 1
  {
    if x < -TWO_TO_63 {
    } else if x >= TWO_TO_63 {
      WrapInt64Period(x - TWO_TO_64);
    }
  }

  // Wrapping early or late makes no difference to a sum.
  lemma {:induction false} WrapInt64Adds(x: int, y: int)
    ensures WrapInt64(WrapInt64(x) + y) == WrapInt64(x + y)
    decreases if x < 0 then -x else x + 1
  {
    if x >= TWO_TO_63 {
      WrapInt64Adds(x - TWO_TO_64, y);
      WrapInt64Period(x - TWO_TO_64 + y);
    } else if x < -TWO_TO_63 {
      WrapInt64Adds(x + TWO_TO_64, y);
      WrapInt64Period(x + y);
    }
  }

  lemma {:induction false} WrapUint64Period(x: int)
    ensures WrapUint64(x) == WrapUint64(x + TWO_TO_64)
    decreases if x < 0 then TWO_TO_64 - x else x + 1
  {
    if x >= TWO_TO_64 {
      WrapUint64Period(x - TWO_TO_64);
    }
  }

  lemma {:induction false} WrapUint64Adds(x: int, y: int)
    ensures WrapUint64(WrapUint64(x) + y) == WrapUint64(x + y)
    decreases if x < 0 then TWO_TO_64 - x else x + 1
  {
    if x >= TWO_TO_64 {
      WrapUint64Adds(x - TWO_TO_64, y);
      WrapUint64Period(x - TWO_TO_64 + y);
    } else if x < 0 {
      WrapUint64Adds(x + TWO_TO_64, y);
      WrapUint64Period(x + y);
    }
  }
}
