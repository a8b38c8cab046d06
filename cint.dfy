/** The C integer types and conversions the watch app relies on.
    `int8_t`, `int16_t` and `int32_t` are newtypes; an assignment of a wider value
    to one of them wraps modulo 2^8 or 2^16 (two's complement), and `/` on
    signed operands truncates toward zero. Both are written out here because
    Dafny's integers are unbounded and its `/` is Euclidean. */
module IntTypes {
  newtype int8 = x: int | -128 <= x < 128
  newtype int16 = x: int | -32768 <= x < 32768
  newtype int32 = x: int | -0x8000_0000 <= x < 0x8000_0000
}

/** Conversions between `int` and the C integer types. */
module CInt {
  import opened IntTypes

  predicate IsInt8(x: int) { -128 <= x < 128 }
  predicate IsInt16(x: int) { -32768 <= x < 32768 }

  /** Conversion of an `int` to `int8_t` (two's complement): a value in range is
      kept, any other is moved by 256 until it is in range. */
  function Wrap8(x: int): (r: int8)
    ensures IsInt8(x) ==> r as int == x
    decreases if x < 0 then -x else x + 1
  {
    if IsInt8(x) then x as int8
    else if x < 0 then Wrap8(x + 256)
    else Wrap8(x - 256)
  }

  /** Conversion of an `int` to `int16_t`, moving by 65536. */
  function Wrap16(x: int): (r: int16)
    ensures IsInt16(x) ==> r as int == x
    decreases if x < 0 then -x else x + 1
  {
    if IsInt16(x) then x as int16
    else if x < 0 then Wrap16(x + 65536)
    else Wrap16(x - 65536)
  }

  /** The converted value is congruent to the original modulo 256. */
  lemma {:induction false} Wrap8Congruent(x: int)
    ensures (Wrap8(x) as int - x) % 256 == 0
    decreases if x < 0 then -x else x + 1
  {
    if !IsInt8(x) {
      var x' := if x < 0 then x + 256 else x - 256;
      Wrap8Congruent(x');
      assert Wrap8(x) == Wrap8(x');
    }
  }

  /** The converted value is congruent to the original modulo 65536. */
  lemma {:induction false} Wrap16Congruent(x: int)
    ensures (Wrap16(x) as int - x) % 65536 == 0
    decreases if x < 0 then -x else x + 1
  {
    if !IsInt16(x) {
      var x' := if x < 0 then x + 65536 else x - 65536;
      Wrap16Congruent(x');
      assert Wrap16(x) == Wrap16(x');
    }
  }

  /** C's `a / b` for a positive divisor: the quotient truncated toward zero. */
  function DivC(a: int, b: int): (q: int)
    requires b > 0
    ensures a >= 0 ==> 0 <= a - q * b < b
    ensures a < 0 ==> -b < a - q * b <= 0
  {
    if a >= 0 then a / b else -((-a) / b)
  }
}
