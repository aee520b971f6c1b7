/**
 * Integer helpers shared by the whole model: an Option type, the fixed-width
 * integer ranges of the JVM, the JVM's narrowing conversions and truncating
 * division, and a bit-by-bit OR on non-negative integers.
 *
 * Masks and shifts are written arithmetically where that is exact: on two's
 * complement integers `x and (2^k - 1)` is the Euclidean `x % 2^k`, and an
 * arithmetic `x shr k` is the Euclidean (floor) `x / 2^k`. OR is the one
 * operation that has no arithmetic counterpart in general, so it is defined
 * bit by bit and `OrOfDisjoint` proves it coincides with `+` when the operands
 * occupy disjoint bit ranges, which is how the wire codec uses it; `OrAdds`
 * is the same fact for a first operand already known to be such a multiple.
 */
module Bits {

  datatype Option<+T> = None | Some(value: T)

  /** A JVM `short`. */
  type Int16 = x: int | -0x8000 <= x < 0x8000

  /** A JVM `byte`. */
  type Int8 = x: int | -0x80 <= x < 0x80

  /** A JVM `int`. */
  type Int32 = x: int | -0x8000_0000 <= x < 0x8000_0000

  /** 2 to the power `k`. */
  function Pow2(k: nat): (r: nat)
    ensures r >= 1
  {
    if k == 0 then 1 else 2 * Pow2(k - 1)
  }

  /** `Int.toByte()` / `(byte) i`: keep the low 8 bits and read them as signed. */
  function ToInt8(i: int): (r: Int8)
    ensures (r - i) % 0x100 == 0
  {
    (i + 0x80) % 0x100 - 0x80
  }

  /** JVM integer division, which truncates toward zero (Dafny's `/` is Euclidean). */
  function JavaDiv(a: int, b: int): (r: int)
    requires b > 0
    ensures a >= 0 ==> r == a / b
    ensures a < 0 ==> r == -((-a) / b)
  {
    if a >= 0 then a / b else -((-a) / b)
  }

  /** Bitwise OR of two non-negative integers, one bit at a time from the least significant end. */
  function Or(a: nat, b: nat): nat
    decreases a + b
  {
    if a == 0 then b
    else if b == 0 then a
    else 2 * Or(a / 2, b / 2) + (if a % 2 == 1 || b % 2 == 1 then 1 else 0)
  }

  /**
   * OR of a multiple of `2^k` with a value below `2^k` is their sum: the two
   * operands share no set bit.
   */
  lemma {:induction false} OrOfDisjoint(m: nat, b: nat, k: nat)
    requires b < Pow2(k)
    ensures Or(m * Pow2(k), b) == m * Pow2(k) + b
  {
    var a := m * Pow2(k);
    if a == 0 || b == 0 {
    } else {
      assert k > 0;
      var p := Pow2(k - 1);
      assert a == 2 * (m * p);
      OrOfDisjoint(m, b / 2, k - 1);
      assert Or(a, b) == 2 * (m * p + b / 2) + b % 2;
    }
  }

  /** `OrOfDisjoint` for a first operand `a` given together with its quotient `m` by `2^k`. */
  lemma OrAdds(a: nat, m: nat, b: nat, k: nat)
    requires a == m * Pow2(k) && b < Pow2(k)
    ensures Or(a, b) == a + b
  {
    OrOfDisjoint(m, b, k);
  }

  /** Euclidean division is determined by its defining equation: `b * q + r` with `0 <= r < b` splits into `q` and `r`. */
  lemma DivModUnique(a: int, b: int, q: int, r: int)
    requires b > 0 && 0 <= r < b && a == b * q + r
    ensures a / b == q && a % b == r
  {
    var d := q - a / b;
    assert b * d == a % b - r;
    if d > 0 {
      MulAtLeast(b, d);
      assert false;
    } else if d < 0 {
      MulAtLeast(b, -d);
      assert false;
    }
  }

  /** A positive multiple of a positive number is at least that number. */
  lemma MulAtLeast(b: int, d: int)
    requires b > 0 && d >= 1
    ensures b * d >= b
  {
    assert b * d - b == b * (d - 1);
  }

  /** Concatenation is associative; stated on its own so that it is proved away from any concrete frame. */
  lemma AppendAssoc<T>(a: seq<T>, b: seq<T>, c: seq<T>)
    ensures a + b + c == a + (b + c)
  {
  }
}
