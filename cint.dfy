/** C integer semantics as the ARM toolchain of the watch applies them:
    division truncating toward zero, and fixed-width signed types. */
module CInt {

  /** The value of a C expression, or None where the expression has undefined
      behaviour (signed overflow, division by zero). */
  datatype Option<T> = None | Some(value: T)

  function Abs(x: int): nat
  {
    if x < 0 then -x else x
  }

  /** C's `/` on signed operands: the quotient truncated toward zero
      (Dafny's own `/` is Euclidean, which differs for negative operands). */
  function TruncDiv(a: int, b: int): (q: int)
    requires b != 0
    ensures Abs(q) == Abs(a) / Abs(b)
    ensures q > 0 ==> (a > 0) == (b > 0)
    ensures q < 0 ==> (a > 0) != (b > 0)
  {
    NatDivNonNegative(Abs(a), Abs(b));
    var m := Abs(a) / Abs(b);
    if (a < 0) == (b < 0) then m else -m
  }

  /** A natural number divided by a positive one gives a natural number. */
  lemma NatDivNonNegative(x: nat, y: int)
    requires y > 0
    ensures 0 <= x / y
  {
    var q := x / y;
    var r := x % y;
    assert x == q * y + r && 0 <= r < y;
    assert (q + 1) * y > 0;
  }

  /** The magnitude of a product is the product of the magnitudes. */
  lemma AbsMul(a: int, b: int)
    ensures Abs(a * b) == Abs(a) * Abs(b)
  {
    if a < 0 && b < 0 {
      assert a * b == (-a) * (-b);
    } else if a < 0 {
      assert a * b == -((-a) * b);
    } else if b < 0 {
      assert a * b == -(a * (-b));
    }
  }

  /** Multiplying a natural number is monotone in the other factor. */
  lemma MulMonotone(x: nat, j: int, k: int)
    requires j <= k
    ensures x * j <= x * k
  {
    assert x * k == x * j + x * (k - j);
  }

  /** The C identity `(a/b)*b + a%b == a`, with a remainder smaller than the
      divisor in magnitude that is zero or takes the sign of the dividend. */
  lemma TruncDivRemainder(a: int, b: int)
    requires b != 0
    ensures Abs(a - TruncDiv(a, b) * b) < Abs(b)
    ensures a - TruncDiv(a, b) * b == 0 || ((a - TruncDiv(a, b) * b > 0) == (a > 0))
  {
    var m := Abs(a) / Abs(b);
    var r := Abs(a) % Abs(b);
    assert Abs(a) == m * Abs(b) + r && 0 <= r < Abs(b);
    var q := TruncDiv(a, b);
    AbsMul(q, b);
    assert Abs(q * b) == m * Abs(b);
    if a >= 0 {
      assert q * b >= 0;
      assert a - q * b == r;
    } else {
      assert q * b <= 0;
      assert a - q * b == -r;
    }
  }

  /** A dividend at most k times the divisor gives a quotient at most k. */
  lemma QuotientBound(a: nat, b: int, k: int)
    requires b > 0 && a <= b * k
    ensures a / b <= k
  {
    var q := a / b;
    assert q * b <= a;
    assert (q - k) * b <= 0;
  }

  /** The signed integer widths the source uses: int16_t, int/long on the
      watch (32 bits), and a 64-bit long. */
  datatype Width = W16 | W32 | W64

  /** Half the number of values of a width: the width's range is [-Half, Half). */
  function Half(w: Width): int
  {
    match w
    case W16 => 0x8000
    case W32 => 0x8000_0000
    case W64 => 0x8000_0000_0000_0000
  }

  predicate Fits(x: int, w: Width)
  {
    -Half(w) <= x < Half(w)
  }

  /** Conversion of an integer to a narrower signed type, as the compiler
      performs it: reduction modulo 2^bits into the type's range. */
  function Wrap(x: int, w: Width): (r: int)
    ensures Fits(r, w)
    ensures (r - x) % (2 * Half(w)) == 0
    ensures Fits(x, w) ==> r == x
  {
    (x + Half(w)) % (2 * Half(w)) - Half(w)
  }

  /** |a| <= A and |b| <= B bound the product by A * B. */
  lemma MulAbsBound(a: int, b: int, bigA: nat, bigB: nat)
    requires Abs(a) <= bigA && Abs(b) <= bigB
    ensures Abs(a * b) <= bigA * bigB
  {
    assert Abs(a * b) == Abs(a) * Abs(b);
    assert Abs(a) * Abs(b) <= bigA * Abs(b);
    assert bigA * Abs(b) <= bigA * bigB;
  }
}
