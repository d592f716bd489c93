/** Java's fixed-width integers and its integer division, written out over Dafny's unbounded `int`. */
module JavaTypes {

  /** A value that may be absent: stands for a Java reference that may be null. */
  datatype Option<T> = None | Some(value: T)

  const TWO_POW_32 := 0x1_0000_0000
  const TWO_POW_16 := 0x1_0000

  /** Java `byte`, `short`, `int` and `long`. */
  type Int8 = x: int | -0x80 <= x < 0x80
  type Int16 = x: int | -0x8000 <= x < 0x8000
  type Int32 = x: int | -0x8000_0000 <= x < 0x8000_0000
  type Int64 = x: int | -0x8000_0000_0000_0000 <= x < 0x8000_0000_0000_0000

  /** An unsigned octet of an opaque blob (a marshalled `Parcel`). */
  type Octet = bv8

  /** The narrowing cast `(int) x`: keeps the low 32 bits, read as two's complement. */
  function ToInt32(x: int): (r: Int32)
    ensures (r - x) % TWO_POW_32 == 0
    ensures -0x8000_0000 <= x < 0x8000_0000 ==> r == x
  {
    (x + 0x8000_0000) % TWO_POW_32 - 0x8000_0000
  }

  /** The narrowing cast `(short) x`: keeps the low 16 bits, read as two's complement. */
  function ToInt16(x: int): (r: Int16)
    ensures (r - x) % TWO_POW_16 == 0
    ensures -0x8000 <= x < 0x8000 ==> r == x
  {
    (x + 0x8000) % TWO_POW_16 - 0x8000
  }

  /** Two values congruent modulo 2^32 have the same `int` cast. */
  lemma ToInt32Congruent(x: int, y: int)
    requires (x - y) % TWO_POW_32 == 0
    ensures ToInt32(x) == ToInt32(y)
  {
    var k := (x - y) / TWO_POW_32;
    assert x + 0x8000_0000 == (y + 0x8000_0000) + k * TWO_POW_32;
  }

  /** Java's `x++` on an `int` is the cast of the unbounded successor, so the wrapped counter
      keeps counting modulo 2^32 however often it overflows. */
  lemma IncrementWraps(n: int)
    ensures ToInt32(ToInt32(n) + 1) == ToInt32(n + 1)
  {
    ToInt32Congruent(ToInt32(n) + 1, n + 1);
  }

  /** Euclidean division of a natural number, the fact both Java operators rest on. */
  lemma NatDivision(n: nat, b: int)
    requires b > 0
    ensures (n / b) * b <= n < (n / b) * b + b
    ensures n / b >= 0
  {
    var q, r := n / b, n % b;
    assert n == b * q + r && 0 <= r < b;
    assert b * q == q * b;
  }

  /** Java's `a / b` for a positive divisor: the quotient rounded toward zero. */
  function Quot(a: int, b: int): (q: int)
    requires b > 0
    ensures a >= 0 ==> q >= 0 && q * b <= a < q * b + b
    ensures a < 0 ==> q <= 0 && q * b - b < a <= q * b
  {
    if a >= 0 then
      NatDivision(a, b);
      a / b
    else
      NatDivision(-a, b);
      assert -((-a) / b) * b == -(((-a) / b) * b);
      -((-a) / b)
  }

  /** Java's `a % b` for a positive divisor: the remainder takes the sign of the dividend. */
  function Rem(a: int, b: int): (r: int)
    requires b > 0
    ensures a == Quot(a, b) * b + r
    ensures a >= 0 ==> 0 <= r < b
    ensures a < 0 ==> -b < r <= 0
  {
    a - Quot(a, b) * b
  }
}
