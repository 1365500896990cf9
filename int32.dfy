/** Integer semantics of the C/C++ code: 32-bit `int`, narrowing conversions
    and the truncating `/` operator. Dafny's `int` is unbounded and its `/`
    is Euclidean, so both are written out here. */
module Int32 {

  const MinInt32: int := -0x8000_0000
  const MaxInt32: int := 0x7fff_ffff
  const Modulus32: int := 0x1_0000_0000

  /** `x` is representable as a C `int`. */
  predicate InRange(x: int) {
    MinInt32 <= x <= MaxInt32
  }

  const MinShort: int := -0x8000
  const MaxShort: int := 0x7fff

  /** `x` is representable as a C `short`, the type of a PCM sample. */
  predicate IsShort(x: int) {
    MinShort <= x <= MaxShort
  }

  function Abs(x: int): (r: nat)
    ensures r == x || r == -x
  {
    if x < 0 then -x else x
  }

  /** C's integer division: the quotient truncated toward zero. */
  function Quot(a: int, b: int): (q: int)
    requires b != 0
    ensures Abs(q) * Abs(b) <= Abs(a) < Abs(q) * Abs(b) + Abs(b)
    ensures (a >= 0) == (b > 0) ==> q >= 0
    ensures (a >= 0) != (b > 0) ==> q <= 0
  {
    DivBounds(Abs(a), Abs(b));
    if (a < 0) == (b < 0) then Abs(a) / Abs(b) else -(Abs(a) / Abs(b))
  }

  /** Euclidean division of naturals brackets the dividend. */
  lemma DivBounds(n: nat, d: nat)
    requires d > 0
    ensures n / d >= 0 && Abs(n / d) == n / d && Abs(-(n / d)) == n / d
    ensures (n / d) * d <= n < (n / d) * d + d
  {
  }

  /** Conversion of a wider integer to `int`: the value modulo 2^32, read in
      two's complement (the rule of C++20, and what compilers do before it). */
  function ToInt32(x: int): (r: int)
    ensures InRange(r)
    ensures (x - r) % Modulus32 == 0
    ensures InRange(x) ==> r == x
  {
    var m := x % Modulus32;
    if m > MaxInt32 then m - Modulus32 else m
  }

  /** Truncating division by a positive divisor of a non-negative dividend is
      Dafny's division. */
  lemma QuotNonNegative(a: int, b: int)
    requires a >= 0 && b > 0
    ensures Quot(a, b) == a / b && Quot(a, b) >= 0
  {
  }
}
