/** Integer operators of C# that differ from Dafny's.

    Dafny's `/` and `%` are Euclidean; C# truncates the quotient toward zero, so
    its remainder takes the sign of the dividend.  The move arithmetic of the
    solver (`move % 6`, `m / 6`, `x % 2`) is modelled with these two functions
    wherever the source accepts arbitrary integers.  Every divisor in the
    solver is a positive constant. */
module CSharpInt {

  /** C#'s `a / b` on `int` for a positive divisor: the quotient truncated toward zero. */
  function CsDiv(a: int, b: int): (q: int)
    requires b > 0
    ensures a >= 0 ==> 0 <= q && q * b <= a < q * b + b
    ensures a < 0 ==> q <= 0 && q * b - b < a <= q * b
  {
    if a >= 0 then a / b else -((-a) / b)
  }

  /** C#'s `a % b` on `int` for a positive divisor: it has the sign of `a`. */
  function CsRem(a: int, b: int): (r: int)
    requires b > 0
    ensures a >= 0 ==> r == a % b
    ensures a < 0 ==> -b < r <= 0
  {
    if a >= 0 then a % b else -((-a) % b)
  }

  /** The two operators agree with each other as C# requires. */
  lemma CsDivRem(a: int, b: int)
    requires b > 0
    ensures a == CsDiv(a, b) * b + CsRem(a, b)
  {
  }

  const TwoTo32: int := 0x1_0000_0000
  const TwoTo31: int := 0x8000_0000

  /** The 32-bit two's-complement value of an unbounded integer: C#'s unchecked
      `int` arithmetic. */
  function Wrap32(v: int): (r: int)
    ensures -TwoTo31 <= r < TwoTo31
    ensures (r - v) % TwoTo32 == 0
    ensures -TwoTo31 <= v < TwoTo31 ==> r == v
  {
    (v + TwoTo31) % TwoTo32 - TwoTo31
  }

  function Pow2(n: nat): (p: nat)
    ensures p >= 1
  {
    if n == 0 then 1 else 2 * Pow2(n - 1)
  }

  lemma {:induction false} Pow2Increasing(a: nat, b: nat)
    requires a < b
    ensures Pow2(a) < Pow2(b)
  {
    if a < b - 1 {
      Pow2Increasing(a, b - 1);
    }
  }

  lemma Pow2Range(n: nat)
    requires n <= 31
    ensures n < 31 ==> Pow2(n) < TwoTo31
    ensures n == 31 ==> Pow2(n) == TwoTo31
  {
    assert Pow2(8) == 0x100;
    assert Pow2(16) == 0x1_0000;
    assert Pow2(24) == 0x100_0000;
    assert Pow2(31) == TwoTo31;
    if n < 31 {
      Pow2Increasing(n, 31);
    }
  }

  /** C#'s `1 << n` on `int`: the shift count is taken modulo 32 (`n & 31`,
      which is the Euclidean remainder also for a negative n) and bit 31 is the
      sign bit. */
  function ShiftOne(n: int): (r: int)
    ensures 0 <= n < 31 ==> r == Pow2(n)
    ensures n == 31 ==> r == -TwoTo31
  {
    Pow2Range(n % 32);
    Wrap32(Pow2(n % 32))
  }
}
