/** GingerTemplate.Core.Extensions.IntExtensions: parity tests written with C#'s
    remainder operator, which truncates toward zero. */
module IntExtensions {

  /** C#'s `a / b` for `b > 0`: the quotient rounded toward zero. */
  function Quotient(a: int, b: int): int
    requires b > 0
  {
    if a >= 0 then a / b else -((-a) / b)
  }

  /** C#'s `a % b` for `b > 0`: the remainder takes the sign of `a`, and with
      the truncated quotient it rebuilds `a`, which fixes it uniquely. */
  function Remainder(a: int, b: int): (r: int)
    requires b > 0
    ensures -b < r < b
    ensures a >= 0 ==> r >= 0
    ensures a <= 0 ==> r <= 0
    ensures a == b * Quotient(a, b) + r
  {
    if a >= 0 then a % b else -((-a) % b)
  }

  /** `IsEven`: `number % 2 == 0`. */
  function IsEven(n: int): (r: bool)
    ensures r <==> n % 2 == 0
  {
    Remainder(n, 2) == 0
  }

  /** `IsOdd`: `number % 2 != 0`. */
  function IsOdd(n: int): (r: bool)
    ensures r <==> n % 2 == 1
  {
    Remainder(n, 2) != 0
  }

  /** Every integer is exactly one of even and odd. */
  lemma OddIsNotEven(n: int)
    ensures IsOdd(n) == !IsEven(n)
  {
  }

  /** A negative odd number has C# remainder -1, which the `!= 0` test still
      counts as odd. */
  lemma NegativeOdd(n: int)
    requires n < 0 && n % 2 == 1
    ensures Remainder(n, 2) == -1 && IsOdd(n)
  {
  }

  lemma ZeroIsEven()
    ensures IsEven(0) && !IsOdd(0) && IsOdd(-3) && IsEven(-4)
  {
  }
}
