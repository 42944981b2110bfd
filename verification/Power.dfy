/** `pow` on integers: pas_pow_int of runtime/pasrt.c against section 6.8.3.2 of ISO/IEC 10206, for
    every base and every exponent. */
module Power {
  const MAXINT := 0x7fff_ffff
  const LONG := 0x7fff_ffff_ffff_ffff

  type Integer = x: int | -MAXINT <= x <= MAXINT

  datatype Result = Ok(value: int) | ZeroBase | Overflow

  function Abs(x: int): nat { if x < 0 then -x else x }

  /** x pow y for y >= 0: x * (x pow (y - 1)), and x pow 0 is one. */
  function Pow(x: int, y: nat): int { if y == 0 then 1 else x * Pow(x, y - 1) }

  /** One divided by x as C divides: the quotient times x leaves a remainder smaller than x that is
      not negative, as one is not. */
  function OneDiv(x: int): (q: int)
    requires x != 0
    ensures 0 <= 1 - q * x < Abs(x)
  {
    if x == 1 || x == -1 then x else 0
  }

  /** The operator's value: for a negative exponent (1 div x) pow (-y). */
  function Exact(x: int, y: int): int
    requires x != 0 || y > 0
  {
    if y >= 0 then Pow(x, y) else Pow(OneDiv(x), -y)
  }

  lemma {:induction false} PowZero(y: nat)
    requires y > 0
    ensures Pow(0, y) == 0
  {
  }

  /** A partial product is never larger than a later one. */
  lemma {:induction false} PartialProducts(x: int, i: nat, y: nat)
    requires x != 0 && i <= y
    ensures 0 < Abs(Pow(x, i)) <= Abs(Pow(x, y))
  {
    if i < y {
      PartialProducts(x, i, y - 1);
      AbsTimes(x, Pow(x, y - 1));
    } else if y > 0 {
      PartialProducts(x, i - 1, y - 1);
      AbsTimes(x, Pow(x, y - 1));
    }
  }

  lemma AbsTimes(x: int, p: int)
    requires x != 0
    ensures Abs(p) <= Abs(x * p) == Abs(x) * Abs(p)
  {
    Signs(x, p);
    var a, b := Abs(x), Abs(p);
    Signs(a, b);
    Mono(1, a, b);
  }

  lemma Mono(a: int, b: int, c: int)
    requires a <= b && 0 <= c
    ensures a * c <= b * c
  {
  }

  lemma Signs(x: int, p: int)
    ensures -x * p == -(x * p) && x * -p == -(x * p) && -x * -p == x * p
  {
  }

  lemma Product(acc: int, x: int)
    requires -MAXINT <= acc <= MAXINT && -MAXINT <= x <= MAXINT
    ensures -LONG <= acc * x <= LONG
  {
    if x == 0 { return; }
    AbsTimes(x, acc);
    Mono(Abs(x), MAXINT, Abs(acc));
  }

  /** pas_pow_int: the exact value, or a trap on a zero base with y <= 0 and on a value outside the
      type, and on nothing else; the accumulator stays inside its 64 bits. */
  method PowInt(x0: Integer, y0: Integer) returns (r: Result)
    ensures r == if x0 == 0 && y0 <= 0 then ZeroBase
                 else if Abs(Exact(x0, y0)) > MAXINT then Overflow
                 else Ok(Exact(x0, y0))
  {
    hide Pow;
    var x: int, y: int := x0, y0;
    if x == 0 && y <= 0 { return ZeroBase; }
    if x == 0 {
      PowZero(y);
      return Ok(0);
    }
    if y == 0 {
      PowStep(x, 0);
      return Ok(1);
    }
    if y < 0 {
      x := OneDiv(x);
      y := -y;
      if x == 0 {
        PowZero(y);
        return Ok(0);
      }
    }
    var acc := 1;
    PowStep(x, 0);
    var i: nat := 0;
    while i < y
      invariant i <= y && acc == Pow(x, i) && -MAXINT <= acc <= MAXINT
    {
      Product(acc, x);
      assert -LONG <= acc * x <= LONG;
      acc := acc * x;
      i := i + 1;
      PowStep(x, i - 1);
      if acc > MAXINT || acc < -MAXINT {
        PartialProducts(x, i, y);
        return Overflow;
      }
    }
    return Ok(acc);
  }

  lemma PowStep(x: int, i: nat)
    ensures Pow(x, 0) == 1 && Pow(x, i + 1) == Pow(x, i) * x
  {
  }

  lemma {:induction false} PowDouble(b: int, e: nat)
    ensures Pow(b * b, e) == Pow(b, 2 * e)
  {
    if e > 0 {
      PowDouble(b, e - 1);
      assert Pow(b, 2 * e) == b * (b * Pow(b, 2 * e - 2));
      assert b * (b * Pow(b, 2 * e - 2)) == b * b * Pow(b, 2 * e - 2);
    }
  }

  /** The specification's own loop, by repeated squaring, computes the same power. */
  method ExactPower(x: int, e0: nat) returns (result: int)
    ensures result == Pow(x, e0)
  {
    result := 1;
    var base, e := x, e0;
    while e > 0
      invariant result * Pow(base, e) == Pow(x, e0)
    {
      if e % 2 == 1 {
        Regroup(result, base, Pow(base, e - 1));
        result := result * base;
        e := e - 1;
      }
      PowDouble(base, e / 2);
      e := e / 2;
      base := base * base;
    }
  }

  lemma Regroup(a: int, b: int, c: int)
    ensures a * (b * c) == a * b * c
  {
  }
}
