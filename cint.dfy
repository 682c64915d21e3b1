/** Arithmetic of C's 32-bit `int` (and of `long`, which is also 32 bits wide
    on the 32-bit ARM BeagleBone target): the range, and division and
    remainder that truncate toward zero as C99 requires. */
module CInt {

  const INT_MIN: int := -0x8000_0000
  const INT_MAX: int := 0x7FFF_FFFF

  /** x is representable in a 32-bit signed `int` / `long`. */
  predicate InInt(x: int) {
    INT_MIN <= x <= INT_MAX
  }

  function Max(a: int, b: int): int {
    if a < b then b else a
  }

  function Abs(x: int): int {
    if x < 0 then -x else x
  }

  /** C's `a / b`: the quotient truncated toward zero. */
  function Div(a: int, b: int): (q: int)
    requires b != 0
    ensures a >= 0 && b > 0 ==> q == a / b
  {
    if a >= 0 then
      (if b > 0 then a / b else -(a / -b))
    else
      (if b > 0 then -((-a) / b) else (-a) / (-b))
  }

  /** C's `a % b`: the remainder that goes with Div, signed like `a`. */
  function Mod(a: int, b: int): (r: int)
    requires b != 0
    ensures a == Div(a, b) * b + r
    ensures a >= 0 ==> 0 <= r < Abs(b)
    ensures a < 0 ==> -Abs(b) < r <= 0
  {
    DivModIdentity(a, b);
    if a >= 0 then a % Abs(b) else -((-a) % Abs(b))
  }

  lemma DivModIdentity(a: int, b: int)
    requires b != 0
    ensures a >= 0 ==> a == Div(a, b) * b + a % Abs(b)
    ensures a < 0 ==> a == Div(a, b) * b - (-a) % Abs(b)
  {
    var m := Abs(b);
    if a >= 0 {
      var q := a / m;
      assert a == q * m + a % m;
      if b > 0 {
        assert Div(a, b) == q;
      } else {
        assert Div(a, b) == -q;
        assert -q * b == q * m;
      }
    } else {
      var q := (-a) / m;
      assert -a == q * m + (-a) % m;
      if b > 0 {
        assert Div(a, b) == -q;
      } else {
        assert Div(a, b) == q;
        assert q * b == -(q * m);
      }
    }
  }
}
