/**
 * Integer division and remainder as Go and JavaScript define them: both truncate the
 * quotient toward zero, so the remainder takes the sign of the dividend.
 */
module Numeric {

  function Abs(x: int): nat {
    if x < 0 then -x else x
  }

  /** Go's `a / b` and JavaScript's `Math.trunc(a / b)` for integers, `b != 0`. */
  function TruncDiv(a: int, b: int): (q: int)
    requires b != 0
    ensures Abs(q) * Abs(b) <= Abs(a) < (Abs(q) + 1) * Abs(b)
    ensures q == 0 || (q < 0 <==> (a < 0) != (b < 0))
  {
    var x, y := Abs(a), Abs(b);
    var q := x / y;
    EuclidBounds(x, y);
    assert q >= 0;
    if (a < 0) == (b < 0) then
      assert Abs(q) == q;
      q
    else
      assert Abs(-q) == q;
      -q
  }

  lemma EuclidBounds(x: nat, y: nat)
    requires y > 0
    ensures (x / y) * y <= x < (x / y + 1) * y
  {
    assert x == (x / y) * y + x % y;
  }

  /** `Math.floor(t / d)` for a positive divisor is Dafny's `t / d`, even for a negative `t`. */
  lemma FloorBounds(t: int, d: int)
    requires d > 0
    ensures (t / d) * d <= t < (t / d + 1) * d
  {
    assert t == (t / d) * d + t % d;
  }

  /** Go's and JavaScript's `a % b` for integers, `b != 0`. */
  function TruncRem(a: int, b: int): (r: int)
    requires b != 0
    ensures a == TruncDiv(a, b) * b + r
    ensures Abs(r) < Abs(b)
    ensures r == 0 || (r < 0 <==> a < 0)
  {
    a - TruncDiv(a, b) * b
  }

  /** On non-negative operands truncation and Dafny's Euclidean division agree. */
  lemma TruncMatchesEuclid(a: int, b: int)
    requires a >= 0 && b > 0
    ensures TruncDiv(a, b) == a / b && TruncRem(a, b) == a % b
  {
  }

  /** `Math.ceil(a / b)` for integers and a positive divisor. */
  function CeilDiv(a: int, b: int): (q: int)
    requires b > 0
    ensures (q - 1) * b < a <= q * b
  {
    if a % b == 0 then a / b else a / b + 1
  }

  /** `s.reduce((acc, x) => acc + f(x), 0)`. */
  function Sum<T>(s: seq<T>, f: T -> int): int {
    if s == [] then 0 else Sum(s[..|s| - 1], f) + f(s[|s| - 1])
  }

  /** Summing a list in two parts adds the parts' sums. */
  lemma {:induction false} SumAppend<T>(a: seq<T>, b: seq<T>, f: T -> int)
    ensures Sum(a + b, f) == Sum(a, f) + Sum(b, f)
    decreases |b|
  {
    if b == [] {
      assert a + b == a;
    } else {
      assert (a + b)[..|a + b| - 1] == a + b[..|b| - 1];
      SumAppend(a, b[..|b| - 1], f);
    }
  }

  /** A sum of terms none of which is negative is not negative. */
  lemma {:induction false} SumNonNegative<T>(s: seq<T>, f: T -> int)
    ensures (forall k :: 0 <= k < |s| ==> f(s[k]) >= 0) ==> Sum(s, f) >= 0
    decreases |s|
  {
    if s != [] {
      var front := s[..|s| - 1];
      assert forall k :: 0 <= k < |front| ==> front[k] == s[k];
      SumNonNegative(front, f);
    }
  }
}
