/** Integer helpers of Functions.h and auxmath.hpp. */
module Arith {

  function Min(a: int, b: int): int {
    if a <= b then a else b
  }

  function Max(a: int, b: int): int {
    if a >= b then a else b
  }

  /** std::gcd on non-negative arguments. */
  function GCD(a: nat, b: nat): (g: nat)
    ensures g == 0 <==> a == 0 && b == 0
    decreases b
  {
    if b == 0 then a else GCD(b, a % b)
  }

  ghost predicate Divides(g: int, n: int) {
    exists k: int :: n == g * k
  }

  lemma DividesSum(g: int, a: int, b: int, q: int)
    requires Divides(g, a) && Divides(g, b)
    ensures Divides(g, a + q * b)
  {
    var k :| a == g * k;
    var m :| b == g * m;
    assert a + q * b == g * (k + q * m) by {
      assert q * (g * m) == g * (q * m);
    }
  }

  lemma DividesTrans(g: int, h: int, n: int)
    requires Divides(g, h) && Divides(h, n)
    ensures Divides(g, n)
  {
    var k :| h == g * k;
    var m :| n == h * m;
    assert n == g * (k * m);
  }

  /** The gcd divides both arguments and every common divisor divides it. */
  lemma {:induction false} GCDIsGreatest(a: nat, b: nat)
    ensures Divides(GCD(a, b), a) && Divides(GCD(a, b), b)
    ensures forall d: int :: Divides(d, a) && Divides(d, b) ==> Divides(d, GCD(a, b))
    decreases b
  {
    if b == 0 {
      assert a == a * 1 && 0 == a * 0;
    } else {
      var q, r := a / b, a % b;
      assert a == r + q * b && r == a + (-q) * b;
      GCDIsGreatest(b, r);
      DividesSum(GCD(a, b), r, b, q);
      forall d: int | Divides(d, a) && Divides(d, b)
        ensures Divides(d, GCD(a, b))
      {
        DividesSum(d, a, b, -q);
      }
    }
  }

  /** divisionRoundedUp (Functions.h:22-27). */
  function DivUp(n: int, c: int): (d: int)
    requires c > 0
    ensures (d - 1) * c < n <= d * c
  {
    var d := n / c;
    if d * c != n then d + 1 else d
  }

  function Abs(x: int): int {
    if x < 0 then -x else x
  }

  /** Division of machine integers: towards zero. */
  function TruncDiv(c: int, d: int): int
    requires d != 0
  {
    if d < 0 then (if c <= 0 then -c / -d else -(c / -d))
    else if c >= 0 then c / d else -((-c) / d)
  }

  /** divisionRoundedUp as written, for any non-zero divisor: rounds up where both arguments are positive. */
  function DivisionRoundedUp(n: int, c: int): (d: int)
    requires c != 0
    ensures n > 0 && c > 0 ==> d == DivUp(n, c)
    ensures n == c ==> d == 1
  {
    var d := TruncDiv(n, c);
    if d * c != n then d + 1 else d
  }

  lemma Distribute(k: int, x: int, y: int)
    ensures k * (x + y) == k * x + k * y && k * (x - y) == k * x - k * y && k * x == x * k
  {
  }

  lemma MulLeq(a: int, b: int, c: int)
    ensures a <= b && c >= 0 ==> a * c <= b * c
  {
    if a <= b && c >= 0 {
      assert (b - a) * c >= 0;
    }
  }

  lemma DivUpUnique(n: int, c: int, d: int)
    requires c > 0 && (d - 1) * c < n <= d * c
    ensures d == DivUp(n, c)
  {
    var e := DivUp(n, c);
    MulLeq(d, e - 1, c);
    MulLeq(e, d - 1, c);
  }

  lemma DivUpExact(k: int, c: int)
    requires c > 0
    ensures DivUp(c * k, c) == k
  {
    assert (k - 1) * c == c * k - c;
    DivUpUnique(c * k, c, k);
  }

  lemma DivUpMono(m: int, n: int, c: int)
    requires c > 0
    ensures m <= n ==> DivUp(m, c) <= DivUp(n, c)
  {
    MulLeq(DivUp(n, c), DivUp(m, c) - 1, c);
  }

  lemma DivUpPositive(n: int, c: int)
    requires c > 0 && n > 0
    ensures 1 <= DivUp(n, c) <= n
  {
    var d := DivUp(n, c);
    MulLeq(d, 0, c);
    MulLeq(n, d - 1, c);
    assert n * c >= n * 1 by { MulLeq(1, c, n); }
  }
}
