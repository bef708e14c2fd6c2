/** Divisibility, greatest common divisors and least common multiples. */
module Divisibility {

  ghost predicate Divides(d: int, n: int) { exists k :: n == k * d }

  function Gcd(a: nat, b: nat): (g: nat)
    ensures a + b > 0 ==> g > 0
    decreases b
  {
    if b == 0 then a else Gcd(b, a % b)
  }

  lemma DividesTimes(d: int, n: int, k: int)
    requires Divides(d, n)
    ensures Divides(d, n * k) && Divides(d, k * n)
  {
    var q :| n == q * d;
    assert n * k == (q * k) * d;
    assert k * n == (q * k) * d;
  }

  lemma DividesSum(d: int, m: int, n: int)
    requires Divides(d, m) && Divides(d, n)
    ensures Divides(d, m + n)
  {
    var p :| m == p * d;
    var q :| n == q * d;
    assert m + n == (p + q) * d;
  }

  lemma DividesTransitive(a: int, b: int, c: int)
    requires Divides(a, b) && Divides(b, c)
    ensures Divides(a, c)
  {
    var p :| b == p * a;
    var q :| c == q * b;
    assert c == (q * p) * a;
  }

  lemma DividesSelf(a: int)
    ensures Divides(a, a)
  {
    assert a == 1 * a;
  }

  /** Divides and the remainder operator agree. */
  lemma DividesIffMod(d: int, n: int)
    requires d > 0
    ensures Divides(d, n) <==> n % d == 0
    ensures Divides(d, n) ==> (n / d) * d == n
  {
    if n % d == 0 {
      assert n == (n / d) * d;
    }
    if Divides(d, n) {
      var k :| n == k * d;
      ExactQuotient(k, d);
    }
  }

  lemma MultipleIsFar(d: int, m: int)
    requires m > 0
    ensures d == 0 || d * m >= m || d * m <= -m
  {
    if d >= 1 {
      assert (d - 1) * m >= 0;
    } else if d <= -1 {
      assert (-d - 1) * m >= 0;
    }
  }

  lemma QuotientUnique(q: int, r: int, q': int, r': int, m: int)
    requires m > 0 && 0 <= r < m && 0 <= r' < m && q * m + r == q' * m + r'
    ensures q == q' && r == r'
  {
    assert (q - q') * m == r' - r;
    MultipleIsFar(q - q', m);
  }

  lemma ExactQuotient(k: int, d: int)
    requires d > 0
    ensures (k * d) / d == k && (k * d) % d == 0
  {
    QuotientUnique((k * d) / d, (k * d) % d, k, 0, d);
  }

  lemma ModShift(x: int, k: int, m: int)
    requires m > 0
    ensures (x + k * m) % m == x % m
  {
    var q, r := x / m, x % m;
    assert x + k * m == (q + k) * m + r;
    QuotientUnique((x + k * m) / m, (x + k * m) % m, q + k, r, m);
  }

  lemma {:induction false} GcdDivides(a: nat, b: nat)
    ensures Divides(Gcd(a, b), a) && Divides(Gcd(a, b), b)
    decreases b
  {
    if b == 0 {
      DividesSelf(a);
      assert 0 == 0 * a;
    } else {
      var g := Gcd(b, a % b);
      GcdDivides(b, a % b);
      DividesTimes(g, b, a / b);
      DividesSum(g, b * (a / b), a % b);
    }
  }

  lemma {:induction false} Bezout(a: nat, b: nat) returns (u: int, v: int)
    ensures u * a + v * b == Gcd(a, b)
    decreases b
  {
    if b == 0 {
      u, v := 1, 0;
    } else {
      var u', v' := Bezout(b, a % b);
      u, v := v', u' - v' * (a / b);
      var q := a / b;
      assert a % b == a - q * b;
      assert v' * (a - q * b) == v' * a - (v' * q) * b;
      assert (u' - v' * q) * b == u' * b - (v' * q) * b;
    }
  }

  /** What the code computes: a / gcd * b. */
  function Lcm(a: nat, b: nat): int
    requires a > 0 && b > 0
  {
    a / Gcd(a, b) * b
  }

  lemma LcmIsMultiple(a: nat, b: nat)
    requires a > 0 && b > 0
    ensures Lcm(a, b) > 0 && Divides(a, Lcm(a, b)) && Divides(b, Lcm(a, b))
  {
    var g := Gcd(a, b);
    GcdDivides(a, b);
    DividesIffMod(g, a);
    DividesIffMod(g, b);
    var p, q := a / g, b / g;
    assert a == p * g && b == q * g;
    assert p * b == p * (q * g) == q * (p * g) == q * a;
    assert p > 0;
    assert p * b > 0;
  }

  lemma CombineMultiples(m: int, g: int, u: int, v: int, a: int, b: int, x: int, y: int)
    requires u * a + v * b == g && m == x * a && m == y * b
    ensures m * g == (u * y + v * x) * (a * b)
  {
    assert m * (u * a) == (y * b) * (u * a) == (u * y) * (a * b);
    assert m * (v * b) == (x * a) * (v * b) == (v * x) * (a * b);
    assert m * (u * a + v * b) == m * (u * a) + m * (v * b);
    assert (u * y + v * x) * (a * b) == (u * y) * (a * b) + (v * x) * (a * b);
  }

  lemma Regroup(w: int, p: int, g: int, b: int)
    ensures w * ((p * g) * b) == (w * (p * b)) * g
  {
    assert (p * g) * b == (p * b) * g;
  }

  /** ... and it divides every common multiple, so it is the least one. */
  lemma LcmIsLeast(a: nat, b: nat, m: int)
    requires a > 0 && b > 0 && Divides(a, m) && Divides(b, m)
    ensures Divides(Lcm(a, b), m)
  {
    var g := Gcd(a, b);
    var u, v := Bezout(a, b);
    GcdDivides(a, b);
    DividesIffMod(g, a);
    var x :| m == x * a;
    var y :| m == y * b;
    var p, w := a / g, u * y + v * x;
    CombineMultiples(m, g, u, v, a, b, x, y);
    Regroup(w, p, g, b);
    CancelFactor(m, w * (p * b), g);
  }

  lemma CancelFactor(a: int, b: int, g: int)
    requires g != 0 && a * g == b * g
    ensures a == b
  {
    assert (a - b) * g == 0;
  }
}
