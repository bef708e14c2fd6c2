/** av_gcd: the binary algorithm computes the greatest common divisor. */
module BinaryGcd {
  import opened Divisibility

  function Abs(n: int): nat { if n < 0 then -n else n }

  function Pow2(k: nat): (p: nat)
    ensures p > 0
  {
    if k == 0 then 1 else 2 * Pow2(k - 1)
  }

  /** The number of trailing zero bits. */
  function Ctz(n: int): nat
    requires n != 0
    decreases Abs(n)
  {
    if n % 2 != 0 then 0 else 1 + Ctz(n / 2)
  }

  /** An arithmetic right shift. */
  function Shr(n: int, k: nat): int { n / Pow2(k) }

  lemma {:induction false} CtzSplits(n: int)
    requires n != 0
    ensures n == Shr(n, Ctz(n)) * Pow2(Ctz(n)) && Shr(n, Ctz(n)) % 2 == 1
    decreases Abs(n)
  {
    if n % 2 == 0 {
      var k, p := Ctz(n / 2), Pow2(Ctz(n / 2));
      CtzSplits(n / 2);
      var odd := Shr(n / 2, k);
      assert n == 2 * (odd * p) == odd * (2 * p) by {
        Rearrange(2, odd, p);
      }
      ExactQuotient(odd, 2 * p);
    }
  }

  lemma Rearrange(a: int, b: int, c: int)
    ensures a * (b * c) == b * (a * c)
  {
  }

  // ------------------------------------------------- what keeps the divisor

  lemma GcdIsGreatest(d: int, a: nat, b: nat)
    requires Divides(d, a) && Divides(d, b)
    ensures Divides(d, Gcd(a, b))
  {
    var u, v := Bezout(a, b);
    DividesTimes(d, a, u);
    DividesTimes(d, b, v);
    DividesSum(d, u * a, v * b);
  }

  lemma Antisymmetric(a: nat, b: nat)
    requires Divides(a, b) && Divides(b, a)
    ensures a == b
  {
    var k :| b == k * a;
    var j :| a == j * b;
    if a > 0 && b > 0 {
      assert k > 0 && j > 0;
      assert b >= a && a >= b;
    }
  }

  /** Pairs that divide each other's divisors have the same one. */
  lemma SameGcd(a: nat, b: nat, c: nat, d: nat)
    requires Divides(Gcd(a, b), c) && Divides(Gcd(a, b), d)
    requires Divides(Gcd(c, d), a) && Divides(Gcd(c, d), b)
    ensures Gcd(a, b) == Gcd(c, d)
  {
    GcdIsGreatest(Gcd(a, b), c, d);
    GcdIsGreatest(Gcd(c, d), a, b);
    Antisymmetric(Gcd(a, b), Gcd(c, d));
  }

  lemma GcdSwaps(a: nat, b: nat)
    ensures Gcd(a, b) == Gcd(b, a)
  {
    GcdDivides(a, b);
    GcdDivides(b, a);
    SameGcd(a, b, b, a);
  }

  lemma GcdOfDifference(u: nat, v: nat)
    requires u <= v
    ensures Gcd(u, v - u) == Gcd(u, v)
  {
    GcdDivides(u, v - u);
    GcdDivides(u, v);
    var g, h := Gcd(u, v - u), Gcd(u, v);
    DividesSum(g, u, v - u);
    DividesTimes(h, u, -1);
    DividesSum(h, v, u * -1);
    SameGcd(u, v - u, u, v);
  }

  lemma OddFactor(k: int, g: int)
    requires (k * g) % 2 == 1
    ensures g % 2 == 1
  {
    var h := g / 2;
    Rearrange(k, 2, h);
    Distribute(k, 2 * h, g % 2);
  }

  /** A divisor of an odd number that divides 2w divides w. */
  lemma OddDivisor(g: nat, u: nat, w: nat)
    requires u % 2 == 1 && Divides(g, u) && Divides(g, 2 * w)
    ensures Divides(g, w)
  {
    var k :| u == k * g;
    OddFactor(k, g);
    var h := g / 2;
    DividesTimes(g, 2 * w, -h);
    DividesSelf(g);
    DividesTimes(g, g, w);
    DividesSum(g, g * w, (2 * w) * -h);
    Spread(h, w);
  }

  lemma Spread(h: int, w: int)
    ensures (2 * h + 1) * w + (2 * w) * -h == w
  {
  }

  lemma GcdOfHalf(u: nat, w: nat)
    requires u % 2 == 1
    ensures Gcd(u, 2 * w) == Gcd(u, w)
  {
    GcdDivides(u, w);
    GcdDivides(u, 2 * w);
    OddDivisor(Gcd(u, 2 * w), u, w);
    DividesTimes(Gcd(u, w), w, 2);
    SameGcd(u, 2 * w, u, w);
  }

  lemma {:induction false} GcdOfShifted(u: nat, w: nat, k: nat)
    requires u % 2 == 1
    ensures Gcd(u, w * Pow2(k)) == Gcd(u, w)
  {
    if k > 0 {
      var rest: nat := w * Pow2(k - 1);
      assert w * Pow2(k) == 2 * rest by {
        Rearrange(w, 2, Pow2(k - 1));
      }
      GcdOfHalf(u, rest);
      GcdOfShifted(u, w, k - 1);
    }
  }

  lemma DividesScaled(d: int, n: int, c: int)
    requires Divides(d, n)
    ensures Divides(c * d, c * n)
  {
    var k :| n == k * d;
    Rearrange(c, k, d);
    assert c * n == k * (c * d);
  }

  lemma GcdScales(a: nat, b: nat, c: nat)
    ensures Gcd(c * a, c * b) == c * Gcd(a, b)
  {
    var g, h := Gcd(a, b), Gcd(c * a, c * b);
    GcdDivides(a, b);
    DividesScaled(g, a, c);
    DividesScaled(g, b, c);
    GcdIsGreatest(c * g, c * a, c * b);
    var u, v := Bezout(a, b);
    GcdDivides(c * a, c * b);
    DividesTimes(h, c * a, u);
    DividesTimes(h, c * b, v);
    DividesSum(h, u * (c * a), v * (c * b));
    Rearrange(c, u, a);
    Rearrange(c, v, b);
    Distribute(c, u * a, v * b);
    Antisymmetric(c * g, h);
  }

  lemma Distribute(c: int, x: int, y: int)
    ensures c * (x + y) == c * x + c * y
  {
  }

  lemma {:induction false} Pow2Splits(k: nat, j: nat)
    ensures Pow2(k + j) == Pow2(k) * Pow2(j)
    decreases k
  {
    if k > 0 {
      Pow2Splits(k - 1, j);
      Regroup3(2, Pow2(k - 1), Pow2(j));
      assert Pow2(k + j) == 2 * Pow2(k - 1 + j);
    }
  }

  lemma Regroup3(a: int, b: int, c: int)
    ensures a * (b * c) == (a * b) * c && (a * b) * c == b * (c * a)
  {
  }

  lemma Commutes(a: int, b: int)
    ensures a * b == b * a
  {
  }

  lemma GcdOfOrderedParts(u: nat, v: nat, i: nat, j: nat)
    requires u % 2 == 1 && i <= j
    ensures Gcd(u * Pow2(i), v * Pow2(j)) == Gcd(u, v) * Pow2(i)
  {
    var p, w := Pow2(i), v * Pow2(j - i);
    calc {
      v * Pow2(j);
      { Pow2Splits(i, j - i); }
      v * (p * Pow2(j - i));
      { Rearrange(v, p, Pow2(j - i)); }
      p * w;
    }
    Commutes(u, p);
    Commutes(Gcd(u, v), p);
    GcdScales(u, w, p);
    GcdOfShifted(u, v, j - i);
  }

  /** The powers of two and the odd parts are treated separately. */
  lemma GcdOfParts(u: nat, v: nat, i: nat, j: nat)
    requires u % 2 == 1 && v % 2 == 1
    ensures Gcd(u * Pow2(i), v * Pow2(j)) == Gcd(u, v) * Pow2(if i < j then i else j)
  {
    if i <= j {
      GcdOfOrderedParts(u, v, i, j);
    } else {
      GcdOfOrderedParts(v, u, j, i);
      GcdSwaps(u, v);
      GcdSwaps(u * Pow2(i), v * Pow2(j));
    }
  }

  /** The number without its trailing zero bits and its sign. */
  function OddPart(n: int): nat
    requires n != 0
  {
    Abs(Shr(n, Ctz(n)))
  }

  lemma OddPartSplits(n: int)
    requires n != 0
    ensures Abs(n) == OddPart(n) * Pow2(Ctz(n)) && OddPart(n) % 2 == 1 && 0 < OddPart(n) <= Abs(n)
  {
    CtzSplits(n);
    AbsProduct(Shr(n, Ctz(n)), Pow2(Ctz(n)));
    Shrinks(OddPart(n), Pow2(Ctz(n)));
  }

  /** What is left to compute after the zeros are counted. */
  lemma GcdFromOddParts(a: int, b: int)
    requires a != 0 && b != 0
    ensures OddPart(a) % 2 == 1 && OddPart(b) % 2 == 1
    ensures var k := if Ctz(a) < Ctz(b) then Ctz(a) else Ctz(b);
            Gcd(Abs(a), Abs(b)) == Gcd(OddPart(a), OddPart(b)) * Pow2(k)
  {
    OddPartSplits(a);
    OddPartSplits(b);
    GcdOfParts(OddPart(a), OddPart(b), Ctz(a), Ctz(b));
  }

  /** One round of the loop: subtract, and shift the zeros out. */
  lemma GcdStep(u: nat, v: nat)
    requires u < v && u % 2 == 1
    ensures var w := OddPart(v - u);
            Gcd(u, w) == Gcd(u, v) && w % 2 == 1 && 0 < w < v
  {
    GcdOfDifference(u, v);
    OddPartSplits(v - u);
    GcdOfShifted(u, OddPart(v - u), Ctz(v - u));
  }

  lemma {:induction false} GcdOfEqual(u: nat)
    requires u > 0
    ensures Gcd(u, u) == u
  {
    assert u % u == 0 && Gcd(u, 0) == u;
  }

  ghost predicate OddPair(u: nat, v: nat, g: nat) {
    u % 2 == 1 && v % 2 == 1 && Gcd(u, v) == g
  }

  lemma OddPairSwaps(u: nat, v: nat, g: nat)
    requires OddPair(u, v, g)
    ensures OddPair(v, u, g)
  {
    GcdSwaps(u, v);
  }

  lemma OddPairSteps(u: nat, v: nat, g: nat)
    requires OddPair(u, v, g) && u < v
    ensures OddPair(u, OddPart(v - u), g) && OddPart(v - u) < v
  {
    GcdStep(u, v);
  }

  lemma OddPairEnds(u: nat, g: nat)
    requires OddPair(u, u, g)
    ensures u == g
  {
    GcdOfEqual(u);
  }

  // ------------------------------------------------------------ the algorithm

  /** The loop. */
  method OddGcd(a: nat, b: nat) returns (r: nat)
    requires a % 2 == 1 && b % 2 == 1
    ensures r == Gcd(a, b)
  {
    var u, v := a, b;
    ghost var g := Gcd(a, b);
    while u != v
      invariant OddPair(u, v, g)
      decreases u + v
    {
      if u > v {
        OddPairSwaps(u, v, g);
        v, u := u, v;
      }
      OddPairSteps(u, v, g);
      v := v - u;
      v := OddPart(v);
    }
    OddPairEnds(u, g);
    r := u;
  }

  method AvGcd(a: int, b: int) returns (r: int)
    ensures a == 0 ==> r == b
    ensures b == 0 ==> r == a
    ensures a != 0 && b != 0 ==> r == Gcd(Abs(a), Abs(b))
  {
    if a == 0 {
      return b;
    }
    if b == 0 {
      return a;
    }
    var za, zb := Ctz(a), Ctz(b);
    GcdFromOddParts(a, b);
    var u := OddGcd(OddPart(a), OddPart(b));
    r := u * Pow2(if za < zb then za else zb);
  }

  lemma AbsProduct(x: int, p: nat)
    ensures Abs(x * p) == Abs(x) * p
  {
    if x < 0 {
      assert -(x * p) == (-x) * p;
    }
  }

  lemma Shrinks(x: int, p: nat)
    requires p > 0 && x * p > 0
    ensures 0 < x <= x * p
  {
  }
}
