/**
 Arithmetic for the hash of an index: division, primes, and a certificate that the modulus of the hash is one. If some
 power of b modulo p is 1, and no smaller one of those that the certificate names, then b has so many different powers
 modulo every divisor of p that no divisor is small.
 */
module Primes {
  lemma ModUnique(x: int, p: int, q: int, r: int)
    requires p > 0 && x == q * p + r && 0 <= r < p
    ensures x % p == r && x / p == q
  {
    var d := x / p;
    SmallMultiple(q - d, p, x % p - r);
  }

  lemma SmallMultiple(k: int, p: int, x: int)
    requires p > 0 && k * p == x && -p < x < p
    ensures k == 0
  {
    if k >= 1 {
      AtLeast(k, p);
    } else if k <= -1 {
      AtLeast(-k, p);
    }
  }

  lemma AtLeast(k: int, p: int)
    requires k >= 1 && p > 0
    ensures k * p >= p
  {
  }

  ghost predicate Divides(p: int, x: int)
    requires p > 0
  {
    x % p == 0
  }

  ghost predicate Prime(p: int) {
    p > 1 && forall k | 2 <= k < p :: p % k != 0
  }

  lemma DividesTimes(p: int, x: int, k: int)
    requires p > 0 && Divides(p, x)
    ensures Divides(p, k * x)
  {
    var q := x / p;
    assert k * x == (k * q) * p;
    ModUnique(k * x, p, k * q, 0);
  }

  lemma DividesDifference(p: int, x: int, y: int)
    requires p > 0
    ensures Divides(p, x - y) <==> x % p == y % p
  {
    var q := x / p - y / p;
    assert x - y == q * p + (x % p - y % p);
    if x % p >= y % p {
      ModUnique(x - y, p, q, x % p - y % p);
    } else {
      assert x - y == (q - 1) * p + (x % p - y % p + p);
      ModUnique(x - y, p, q - 1, x % p - y % p + p);
    }
  }

  /** A prime that divides a*d with 0 < a < p divides d: replace a by p mod a until it is 1. */
  lemma {:induction false} PrimeDividesFactor(p: int, a: int, d: int)
    requires Prime(p) && 1 <= a < p && Divides(p, a * d)
    ensures Divides(p, d)
    decreases a
  {
    if a > 1 {
      var r, k := p % a, p / a;
      assert r * d == p * d - k * (a * d) by {
        assert p == k * a + r;
      }
      DividesTimes(p, a * d, k);
      ModUnique(p * d, p, d, 0);
      DividesDifference(p, p * d, k * (a * d));
      PrimeDividesFactor(p, r, d);
    }
  }

  // ----- Powers modulo r -----

  function Times(x: nat, y: nat, r: nat): (z: nat)
    requires r > 1
    ensures z < r
  {
    x * y % r
  }

  function Power(b: nat, n: nat, r: nat): (x: nat)
    requires r > 1
    ensures x < r
  {
    if n == 0 then 1 else Times(Power(b, n - 1, r), b, r)
  }

  /** A factor may be reduced first. */
  lemma ModFactor(x: nat, y: nat, r: nat)
    requires r > 1
    ensures Times(x % r, y, r) == Times(x, y, r)
  {
    var q := x / r;
    assert x * y == (q * y) * r + (x % r) * y;
    DividesDifference(r, x * y, (x % r) * y);
    ModUnique(x * y - (x % r) * y, r, q * y, 0);
  }

  lemma TimesSwaps(x: nat, y: nat, r: nat)
    requires r > 1
    ensures Times(x, y, r) == Times(y, x, r)
  {
    assert x * y == y * x;
  }

  lemma TimesOne(x: nat, r: nat)
    requires r > 1 && x < r
    ensures Times(x, 1, r) == x == Times(1, x, r)
  {
  }

  lemma TimesJoins(x: nat, y: nat, z: nat, r: nat)
    requires r > 1
    ensures Times(Times(x, y, r), z, r) == Times(x, Times(y, z, r), r)
  {
    ModFactor(x * y, z, r);
    ModFactor(y * z, x, r);
    TimesSwaps(Times(y, z, r), x, r);
    assert (x * y) * z == (y * z) * x;
  }

  lemma {:induction false} PowerAdds(b: nat, i: nat, j: nat, r: nat)
    requires r > 1
    ensures Power(b, i + j, r) == Times(Power(b, i, r), Power(b, j, r), r)
  {
    hide Times;
    if j == 0 {
      TimesOne(Power(b, i, r), r);
    } else {
      PowerAdds(b, i, j - 1, r);
      TimesJoins(Power(b, i, r), Power(b, j - 1, r), b, r);
    }
  }

  lemma {:induction false} PowerOfPower(b: nat, i: nat, j: nat, r: nat)
    requires r > 1
    ensures Power(b, i * j, r) == Power(Power(b, i, r), j, r)
  {
    if j > 0 {
      PowerOfPower(b, i, j - 1, r);
      assert i * j == i * (j - 1) + i;
      PowerAdds(b, i * (j - 1), i, r);
    }
  }

  lemma {:induction false} PowerOfOne(n: nat, r: nat)
    requires r > 1
    ensures Power(1, n, r) == 1
  {
    if n > 0 {
      PowerOfOne(n - 1, r);
      TimesOne(1, r);
    }
  }

  lemma Reduced(x: nat, r: nat)
    requires x < r
    ensures x % r == x
  {
  }

  /** Powers modulo p are powers modulo each of its divisors. */
  lemma {:induction false} PowerOfDivisor(b: nat, n: nat, r: nat, p: nat)
    requires r > 1 && p > 1 && Divides(r, p)
    ensures Power(b, n, p) % r == Power(b, n, r)
  {
    hide Times, Divides;
    if n > 0 {
      PowerOfDivisor(b, n - 1, r, p);
      TimesOfDivisor(Power(b, n - 1, p), b, r, p);
      ModFactor(Power(b, n - 1, p), b, r);
    } else {
      Reduced(1, r);
    }
  }

  lemma TimesOfDivisor(x: nat, y: nat, r: nat, p: nat)
    requires r > 1 && p > 1 && Divides(r, p)
    ensures Times(x, y, p) % r == Times(x, y, r)
  {
    ModOfDivisor(x * y, r, p);
  }

  lemma ModOfDivisor(x: nat, r: nat, p: nat)
    requires r > 1 && p > 1 && Divides(r, p)
    ensures x % p % r == x % r
  {
    var q := x / p;
    DividesTimes(r, p, q);
    assert x - x % p == q * p;
    DividesDifference(r, x, x % p);
  }

  // ----- Orders of powers -----

  /** A number with c^q == 1 for a prime q and c^d == 1 for a smaller d is 1. */
  lemma {:induction false} OrderIsOne(c: nat, q: nat, d: nat, r: nat)
    requires r > 1 && c < r && Prime(q) && 1 <= d < q
    requires Power(c, q, r) == 1 && Power(c, d, r) == 1
    ensures c == 1
    decreases d
  {
    if d == 1 {
      TimesOne(c, r);
    } else {
      var a, k := q % d, q / d;
      assert q == d * k + a;
      RestIsOne(c, d, k, a, r);
      OrderIsOne(c, q, a, r);
    }
  }

  /** If c^d and c^(d*k + a) are 1, so is c^a. */
  lemma RestIsOne(c: nat, d: nat, k: nat, a: nat, r: nat)
    requires r > 1 && Power(c, d, r) == 1 && Power(c, d * k + a, r) == 1
    ensures Power(c, a, r) == 1
  {
    hide Power, Times;
    PowerAdds(c, d * k, a, r);
    PowerOfPower(c, d, k, r);
    PowerOfOne(k, r);
    TimesOne(Power(c, a, r), r);
  }

  lemma PowersSwap(b: nat, n: nat, d: nat, r: nat)
    requires r > 1 && Power(b, d, r) == 1
    ensures Power(Power(b, n, r), d, r) == 1
  {
    hide Power, Times;
    PowerOfPower(b, n, d, r);
    PowerOfPower(b, d, n, r);
    PowerOfOne(n, r);
    assert n * d == d * n;
  }

  lemma ExponentsMeet(c: nat, q: nat, d: nat, r: nat)
    requires r > 1 && c < r && Prime(q) && q > 1 && d % q != 0
    requires Power(c, q, r) == 1 && Power(c, d, r) == 1
    ensures c == 1
  {
    hide Power, Times, Prime;
    var a, k := d % q, d / q;
    assert d == q * k + a;
    RestIsOne(c, q, k, a, r);
    OrderIsOne(c, q, a, r);
  }

  /** If b^d == 1, a prime q does not divide d, and b^(n*q) == 1, then already b^n == 1. */
  lemma FactorDrops(b: nat, d: nat, q: nat, n: nat, r: nat)
    requires r > 1 && Prime(q) && q > 1 && d % q != 0
    requires Power(b, d, r) == 1 && Power(b, n * q, r) == 1
    ensures Power(b, n, r) == 1
  {
    hide Power, Times, Prime;
    PowerOfPower(b, n, q, r);
    PowersSwap(b, n, d, r);
    ExponentsMeet(Power(b, n, r), q, d, r);
  }

  // ----- The certificate -----

  /** u shows that x - 1 is invertible modulo p, so x is 1 modulo no divisor of p. */
  predicate Apart(x: nat, u: nat, p: nat)
    requires p > 1
  {
    Times(x + p - 1, u, p) == 1
  }

  /** b has order q1 * q2 modulo p, and its powers q1 and q2 are apart from 1. */
  ghost predicate Certified(p: nat, b: nat, q1: nat, q2: nat, u1: nat, u2: nat) {
    && p > 1 && 1 < q1 < q2 && Prime(q1) && Prime(q2)
    && Power(b, q1 * q2, p) == 1
    && Apart(Power(b, q1, p), u1, p)
    && Apart(Power(b, q2, p), u2, p)
  }

  lemma OneLessDivides(x: nat, p: nat, r: nat)
    requires r > 1 && Divides(r, p) && x % r == 1
    ensures Divides(r, x + p - 1)
  {
    assert x + p - 1 == (x / r + p / r) * r;
    ModUnique(x + p - 1, r, x / r + p / r, 0);
  }

  lemma ApartFromOne(x: nat, u: nat, p: nat, r: nat)
    requires p > 1 && r > 1 && Divides(r, p) && Apart(x, u, p)
    ensures x % r != 1
  {
    if x % r == 1 {
      OneLessDivides(x, p, r);
      MultipleIsNotOne(x + p - 1, u, p, r);
      assert false;
    }
  }

  lemma MultipleIsNotOne(y: nat, u: nat, p: nat, r: nat)
    requires p > 1 && r > 1 && Divides(r, p) && Divides(r, y)
    ensures Times(y, u, p) != 1
  {
    DividesTimes(r, y, u);
    assert u * y == y * u;
    ModOfDivisor(y * u, r, p);
  }

  /** Modulo a divisor of p the powers below q1 * q2 are different from 1, except the first. */
  lemma PowersApart(p: nat, b: nat, q1: nat, q2: nat, u1: nat, u2: nat, r: nat, d: nat)
    requires Certified(p, b, q1, q2, u1, u2) && r > 1 && Divides(r, p)
    requires 0 < d < q1 * q2
    ensures Power(b, d, r) != 1
  {
    hide Power, Times, Apart, Prime;
    PowerOfDivisor(b, q1 * q2, r, p);
    PowerOfDivisor(b, q1, r, p);
    PowerOfDivisor(b, q2, r, p);
    ApartFromOne(Power(b, q1, p), u1, p, r);
    ApartFromOne(Power(b, q2, p), u2, p, r);
    Reduced(1, r);
    if Power(b, d, r) == 1 {
      NotBothDivide(q1, q2, d);
      if d % q2 != 0 {
        FactorDrops(b, d, q2, q1, r);
      } else {
        assert q2 * q1 == q1 * q2;
        FactorDrops(b, d, q1, q2, r);
      }
      assert false;
    }
  }

  lemma NotBothDivide(q1: nat, q2: nat, d: nat)
    requires Prime(q1) && Prime(q2) && q1 < q2 && 0 < d < q1 * q2
    ensures d % q1 != 0 || d % q2 != 0
  {
    if d % q1 == 0 && d % q2 == 0 {
      var k := d / q1;
      assert d == q1 * k;
      PrimeDividesFactor(q2, q1, k);
      assert k == q2 * (k / q2) && k / q2 >= 1;
      AtLeast(k / q2, q2);
      ProductsGrow(q2, k, q1, q1);
      assert false;
    }
  }

  /** All these powers are different modulo a divisor of p. */
  lemma PowersDistinct(p: nat, b: nat, q1: nat, q2: nat, u1: nat, u2: nat, r: nat, i: nat, j: nat)
    requires Certified(p, b, q1, q2, u1, u2) && r > 1 && Divides(r, p)
    requires i < j < q1 * q2
    ensures Power(b, i, r) != Power(b, j, r)
  {
    hide Power, Times, Apart, Prime;
    var m := q1 * q2;
    PowerOfDivisor(b, m, r, p);
    Reduced(1, r);
    if Power(b, i, r) == Power(b, j, r) {
      PowerAdds(b, i, m - i, r);
      PowerAdds(b, j, m - i, r);
      PowerAdds(b, m, j - i, r);
      TimesOne(Power(b, j - i, r), r);
      PowersApart(p, b, q1, q2, u1, u2, r, j - i);
      assert false;
    }
  }

  function Powers(b: nat, n: nat, r: nat): (s: seq<nat>)
    requires r > 1
    ensures |s| == n
    ensures forall i | 0 <= i < n :: s[i] == Power(b, i, r)
  {
    seq(n, i requires 0 <= i => Power(b, i, r))
  }

  /** So many different numbers below r: r cannot be small. */
  lemma {:induction false} Pigeonholes(s: seq<nat>, r: nat)
    requires forall i, j | 0 <= i < j < |s| :: s[i] != s[j]
    requires forall i | 0 <= i < |s| :: s[i] < r
    ensures |s| <= r
    decreases r
  {
    if s != [] {
      assert s[0] < r;
      if i :| 0 <= i < |s| && s[i] == r - 1 {
        Pigeonholes(s[..i] + s[i + 1..], r - 1);
      } else {
        Pigeonholes(s, r - 1);
      }
    }
  }

  lemma DivisorIsLarge(p: nat, b: nat, q1: nat, q2: nat, u1: nat, u2: nat, r: nat)
    requires Certified(p, b, q1, q2, u1, u2) && r > 1 && Divides(r, p)
    ensures q1 * q2 <= r
  {
    var s := Powers(b, q1 * q2, r);
    forall i, j | 0 <= i < j < |s| ensures s[i] != s[j] {
      PowersDistinct(p, b, q1, q2, u1, u2, r, i, j);
    }
    hide Certified, Power;
    Pigeonholes(s, r);
  }

  lemma ProductsGrow(a: nat, b: nat, x: nat, y: nat)
    requires a <= b && x <= y
    ensures a * x <= b * y && x * a <= y * b
  {
    assert a * x <= b * x;
    assert b * x <= b * y;
  }

  /** A divisor of a certified p other than p and 1 would be at least m, and so would its cofactor. */
  lemma CofactorsAreLarge(p: nat, b: nat, q1: nat, q2: nat, u1: nat, u2: nat, k: nat)
    requires Certified(p, b, q1, q2, u1, u2) && 2 <= k < p && p % k == 0
    ensures (q1 * q2) * (q1 * q2) <= p
  {
    hide Certified, Prime;
    var r := p / k;
    assert p == k * r;
    assert r > 1;
    ModUnique(p, r, k, 0);
    DivisorIsLarge(p, b, q1, q2, u1, u2, k);
    DivisorIsLarge(p, b, q1, q2, u1, u2, r);
    ProductsGrow(q1 * q2, k, q1 * q2, r);
  }

  /** With a certificate whose order is above the square root of p, p is prime. */
  lemma CertifiedIsPrime(p: nat, b: nat, q1: nat, q2: nat, u1: nat, u2: nat)
    requires Certified(p, b, q1, q2, u1, u2) && p < (q1 * q2) * (q1 * q2)
    ensures Prime(p)
  {
    forall k | 2 <= k < p ensures p % k != 0 {
      if p % k == 0 {
        CofactorsAreLarge(p, b, q1, q2, u1, u2, k);
      }
    }
    hide Power, Apart;
  }

  // ----- Checking a certificate -----

  lemma FirstPower(b: nat, r: nat)
    requires r > 1 && b < r
    ensures Power(b, 1, r) == b
  {
    TimesOne(b, r);
  }

  /** Doubling an exponent squares the power; k is the quotient of the square. */
  lemma Doubled(b: nat, n: nat, x: nat, r: nat, k: nat, y: nat)
    requires r > 1 && Power(b, n, r) == x && x * x == k * r + y && y < r
    ensures Power(b, 2 * n, r) == y
  {
    PowerAdds(b, n, n, r);
    assert n + n == 2 * n;
    ModUnique(x * x, r, k, y);
  }

  /** Adding one multiplies by the base; k is the quotient of the product. */
  lemma PlusOne(b: nat, n: nat, x: nat, r: nat, k: nat, y: nat)
    requires r > 1 && Power(b, n, r) == x && x * b == k * r + y && y < r
    ensures Power(b, n + 1, r) == y
  {
    ModUnique(x * b, r, k, y);
  }

  predicate NoneOfTen(q: nat, k: nat)
    requires k > 0
  {
    && q % k != 0 && q % (k + 1) != 0 && q % (k + 2) != 0 && q % (k + 3) != 0 && q % (k + 4) != 0
    && q % (k + 5) != 0 && q % (k + 6) != 0 && q % (k + 7) != 0 && q % (k + 8) != 0 && q % (k + 9) != 0
  }

  /** The blocks start at 2 and follow each other. */
  predicate Blocks(starts: seq<nat>) {
    forall i | 0 <= i < |starts| :: starts[i] == 2 + 10 * i
  }

  /** Trial division in blocks of ten, up to above the square root. */
  lemma SmallPrime(q: nat, starts: seq<nat>)
    requires 1 < q < (2 + 10 * |starts|) * (2 + 10 * |starts|)
    requires Blocks(starts) && forall k | k in starts :: k > 0 && NoneOfTen(q, k)
    ensures Prime(q)
  {
    var k := 2 + 10 * |starts|;
    forall d | 2 <= d < q ensures q % d != 0 {
      if q % d == 0 {
        if d < k {
          NoDivisorAt(q, starts, d);
        } else {
          CofactorIsSmall(q, k, d);
          NoDivisorAt(q, starts, q / d);
        }
      }
    }
  }

  lemma NoDivisorAt(q: nat, starts: seq<nat>, d: nat)
    requires Blocks(starts) && forall k | k in starts :: k > 0 && NoneOfTen(q, k)
    requires 2 <= d < 2 + 10 * |starts|
    ensures q % d != 0
  {
    var k := starts[(d - 2) / 10];
    assert NoneOfTen(q, k);
    assert k <= d < k + 10;
  }

  lemma CofactorIsSmall(q: nat, k: nat, d: nat)
    requires 2 <= d < q && q % d == 0 && k <= d && q < k * k
    ensures 2 <= q / d < k && q % (q / d) == 0
  {
    var c := q / d;
    assert q == d * c;
    assert c > 1;
    ModUnique(q, c, d, 0);
    if c >= k {
      ProductsGrow(k, d, k, c);
    }
  }
}
