/** Fermat's little theorem, from the absence of proper divisors alone. */
module Fermat {
  import opened ModularArithmetic

  predicate Divides(d: int, n: int)
    requires d > 0
  {
    n % d == 0
  }

  ghost predicate IsPrime(p: int) {
    p > 1 && forall d :: 1 < d < p ==> !Divides(d, p)
  }

  /** Euclid's lemma for a factor already reduced below p: the remainder of p by k is a smaller counterexample. */
  lemma {:induction false} EuclidReduced(p: int, k: int, b: int)
    requires IsPrime(p) && 1 <= k < p && b % p != 0
    ensures (k * b) % p != 0
    decreases k
  {
    if k > 1 && (k * b) % p == 0 {
      var r, q := p % k, p / k;
      assert !Divides(k, p);
      assert p == k * q + r;
      EuclidReduced(p, r, b);
      var c := (k * b) / p;
      assert k * b == p * c;
      assert r * b == p * (b - c * q) by {
        assert (p - k * q) * b == p * b - (k * q) * b;
        assert (k * q) * b == (k * b) * q;
        assert (p * c) * q == p * (c * q);
        assert p * b - p * (c * q) == p * (b - c * q);
      }
      ModShift(0, p, b - c * q);
    }
  }

  lemma Euclid(p: int, a: int, b: int)
    requires IsPrime(p) && a % p != 0 && b % p != 0
    ensures (a * b) % p != 0
  {
    EuclidReduced(p, a % p, b);
    CongMod(a, p);
    CongMul(a % p, a, b, b, p);
  }

  function Choose(n: nat, k: nat): nat {
    if k == 0 then 1 else if n == 0 then 0 else Choose(n - 1, k - 1) + Choose(n - 1, k)
  }

  lemma {:induction false} ChooseEdge(n: nat, k: nat)
    ensures k > n ==> Choose(n, k) == 0
    ensures Choose(n, n) == 1
  {
    if n > 0 {
      if k > 0 { ChooseEdge(n - 1, k - 1); }
      ChooseEdge(n - 1, k);
      ChooseEdge(n - 1, n);
    }
  }

  lemma AbsorbStep(n: int, k: int, s: int, t: int, v: int)
    requires (k - 1) * (s + t) == (n - 1) * s && k * v == (n - 1) * t
    ensures k * ((s + t) + v) == n * (s + t)
  {
    var u := s + t;
    assert k * (u + v) == (k - 1) * u + u + k * v;
    assert (n - 1) * s + (n - 1) * t == (n - 1) * u;
    assert (n - 1) * u + u == n * u;
  }

  lemma {:induction false} ChooseAbsorb(n: nat, k: nat)
    requires n > 0 && k > 0
    ensures k * Choose(n, k) == n * Choose(n - 1, k - 1)
  {
    if n == 1 {
      ChooseEdge(0, k);
      ChooseEdge(0, k - 1);
    } else {
      ChooseAbsorb(n - 1, k);
      if k > 1 {
        ChooseAbsorb(n - 1, k - 1);
        AbsorbStep(n, k, Choose(n - 2, k - 2), Choose(n - 2, k - 1), Choose(n - 1, k));
      } else {
        AbsorbStep(n, k, 0, 1, Choose(n - 1, k));
      }
    }
  }

  /** The first k + 1 terms of the expansion of (a + 1) to the n. */
  function Expansion(n: nat, k: nat, a: int): int {
    if k == 0 then 1 else Expansion(n, k - 1, a) + Choose(n, k) * Pow(a, k)
  }

  lemma {:induction false} ExpansionStep(n: nat, k: nat, a: int)
    requires k > 0
    ensures Expansion(n + 1, k, a) == Expansion(n, k, a) + a * Expansion(n, k - 1, a)
  {
    var x, y, w := Choose(n, k - 1), Choose(n, k), Pow(a, k - 1);
    assert (x + y) * (a * w) == a * (x * w) + y * (a * w);
    if k > 1 {
      ExpansionStep(n, k - 1, a);
      assert a * (Expansion(n, k - 2, a) + x * w) == a * Expansion(n, k - 2, a) + a * (x * w);
    }
  }

  lemma BeyondTheEdge(n: nat, a: int)
    requires n > 0
    ensures Expansion(n - 1, n, a) == Expansion(n - 1, n - 1, a)
  {
    ChooseEdge(n - 1, n);
    hide Choose, Pow;
    assert 0 * Pow(a, n) == 0;
  }

  lemma AtTheEdge(n: nat, a: int)
    requires n > 0
    ensures Expansion(n, n, a) == Expansion(n, n - 1, a) + Pow(a, n)
  {
    ChooseEdge(n, n);
    hide Choose, Pow;
    assert 1 * Pow(a, n) == Pow(a, n);
  }

  lemma {:induction false} BinomialTheorem(n: nat, a: int)
    ensures Expansion(n, n, a) == Pow(a + 1, n)
  {
    if n > 0 {
      var e := Expansion(n - 1, n - 1, a);
      BinomialTheorem(n - 1, a);
      ExpansionStep(n - 1, n, a);
      BeyondTheEdge(n, a);
      hide Expansion, Choose;
      assert Expansion(n, n, a) == e + a * e;
      assert e + a * e == (a + 1) * e;
    }
  }

  lemma SmallNotMultiple(p: int, k: int)
    requires 0 < k < p
    ensures k % p != 0
  {
  }

  /** Every inner binomial coefficient of a prime row is divisible by the prime. */
  lemma InnerTermsVanish(p: int, k: nat)
    requires IsPrime(p) && 0 < k < p
    ensures Choose(p, k) % p == 0
  {
    hide IsPrime, Choose;
    ChooseAbsorb(p, k);
    ModShift(0, p, Choose(p - 1, k - 1));
    SmallNotMultiple(p, k);
    if Choose(p, k) % p != 0 { Euclid(p, k, Choose(p, k)); }
  }

  lemma MultipleAbsorbed(x: int, c: int, w: int, p: int)
    requires p > 1 && x % p == 1 && c % p == 0
    ensures (x + c * w) % p == 1
  {
    CongMul(c, 0, w, w, p);
    CongAdd(x, 1, c * w, 0, p);
  }

  lemma {:induction false} InnerExpansion(p: int, k: nat, a: int)
    requires IsPrime(p) && k < p
    ensures Expansion(p, k, a) % p == 1
  {
    if k > 0 {
      InnerExpansion(p, k - 1, a);
      InnerTermsVanish(p, k);
      MultipleAbsorbed(Expansion(p, k - 1, a), Choose(p, k), Pow(a, k), p);
    }
  }

  lemma OneCong(x: int, p: int)
    requires p > 1 && x % p == 1
    ensures Cong(x, 1, p)
  {
  }

  lemma {:induction false} FermatPower(p: int, a: nat)
    requires IsPrime(p)
    ensures Cong(Pow(a, p), a, p)
  {
    PrimePositive(p);
    if a == 0 {
      PowZero(p);
    } else {
      FermatPower(p, a - 1);
      BinomialTheorem(p, a - 1);
      AtTheEdge(p, a - 1);
      InnerExpansion(p, p - 1, a - 1);
      OneCong(Expansion(p, p - 1, a - 1), p);
      hide IsPrime, Expansion, Pow, Cong;
      assert Pow(a, p) == Expansion(p, p - 1, a - 1) + Pow(a - 1, p);
      CongAdd(Expansion(p, p - 1, a - 1), 1, Pow(a - 1, p), a - 1, p);
    }
  }

  lemma PowerFixes(p: int, a: int)
    requires IsPrime(p)
    ensures Cong(Pow(a, p), a, p)
  {
    hide IsPrime, Pow;
    PrimePositive(p);
    CongPow(a, a % p, p, p);
    FermatPower(p, a % p);
  }

  lemma PrimePositive(p: int)
    requires IsPrime(p)
    ensures p > 1
  {
  }

  /** A factor that p does not divide cancels. */
  lemma Cancel(p: int, a: int, u: int)
    requires IsPrime(p) && a % p != 0 && Cong(a * u, a, p)
    ensures Cong(u, 1, p)
  {
    PrimePositive(p);
    CongAdd(a * u, a, -a, -a, p);
    assert a * u + -a == a * (u - 1);
    hide IsPrime;
    if (u - 1) % p != 0 { Euclid(p, a, u - 1); }
    CongAdd(u - 1, 0, 1, 1, p);
  }

  /** a to the p - 2 inverts a, for every integer a that p does not divide. */
  lemma FermatInverse(p: int, a: int)
    requires IsPrime(p) && a % p != 0
    ensures Cong(a * Pow(a, p - 2), 1, p)
  {
    PrimePositive(p);
    PowerFixes(p, a);
    assert Pow(a, p) == a * Pow(a, p - 1) && Pow(a, p - 1) == a * Pow(a, p - 2);
    hide IsPrime, Pow, Cong;
    Cancel(p, a, a * Pow(a, p - 2));
  }
}
