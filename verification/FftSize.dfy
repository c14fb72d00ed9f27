/**
 The search for a good transform length (selfdrive/locationd/helpers.py): the least number at or above n
 whose only prime factors are 2, 3, 5, 7 and 11.
 */
module FftSize {

  // ---------------------------------------------------------------- primes

  ghost predicate Divides(d: nat, m: nat) {
    exists q: nat :: m == d * q
  }

  ghost predicate IsPrime(p: nat) {
    p > 1 && forall d: nat :: Divides(d, p) ==> d == 1 || d == p
  }

  lemma DividesIntro(d: nat, q: nat)
    ensures Divides(d, d * q) && Divides(q, d * q)
  {
    assert d * q == q * d;
  }

  lemma DividesTransitive(a: nat, b: nat, c: nat)
    requires Divides(a, b) && Divides(b, c)
    ensures Divides(a, c)
  {
    var q: nat :| b == a * q;
    var r: nat :| c == b * r;
    assert c == a * (q * r);
  }

  lemma DivisorIsSmaller(d: nat, m: nat)
    requires Divides(d, m) && m > 0
    ensures 0 < d <= m
  {
    var q: nat :| m == d * q;
    if q >= 1 { Monotone(d, 1, q); }
  }

  lemma Monotone(a: nat, x: nat, y: nat)
    requires x <= y
    ensures a * x <= a * y
  {
  }

  lemma DividesDifference(d: nat, a: nat, b: nat)
    requires Divides(d, a) && Divides(d, b) && b <= a
    ensures Divides(d, a - b)
  {
    var q: nat :| a == d * q;
    var r: nat :| b == d * r;
    if q >= r {
      assert a - b == d * (q - r);
    } else {
      Monotone(d, q, r);
      assert a - b == d * 0;
    }
  }

  lemma {:induction false} HasPrimeDivisor(m: nat) returns (p: nat)
    requires m > 1
    ensures IsPrime(p) && Divides(p, m)
    decreases m
  {
    if IsPrime(m) {
      p := m;
      assert m == m * 1;
    } else {
      var d: nat :| Divides(d, m) && d != 1 && d != m;
      DivisorIsSmaller(d, m);
      p := HasPrimeDivisor(d);
      DividesTransitive(p, d, m);
    }
  }

  /** Euclid's lemma: a prime divides a product only through one of the factors. */
  lemma {:induction false} Euclid(p: nat, a: nat, b: nat)
    requires IsPrime(p) && Divides(p, a * b)
    ensures Divides(p, a) || Divides(p, b)
    decreases a + p, a
  {
    assert p > 1;
    hide IsPrime, Divides;
    if a == 0 {
      DividesIntro(p, 0);
    } else if a >= p {
      ReduceFactor(p, a, b);
      Euclid(p, a - p, b);
      if Divides(p, a - p) { DividesSum(p, a - p); }
    } else if a == 1 {
      assert a * b == b;
    } else {
      // The remainder of p by a is positive, smaller than a, and p still divides its product with b.
      var (q, r) := (p / a, p % a);
      Remainder(p, a, b, q, r);
      Euclid(p, r, b);
      SmallMultiple(p, a, r, q);
    }
  }

  lemma ReduceFactor(p: nat, a: nat, b: nat)
    requires Divides(p, a * b) && a >= p
    ensures Divides(p, (a - p) * b)
  {
    hide Divides;
    DividesIntro(p, b);
    Monotone(b, p, a);
    DividesDifference(p, a * b, p * b);
    assert (a - p) * b == a * b - p * b;
  }

  lemma Remainder(p: nat, a: nat, b: nat, q: nat, r: nat)
    requires Divides(p, a * b) && p == a * q + r
    ensures Divides(p, r * b)
  {
    hide Divides;
    assert (a * q + r) * b == (a * b) * q + r * b;
    DividesIntro(p, b);
    DividesIntro(a * b, q);
    DividesTransitive(p, a * b, (a * b) * q);
    DividesDifference(p, p * b, (a * b) * q);
  }

  lemma DividesSum(p: nat, a: nat)
    requires Divides(p, a)
    ensures Divides(p, a + p)
  {
    var q: nat :| a == p * q;
    assert a + p == p * (q + 1);
  }

  lemma SmallMultiple(p: nat, a: nat, r: nat, q: nat)
    requires IsPrime(p) && 1 < a < p && r < a && p == a * q + r
    ensures !Divides(p, r)
  {
    if r == 0 {
      DividesIntro(a, q);
    } else if Divides(p, r) {
      DivisorIsSmaller(p, r);
    }
  }

  // ---------------------------------------------------------------- smooth numbers

  const PRIMES: seq<nat> := [2, 3, 5, 7, 11]

  lemma PrimesArePrime(k: nat)
    requires k < 5
    ensures IsPrime(PRIMES[k])
  {
    var p := PRIMES[k];
    forall d: nat | Divides(d, p) ensures d == 1 || d == p {
      DivisorIsSmaller(d, p);
      var q: nat :| p == d * q;
      DividesIntro(d, q);
      DivisorIsSmaller(q, p);
      SmallFactors(p, d, q);
    }
  }

  lemma SmallFactors(p: nat, d: nat, q: nat)
    requires p in {2, 3, 5, 7, 11} && p == d * q && 0 < d <= p && 0 < q <= p
    ensures d == 1 || d == p
  {
    if d > 3 && q > 2 {
      Monotone(d, 3, q);
    } else if d == 2 {
      assert p == 2 * q;
    } else if d == 3 {
      assert p == 3 * q;
    }
  }

  /** Every prime factor of `s` is one of the listed primes from position `k` on. */
  ghost predicate FactorsFrom(k: nat, s: nat)
    requires k <= 5
  {
    s > 0 && forall p: nat :: IsPrime(p) && Divides(p, s) ==> p in PRIMES[k..]
  }

  /** The only prime factors of `s` are 2, 3, 5, 7 and 11. */
  ghost predicate Smooth(s: nat) {
    s > 0 && forall p: nat :: IsPrime(p) && Divides(p, s) ==> p in PRIMES
  }

  ghost predicate IsLeastSmooth(n: int, r: int) {
    r >= n && r >= 0 && Smooth(r) && forall s: nat :: Smooth(s) && s >= n ==> r <= s
  }

  lemma SmoothIsFactorsFrom(s: nat)
    ensures Smooth(s) <==> FactorsFrom(0, s)
  {
    assert PRIMES[0..] == PRIMES;
  }

  /** `m` is `f` times a product of primes from position `k` on. */
  ghost predicate In(k: nat, f: nat, m: nat)
    requires k <= 5
  {
    exists s: nat :: FactorsFrom(k, s) && m == f * s
  }

  lemma OverFiveIsOne(s: nat)
    requires FactorsFrom(5, s)
    ensures s == 1
  {
    if s > 1 {
      var p := HasPrimeDivisor(s);
    }
  }

  lemma OneIsSmooth()
    ensures Smooth(1)
  {
    forall p: nat | Divides(p, 1) ensures p == 1 { DivisorIsSmaller(p, 1); }
  }

  lemma SmoothTimesPrime(s: nat, k: nat)
    requires Smooth(s) && k < 5
    ensures Smooth(s * PRIMES[k])
  {
    var q := PRIMES[k];
    PrimesArePrime(k);
    Monotone(s, 1, q);
    forall p: nat | IsPrime(p) && Divides(p, s * q) ensures p in PRIMES {
      Euclid(p, s, q);
    }
  }

  lemma {:induction false} SmoothPower(i: nat) returns (f: nat)
    ensures Smooth(f) && f > i
  {
    if i == 0 {
      f := 1;
      OneIsSmooth();
    } else {
      var g := SmoothPower(i - 1);
      f := g * 2;
      SmoothTimesPrime(g, 0);
    }
  }

  /** Between n and 2n there is always a power of two. */
  lemma {:induction false} SmoothBelowDouble(n: nat) returns (f: nat)
    requires n > 0
    ensures Smooth(f) && n <= f < 2 * n
  {
    if n == 1 {
      f := 1;
      OneIsSmooth();
    } else {
      var g := SmoothBelowDouble((n + 1) / 2);
      f := g;
      if g < n {
        f := g * 2;
        SmoothTimesPrime(g, 0);
      }
    }
  }

  /** The sizes up to six are smooth already. */
  lemma SmallIsSmooth(n: nat)
    requires 0 < n <= 6
    ensures Smooth(n)
  {
    forall p: nat | IsPrime(p) && Divides(p, n) ensures p in PRIMES {
      DivisorIsSmaller(p, n);
      DividesIntro(2, 2);
      DividesIntro(2, 3);
    }
  }

  // ---------------------------------------------------------------- the five loops

  /** Every answer below `best` among `base` times the primes from `k` on is still ahead of the loop at `f`. */
  ghost predicate Left(n: nat, best: nat, k: nat, base: nat, f: nat)
    requires k <= 5
  {
    forall m: nat :: n <= m < best && In(k, base, m) ==> In(k, f, m)
  }

  /** No answer below `best` is `f` times a product of the primes from `k` on. */
  ghost predicate Done(n: nat, best: nat, k: nat, f: nat)
    requires k <= 5
  {
    forall m: nat :: n <= m < best ==> !In(k, f, m)
  }

  ghost predicate Candidate(n: nat, best: nat) {
    n <= best && (best == 2 * n || (best < 2 * n && Smooth(best)))
  }

  lemma AtLeastFactor(k: nat, f: nat, m: nat)
    requires k <= 5 && In(k, f, m)
    ensures m >= f
  {
    var s: nat :| FactorsFrom(k, s) && m == f * s;
    Monotone(f, 1, s);
  }

  /** The pruning is sound: once `f` has reached `best`, the loop over multiples of `f` has nothing left. */
  lemma Exhausted(n: nat, best: nat, k: nat, base: nat, f: nat)
    requires k <= 5 && Left(n, best, k, base, f) && f >= best
    ensures Done(n, best, k, base)
  {
    hide In;
    forall m: nat | n <= m < best ensures !In(k, base, m) {
      if In(k, f, m) { AtLeastFactor(k, f, m); }
    }
  }

  lemma OverStep(k: nat, s: nat) returns (t: nat)
    requires k < 5 && FactorsFrom(k, s)
    ensures FactorsFrom(k + 1, s) || (s == PRIMES[k] * t && FactorsFrom(k, t))
  {
    if Divides(PRIMES[k], s) {
      t :| s == PRIMES[k] * t;
      DividesIntro(PRIMES[k], t);
      hide Divides, IsPrime;
      forall p: nat | IsPrime(p) && Divides(p, t) ensures p in PRIMES[k..] {
        DividesTransitive(p, t, s);
      }
    } else {
      hide Divides, IsPrime;
      forall p: nat | IsPrime(p) && Divides(p, s) ensures p in PRIMES[k + 1..] {
        assert PRIMES[k..] == [PRIMES[k]] + PRIMES[k + 1..];
      }
      t := 0;
    }
  }

  lemma InStep(k: nat, f: nat, m: nat)
    requires k < 5 && In(k, f, m)
    ensures In(k + 1, f, m) || In(k, f * PRIMES[k], m)
  {
    hide FactorsFrom;
    var s: nat :| FactorsFrom(k, s) && m == f * s;
    var t := OverStep(k, s);
    if !FactorsFrom(k + 1, s) {
      assert m == (f * PRIMES[k]) * t;
    }
  }

  /** Having handled `f` with the later primes, the loop may go on to `f` times its own prime. */
  lemma Advance(n: nat, best: nat, k: nat, base: nat, f: nat)
    requires k < 5 && Left(n, best, k, base, f) && Done(n, best, k + 1, f)
    ensures Left(n, best, k, base, f * PRIMES[k])
  {
    hide In;
    forall m: nat | n <= m < best && In(k, base, m) ensures In(k, f * PRIMES[k], m) {
      InStep(k, f, m);
    }
  }

  lemma Innermost(n: nat, best: nat, f: nat)
    requires f < n || best <= f
    ensures Done(n, best, 5, f)
  {
    hide FactorsFrom;
    forall m: nat | n <= m < best ensures !In(5, f, m) {
      if In(5, f, m) {
        var s: nat :| FactorsFrom(5, s) && m == f * s;
        OverFiveIsOne(s);
      }
    }
  }

  lemma SmoothIsIn(m: nat)
    requires Smooth(m)
    ensures In(0, 1, m)
  {
    SmoothIsFactorsFrom(m);
    assert m == 1 * m;
  }

  /** At the end of the search nothing smaller was missed, so the initial 2n has been replaced. */
  lemma Conclude(n: nat, best: nat)
    requires n > 0 && Candidate(n, best) && Done(n, best, 0, 1)
    ensures IsLeastSmooth(n, best)
  {
    hide Smooth, In;
    var f := SmoothBelowDouble(n);
    SmoothIsIn(f);
    forall s: nat | Smooth(s) && s >= n ensures best <= s {
      SmoothIsIn(s);
    }
  }

  /**
   The search of the source: five nested loops, each cut off by the best answer so far. It meets its promise for
   exactly the sizes from one on; a size of zero or less comes back unchanged.
   */
  method FftNextGoodSize(n: int) returns (r: int)
    ensures IsLeastSmooth(n, r) <==> n >= 1
    ensures n <= 0 ==> r == n
  {
    hide Left, Done, Smooth, In, IsLeastSmooth;
    if n <= 6 {
      if n >= 1 { SmallAnswer(n); } else { NoAnswerFromZeroDown(n); }
      return n;
    }
    var best: nat, f2: nat := 2 * n, 1;
    OneIsSmooth();
    StartLeft(n, best, 0, 1);
    while f2 < best
      invariant Candidate(n, best) && Smooth(f2) && f2 >= 1 && Left(n, best, 0, 1, f2)
      decreases 2 * n - f2
    {
      var f23: nat := f2;
      StartLeft(n, best, 1, f2);
      while f23 < best
        invariant Candidate(n, best) && Smooth(f23) && f23 >= 1
        invariant Left(n, best, 0, 1, f2) && Left(n, best, 1, f2, f23)
        decreases 2 * n - f23
      {
        var f235: nat := f23;
        StartLeft(n, best, 2, f23);
        while f235 < best
          invariant Candidate(n, best) && Smooth(f235) && f235 >= 1
          invariant Left(n, best, 0, 1, f2) && Left(n, best, 1, f2, f23) && Left(n, best, 2, f23, f235)
          decreases 2 * n - f235
        {
          var f2357: nat := f235;
          StartLeft(n, best, 3, f235);
          while f2357 < best
            invariant Candidate(n, best) && Smooth(f2357) && f2357 >= 1
            invariant Left(n, best, 0, 1, f2) && Left(n, best, 1, f2, f23) && Left(n, best, 2, f23, f235)
            invariant Left(n, best, 3, f235, f2357)
            decreases 2 * n - f2357
          {
            var f235711: nat := f2357;
            StartLeft(n, best, 4, f2357);
            while f235711 < best
              invariant Candidate(n, best) && Smooth(f235711) && f235711 >= 1
              invariant Left(n, best, 0, 1, f2) && Left(n, best, 1, f2, f23) && Left(n, best, 2, f23, f235)
              invariant Left(n, best, 3, f235, f2357) && Left(n, best, 4, f2357, f235711)
              decreases 2 * n - f235711
            {
              ghost var was := best;
              best := if f235711 >= n then f235711 else best;
              Narrow(n, was, best, f2, f23, f235, f2357, f235711);
              Innermost(n, best, f235711);
              Advance(n, best, 4, f2357, f235711);
              SmoothTimesPrime(f235711, 4);
              f235711 := f235711 * 11;
            }
            Exhausted(n, best, 4, f2357, f235711);
            Advance(n, best, 3, f235, f2357);
            SmoothTimesPrime(f2357, 3);
            f2357 := f2357 * 7;
          }
          Exhausted(n, best, 3, f235, f2357);
          Advance(n, best, 2, f23, f235);
          SmoothTimesPrime(f235, 2);
          f235 := f235 * 5;
        }
        Exhausted(n, best, 2, f23, f235);
        Advance(n, best, 1, f2, f23);
        SmoothTimesPrime(f23, 1);
        f23 := f23 * 3;
      }
      Exhausted(n, best, 1, f2, f23);
      Advance(n, best, 0, 1, f2);
      SmoothTimesPrime(f2, 0);
      f2 := f2 * 2;
    }
    Exhausted(n, best, 0, 1, f2);
    Conclude(n, best);
    return best;
  }

  lemma StartLeft(n: nat, best: nat, k: nat, f: nat)
    requires k <= 5
    ensures Left(n, best, k, f, f)
  {
  }

  lemma Narrow(n: nat, was: nat, best: nat, f2: nat, f23: nat, f235: nat, f2357: nat, f235711: nat)
    requires best <= was
    requires Left(n, was, 0, 1, f2) && Left(n, was, 1, f2, f23) && Left(n, was, 2, f23, f235)
    requires Left(n, was, 3, f235, f2357) && Left(n, was, 4, f2357, f235711)
    ensures Left(n, best, 0, 1, f2) && Left(n, best, 1, f2, f23) && Left(n, best, 2, f23, f235)
    ensures Left(n, best, 3, f235, f2357) && Left(n, best, 4, f2357, f235711)
  {
    hide In;
  }

  lemma SmallAnswer(n: nat)
    requires 1 <= n <= 6
    ensures IsLeastSmooth(n, n)
  {
    SmallIsSmooth(n);
  }

  lemma NoAnswerFromZeroDown(n: int)
    requires n <= 0
    ensures !IsLeastSmooth(n, n)
  {
  }
}
