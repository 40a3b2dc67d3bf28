/** Products, multiples and ratios of reals, with the few laws the score proofs use.
    Proofs elsewhere hide the definitions and argue from these laws alone. */
module RealArithmetic {

  function Mul(x: real, y: real): real { x * y }

  function Square(x: real): real { Mul(x, x) }

  function Ratio(x: real, n: nat): real
    requires n > 0
  {
    x / n as real
  }

  function Abs(x: real): real { if x < 0.0 then -x else x }

  /** n times x, by repeated addition. */
  function Times(n: nat, x: real): real {
    if n == 0 then 0.0 else Times(n - 1, x) + x
  }

  function Total(xs: seq<real>): real {
    if xs == [] then 0.0 else Total(xs[..|xs| - 1]) + xs[|xs| - 1]
  }

  // ------------------------------------------------------------ products

  lemma ProductSigns(x: real, y: real)
    ensures x > 0.0 && y > 0.0 ==> x * y > 0.0
    ensures x >= 0.0 && y >= 0.0 ==> x * y >= 0.0
  {
  }

  lemma MulSigns(x: real, y: real)
    ensures x > 0.0 && y > 0.0 ==> Mul(x, y) > 0.0
    ensures x >= 0.0 && y >= 0.0 ==> Mul(x, y) >= 0.0
  {
    ProductSigns(x, y);
  }

  lemma MulAdd(x: real, y: real, z: real)
    ensures Mul(x, y + z) == Mul(x, y) + Mul(x, z)
    ensures Mul(x, 0.0) == 0.0
  {
  }

  lemma MulNegated(x: real)
    ensures Mul(-x, -x) == Mul(x, x)
  {
  }

  lemma SquareOfDifference(x: real, y: real)
    ensures Square(x - y) == Square(x) - 2.0 * Mul(x, y) + Square(y)
    ensures Square(x - 1.0) == Square(x) - 2.0 * x + 1.0
    ensures Square(x - 0.0) == Square(x)
  {
  }

  lemma SquareSigns(z: real)
    ensures Square(z) >= 0.0 && (Square(z) == 0.0 <==> z == 0.0)
  {
    hide Mul;
    if z > 0.0 {
      MulSigns(z, z);
    } else if z < 0.0 {
      MulSigns(-z, -z);
      MulNegated(z);
    } else {
      MulAdd(z, 0.0, 0.0);
    }
  }

  lemma MulMonotone(x: real, y: real, a: real, b: real)
    requires 0.0 <= x <= a && 0.0 <= y <= b
    ensures 0.0 <= Mul(x, y) <= Mul(a, b)
  {
    assert x * y <= a * y <= a * b;
  }

  // ------------------------------------------------------------ multiples

  lemma {:induction false} TimesAdds(n: nat, x: real, y: real)
    ensures Times(n, x + y) == Times(n, x) + Times(n, y)
  {
    if n > 0 {
      TimesAdds(n - 1, x, y);
    }
  }

  lemma {:induction false} TimesMul(n: nat, x: real, f: real)
    ensures Times(n, Mul(x, f)) == Mul(x, Times(n, f))
  {
    hide Mul;
    if n == 0 {
      MulAdd(x, 0.0, 0.0);
    } else {
      TimesMul(n - 1, x, f);
      MulAdd(x, Times(n - 1, f), f);
    }
  }

  lemma {:induction false} TimesIsProduct(n: nat, x: real)
    ensures Times(n, x) == x * n as real
  {
    if n > 0 {
      TimesIsProduct(n - 1, x);
      OneMore(x, (n - 1) as real);
      assert n as real == (n - 1) as real + 1.0;
    }
  }

  lemma OneMore(x: real, n: real)
    ensures x * (n + 1.0) == x * n + x
  {
  }

  /** Multiples of different numbers differ. */
  lemma {:induction false} TimesOrder(n: nat, x: real, y: real)
    requires n > 0
    ensures x < y ==> Times(n, x) < Times(n, y)
    ensures x == y <==> Times(n, x) == Times(n, y)
  {
    if n > 1 {
      TimesOrder(n - 1, x, y);
      TimesOrder(n - 1, y, x);
    } else {
      assert Times(n - 1, x) == 0.0 && Times(n - 1, y) == 0.0;
    }
    if y < x {
      TimesOrderOne(n, y, x);
    }
    if x < y {
      TimesOrderOne(n, x, y);
    }
  }

  lemma {:induction false} TimesOrderOne(n: nat, x: real, y: real)
    requires n > 0 && x < y
    ensures Times(n, x) < Times(n, y)
  {
    if n > 1 {
      TimesOrderOne(n - 1, x, y);
    } else {
      assert Times(n - 1, x) == 0.0 && Times(n - 1, y) == 0.0;
    }
  }

  // ------------------------------------------------------------ ratios

  lemma RatioTimes(x: real, n: nat)
    requires n > 0
    ensures Times(n, Ratio(x, n)) == x
  {
    TimesIsProduct(n, Ratio(x, n));
  }

  /** A ratio lies in the bounds that hold for the whole. */
  lemma RatioBounds(x: real, n: nat, a: real, b: real)
    requires n > 0 && Times(n, a) <= x <= Times(n, b)
    ensures a <= Ratio(x, n) <= b
  {
    hide Ratio;
    RatioTimes(x, n);
    if Ratio(x, n) < a {
      TimesOrderOne(n, Ratio(x, n), a);
    }
    if b < Ratio(x, n) {
      TimesOrderOne(n, b, Ratio(x, n));
    }
  }

  /** The ratio is the only number whose n-fold multiple is x. */
  lemma RatioUnique(x: real, n: nat, q: real)
    requires n > 0 && Times(n, q) == x
    ensures Ratio(x, n) == q
  {
    hide Ratio;
    RatioTimes(x, n);
    TimesOrder(n, Ratio(x, n), q);
  }

  lemma RatioAdds(x: real, y: real, n: nat)
    requires n > 0
    ensures Ratio(x + y, n) == Ratio(x, n) + Ratio(y, n)
    ensures Ratio(x - y, n) == Ratio(x, n) - Ratio(y, n)
    ensures Ratio(0.0, n) == 0.0
  {
    hide Ratio;
    RatioTimes(x, n);
    RatioTimes(y, n);
    RatioTimes(x - y, n);
    TimesAdds(n, Ratio(x, n), Ratio(y, n));
    RatioUnique(x + y, n, Ratio(x, n) + Ratio(y, n));
    TimesAdds(n, Ratio(x - y, n), Ratio(y, n));
    RatioUnique(x, n, Ratio(x - y, n) + Ratio(y, n));
    TimesZero(n);
    RatioUnique(0.0, n, 0.0);
  }

  lemma {:induction false} TimesZero(n: nat)
    ensures Times(n, 0.0) == 0.0
  {
    if n > 0 {
      TimesZero(n - 1);
    }
  }

  lemma RatioAbs(x: real, n: nat)
    requires n > 0
    ensures Abs(Ratio(x, n)) == Ratio(Abs(x), n)
  {
    hide Ratio;
    RatioTimes(x, n);
    TimesZero(n);
    RatioAdds(0.0, x, n);
    TimesOrder(n, Ratio(x, n), 0.0);
    TimesOrder(n, 0.0, Ratio(x, n));
  }

  lemma RatioOrder(x: real, y: real, n: nat)
    requires n > 0 && x <= y
    ensures Ratio(x, n) <= Ratio(y, n)
  {
    hide Ratio;
    RatioTimes(x, n);
    RatioTimes(y, n);
    if Ratio(y, n) < Ratio(x, n) {
      TimesOrderOne(n, Ratio(y, n), Ratio(x, n));
    }
  }

  lemma RatioOfWhole(n: nat)
    requires n > 0
    ensures Ratio(n as real, n) == 1.0
  {
  }

  /** Weighting a bin's ratio by the bin's share of n cancels the bin's size. */
  lemma WeightedRatio(size: nat, x: real, n: nat)
    requires size > 0 && n > 0
    ensures Mul(Ratio(size as real, n), Ratio(x, size)) == Ratio(x, n)
  {
    hide Ratio, Mul;
    var share, y := Ratio(size as real, n), Ratio(x, size);
    TimesMul(n, y, share);
    RatioTimes(size as real, n);
    RatioTimes(x, size);
    MulIsTimes(y, size);
    MulCommutes(y, share);
    RatioUnique(x, n, Mul(share, y));
  }

  lemma MulIsTimes(y: real, size: nat)
    ensures Mul(y, size as real) == Times(size, y)
  {
    TimesIsProduct(size, y);
  }

  lemma MulCommutes(x: real, y: real)
    ensures Mul(x, y) == Mul(y, x)
  {
  }

  // ------------------------------------------------------------ sums

  /** Summing an affine relation term by term. */
  lemma {:induction false} TotalAffine(xs: seq<real>, ys: seq<real>, k: real)
    requires |xs| == |ys| && forall i :: 0 <= i < |xs| ==> 3.0 * xs[i] == k - 2.0 * ys[i]
    ensures 3.0 * Total(xs) == Times(|xs|, k) - 2.0 * Total(ys)
  {
    if xs != [] {
      TotalAffine(xs[..|xs| - 1], ys[..|xs| - 1], k);
    }
  }

  lemma {:induction false} TotalBounds(xs: seq<real>, a: real, b: real)
    requires forall i :: 0 <= i < |xs| ==> a <= xs[i] <= b
    ensures Times(|xs|, a) <= Total(xs) <= Times(|xs|, b)
  {
    if xs != [] {
      TotalBounds(xs[..|xs| - 1], a, b);
    }
  }

  lemma {:induction false} TotalNonNegative(xs: seq<real>)
    requires forall i :: 0 <= i < |xs| ==> 0.0 <= xs[i]
    ensures 0.0 <= Total(xs)
  {
    if xs != [] {
      TotalNonNegative(xs[..|xs| - 1]);
    }
  }
}
