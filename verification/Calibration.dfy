/** Probability calibration of the frozen evaluation set, over exact reals. */
module Calibration {
  import opened Common
  import opened RealArithmetic

  datatype Vector = Vector(bull: real, base: real, bear: real) {
    function At(k: nat): real
      requires k < 3
    {
      if k == 0 then bull else if k == 1 then base else bear
    }

    function Sum(): real { bull + base + bear }
  }

  /** A probability vector with the index of the label that came true. */
  datatype Forecast = Forecast(p: Vector, actual: nat) {
    /** `max(range(3), key=...)`: the first index with the largest probability. */
    function Predicted(): (k: nat)
      ensures k < 3
    {
      if p.bull >= p.base && p.bull >= p.bear then 0 else if p.base >= p.bear then 1 else 2
    }

    function Confidence(): real { p.At(Predicted()) }

    predicate Correct() { Predicted() == actual }
  }

  predicate UnitVector(p: Vector) {
    0.0 <= p.bull <= 1.0 && 0.0 <= p.base <= 1.0 && 0.0 <= p.bear <= 1.0
  }

  /** The vectors the evaluation accepts: entries in [0,1], sum within 0.001 of one. */
  predicate Accepted(p: Vector) {
    UnitVector(p) && -0.001 <= p.Sum() - 1.0 <= 0.001
  }

  predicate Exact(p: Vector) {
    UnitVector(p) && p.Sum() == 1.0
  }

  predicate Labelled(fs: seq<Forecast>) {
    forall i :: 0 <= i < |fs| ==> fs[i].actual < 3
  }

  predicate AcceptedSet(fs: seq<Forecast>) {
    Labelled(fs) && forall i :: 0 <= i < |fs| ==> Accepted(fs[i].p)
  }

  // ------------------------------------------------------------ Brier scores

  function Indicator(b: bool): real { if b then 1.0 else 0.0 }

  /** Squared error of a forecast against the label that came true, averaged over three labels. */
  function ErrorOf(p: Vector, actual: nat): real {
    (Square(p.bull - Indicator(actual == 0)) + Square(p.base - Indicator(actual == 1))
     + Square(p.bear - Indicator(actual == 2))) / 3.0
  }

  function Errors(fs: seq<Forecast>): seq<real> {
    seq(|fs|, i requires 0 <= i < |fs| => ErrorOf(fs[i].p, fs[i].actual))
  }

  function BrierScore(fs: seq<Forecast>): real
    requires fs != []
  {
    Ratio(Total(Errors(fs)), |fs|)
  }

  /** The same labels, all forecast with the one vector c. */
  function Constant(fs: seq<Forecast>, c: Vector): (r: seq<Forecast>)
    ensures |r| == |fs|
  {
    seq(|fs|, i requires 0 <= i < |fs| => Forecast(c, fs[i].actual))
  }

  function Count(fs: seq<Forecast>, k: nat): (n: nat)
    ensures n <= |fs|
  {
    if fs == [] then 0 else Count(fs[..|fs| - 1], k) + if fs[|fs| - 1].actual == k then 1 else 0
  }

  function Frequencies(fs: seq<Forecast>): Vector
    requires fs != []
  {
    Vector(Ratio(Count(fs, 0) as real, |fs|), Ratio(Count(fs, 1) as real, |fs|), Ratio(Count(fs, 2) as real, |fs|))
  }

  function ReferenceBrier(fs: seq<Forecast>): real
    requires fs != []
  {
    BrierScore(Constant(fs, Frequencies(fs)))
  }

  function Skill(brier: real, reference: real): real {
    if reference > 0.0 then 1.0 - brier / reference else 0.0
  }

  function Dot(a: Vector, b: Vector): real { Mul(a.bull, b.bull) + Mul(a.base, b.base) + Mul(a.bear, b.bear) }

  function Distance(a: Vector, b: Vector): real {
    Square(a.bull - b.bull) + Square(a.base - b.base) + Square(a.bear - b.bear)
  }

  /** What c gives, forecast by forecast, to the label that came true. */
  function Hits(fs: seq<Forecast>, c: Vector): seq<real>
    requires Labelled(fs)
  {
    seq(|fs|, i requires 0 <= i < |fs| && fs[i].actual < 3 => c.At(fs[i].actual))
  }

  lemma ConstantError(c: Vector, actual: nat)
    requires actual < 3
    ensures 3.0 * ErrorOf(c, actual) == Dot(c, c) + 1.0 - 2.0 * c.At(actual)
  {
    hide Mul;
    SquareOfDifference(c.bull, 0.0);
    SquareOfDifference(c.base, 0.0);
    SquareOfDifference(c.bear, 0.0);
  }

  lemma ConstantErrors(fs: seq<Forecast>, c: Vector)
    requires Labelled(fs)
    ensures 3.0 * Total(Errors(Constant(fs, c))) == Times(|fs|, Dot(c, c) + 1.0) - 2.0 * Total(Hits(fs, c))
  {
    hide ErrorOf, Dot;
    var xs, ys := Errors(Constant(fs, c)), Hits(fs, c);
    forall i | 0 <= i < |xs|
      ensures 3.0 * xs[i] == Dot(c, c) + 1.0 - 2.0 * ys[i]
    {
      ConstantError(c, fs[i].actual);
    }
    TotalAffine(xs, ys, Dot(c, c) + 1.0);
  }

  lemma {:induction false} HitsByLabel(fs: seq<Forecast>, c: Vector)
    requires Labelled(fs)
    ensures Total(Hits(fs, c)) == Times(Count(fs, 0), c.bull) + Times(Count(fs, 1), c.base) + Times(Count(fs, 2), c.bear)
  {
    if fs != [] {
      HitsByLabel(fs[..|fs| - 1], c);
      assert Hits(fs, c)[..|fs| - 1] == Hits(fs[..|fs| - 1], c);
    }
  }

  /** Every label is one of the three. */
  lemma {:induction false} CountsAddUp(fs: seq<Forecast>)
    requires Labelled(fs)
    ensures Count(fs, 0) + Count(fs, 1) + Count(fs, 2) == |fs|
  {
    if fs != [] {
      CountsAddUp(fs[..|fs| - 1]);
    }
  }

  /** A label's share of the hits: n times x * frequency. */
  lemma ShareOfHits(count: nat, x: real, n: nat)
    requires n > 0
    ensures Times(count, x) == Times(n, Mul(x, Ratio(count as real, n)))
  {
    hide Ratio;
    RatioTimes(count as real, n);
    TimesMul(n, x, Ratio(count as real, n));
    TimesIsProduct(count, x);
  }

  lemma HitsAreShares(fs: seq<Forecast>, c: Vector)
    requires Labelled(fs) && fs != []
    ensures Total(Hits(fs, c)) == Times(|fs|, Dot(c, Frequencies(fs)))
  {
    hide Mul, Ratio, Hits, Total, Count, Times;
    var n, f := |fs|, Frequencies(fs);
    HitsByLabel(fs, c);
    ShareOfHits(Count(fs, 0), c.bull, n);
    ShareOfHits(Count(fs, 1), c.base, n);
    ShareOfHits(Count(fs, 2), c.bear, n);
    TimesAdds(n, Mul(c.bull, f.bull), Mul(c.base, f.base));
    TimesAdds(n, Mul(c.bull, f.bull) + Mul(c.base, f.base), Mul(c.bear, f.bear));
  }

  /** The Brier score of a constant forecast. */
  lemma ConstantBrier(fs: seq<Forecast>, c: Vector)
    requires fs != [] && Labelled(fs)
    ensures 3.0 * BrierScore(Constant(fs, c)) == Dot(c, c) + 1.0 - 2.0 * Dot(c, Frequencies(fs))
  {
    hide Dot, Ratio, ErrorOf, Frequencies, Errors;
    var n, k, h := |fs|, Dot(c, c) + 1.0, Dot(c, Frequencies(fs));
    var total := Total(Errors(Constant(fs, c)));
    var q := Ratio(total, n);
    ConstantErrors(fs, c);
    HitsAreShares(fs, c);
    RatioTimes(total, n);
    // n times both sides: 3q + 2h == k
    TimesAdds(n, q, q);
    TimesAdds(n, q + q, q);
    TimesAdds(n, h, h);
    TimesAdds(n, q + q + q, h + h);
    TimesOrder(n, q + q + q + (h + h), k);
  }

  /** The reference Brier score is (1 - sum of squared class frequencies) / 3. */
  lemma ReferenceIdentity(fs: seq<Forecast>)
    requires fs != [] && Labelled(fs)
    ensures ReferenceBrier(fs) == (1.0 - Dot(Frequencies(fs), Frequencies(fs))) / 3.0
  {
    hide Dot, BrierScore, Frequencies;
    ConstantBrier(fs, Frequencies(fs));
  }

  /** Every constant forecast is worse than the reference by exactly its squared distance from
      the class frequencies, over three: the reference is the best constant forecast, and the
      only best one. */
  lemma ReferenceIsBestConstant(fs: seq<Forecast>, c: Vector)
    requires fs != [] && Labelled(fs)
    ensures BrierScore(Constant(fs, c)) == ReferenceBrier(fs) + Distance(c, Frequencies(fs)) / 3.0
    ensures Distance(c, Frequencies(fs)) >= 0.0
    ensures Distance(c, Frequencies(fs)) == 0.0 <==> c == Frequencies(fs)
  {
    hide Mul, BrierScore, Frequencies;
    var f := Frequencies(fs);
    ConstantBrier(fs, c);
    ReferenceIdentity(fs);
    SquareOfDifference(c.bull, f.bull);
    SquareOfDifference(c.base, f.base);
    SquareOfDifference(c.bear, f.bear);
    DistanceSigns(c, f);
  }

  lemma DistanceSigns(a: Vector, b: Vector)
    ensures Distance(a, b) >= 0.0 && (Distance(a, b) == 0.0 <==> a == b)
  {
    hide Square;
    SquareSigns(a.bull - b.bull);
    SquareSigns(a.base - b.base);
    SquareSigns(a.bear - b.bear);
  }

  lemma QuotientOrder(x: real, y: real)
    requires y > 0.0
    ensures x >= y ==> x / y >= 1.0
    ensures x / y == 1.0 <==> x == y
  {
    var q := x / y;
    assert q * y == x;
  }

  /** A forecaster that always says the same never has positive skill, and has skill zero only
      by saying the class frequencies (or when a single label makes the reference perfect). */
  lemma ConstantHasNoSkill(fs: seq<Forecast>, c: Vector)
    requires fs != [] && Labelled(fs)
    ensures var skill := Skill(BrierScore(Constant(fs, c)), ReferenceBrier(fs));
            skill <= 0.0 && (skill == 0.0 <==> c == Frequencies(fs) || ReferenceBrier(fs) <= 0.0)
  {
    hide BrierScore, ReferenceBrier, Frequencies, Distance;
    ReferenceIsBestConstant(fs, c);
    if ReferenceBrier(fs) > 0.0 {
      QuotientOrder(BrierScore(Constant(fs, c)), ReferenceBrier(fs));
    }
  }

  // ------------------------------------------------------------ bounds

  lemma SquareBound(a: real, b: real, c: real, e: real)
    requires 0.0 <= a <= 1.0 && 0.0 <= b <= 1.0 && 0.0 <= c <= 1.0 && a + b + c == 1.0 + e && e <= 0.001
    ensures 0.0 <= Square(a - 1.0) + Square(b) + Square(c) <= 2.000001
    ensures e <= 0.0 ==> Square(a - 1.0) + Square(b) + Square(c) <= 2.0
  {
    hide Mul;
    var s := b + c;
    UnitSquare(1.0 - a);
    MulNegated(1.0 - a);
    assert Square(a - 1.0) == Square(1.0 - a) by {
      assert -(1.0 - a) == a - 1.0;
    }
    SquareSigns(b);
    SquareSigns(c);
    if s <= 1.0 {
      SquareOfSum(b, c);
      MulSigns(b, c);
      UnitSquare(s);
    } else {
      BothNearOne(b, c);
      MulMonotone(s - 1.0, s - 1.0, 0.001, 0.001);
      SmallProduct();
    }
  }

  lemma UnitSquare(x: real)
    requires 0.0 <= x <= 1.0
    ensures 0.0 <= Square(x) <= 1.0
  {
    MulMonotone(x, x, 1.0, 1.0);
  }

  lemma SmallProduct()
    ensures Mul(0.001, 0.001) == 0.000001
  {
  }

  lemma SquareOfSum(b: real, c: real)
    ensures Square(b) + Square(c) == Square(b + c) - 2.0 * Mul(b, c)
  {
  }

  /** When b + c exceeds one, both squares together exceed one by at most the excess squared. */
  lemma BothNearOne(b: real, c: real)
    requires 0.0 <= b <= 1.0 && 0.0 <= c <= 1.0
    ensures Square(b) + Square(c) <= 1.0 + Square(b + c - 1.0)
  {
    ProductSigns(1.0 - b, 1.0 - c);
    assert Square(b) + Square(c) == 1.0 + Square(b + c - 1.0) - 2.0 * ((1.0 - b) * (1.0 - c));
  }

  /** One accepted forecast errs by at most (2 + 0.001^2) / 3, an exact one by at most 2/3. */
  lemma ErrorBounds(p: Vector, actual: nat)
    requires actual < 3 && Accepted(p)
    ensures 0.0 <= ErrorOf(p, actual) <= 2.000001 / 3.0
    ensures Exact(p) ==> ErrorOf(p, actual) <= 2.0 / 3.0
  {
    hide Square;
    var a, b, c := p.At(actual), p.At((actual + 1) % 3), p.At((actual + 2) % 3);
    assert 3.0 * ErrorOf(p, actual) == Square(a - 1.0) + Square(b) + Square(c) by {
      assert p.bull - 0.0 == p.bull && p.base - 0.0 == p.base && p.bear - 0.0 == p.bear;
    }
    SquareBound(a, b, c, p.Sum() - 1.0);
  }

  /** The Brier score of every accepted set lies in [0, (2 + 0.001^2)/3], and in [0, 2/3] when
      the vectors are exact. */
  lemma BrierBounds(fs: seq<Forecast>)
    requires fs != [] && AcceptedSet(fs)
    ensures 0.0 <= BrierScore(fs) <= 2.000001 / 3.0
    ensures (forall i :: 0 <= i < |fs| ==> Exact(fs[i].p)) ==> BrierScore(fs) <= 2.0 / 3.0
  {
    hide ErrorOf, Ratio;
    var xs := Errors(fs);
    forall i | 0 <= i < |xs|
      ensures 0.0 <= xs[i] <= 2.000001 / 3.0
      ensures Exact(fs[i].p) ==> xs[i] <= 2.0 / 3.0
    {
      ErrorBounds(fs[i].p, fs[i].actual);
    }
    TotalBounds(xs, 0.0, 2.000001 / 3.0);
    RatioBounds(Total(xs), |fs|, 0.0, 2.000001 / 3.0);
    if forall i :: 0 <= i < |fs| ==> Exact(fs[i].p) {
      TotalBounds(xs, 0.0, 2.0 / 3.0);
      RatioBounds(Total(xs), |fs|, 0.0, 2.0 / 3.0);
    }
  }

  // ------------------------------------------------------------ calibration error

  /** One forecast as the bins keep it: its confidence, and whether it was right. */
  datatype Entry = Entry(confidence: real, correct: bool) {
    function Gap(): real { Indicator(correct) - confidence }
  }

  function EntryOf(f: Forecast): Entry { Entry(f.Confidence(), f.Correct()) }

  /** `min(9, int(confidence * 10))`; confidences are never negative. */
  function Bucket(confidence: real): int {
    Min(9, (confidence * 10.0).Floor)
  }

  /** The entries of one bucket, in forecast order. */
  function Bin(fs: seq<Forecast>, b: int): seq<Entry> {
    if fs == [] then []
    else
      var last := EntryOf(fs[|fs| - 1]);
      Bin(fs[..|fs| - 1], b) + if Bucket(last.confidence) == b then [last] else []
  }

  function CorrectSum(items: seq<Entry>): real {
    Total(seq(|items|, i requires 0 <= i < |items| => Indicator(items[i].correct)))
  }

  function ConfidenceSum(items: seq<Entry>): real {
    Total(seq(|items|, i requires 0 <= i < |items| => items[i].confidence))
  }

  /** What a bin adds to the calibration error of n forecasts. */
  function BinTerm(items: seq<Entry>, n: nat): real
    requires items != [] && n > 0
  {
    Mul(Ratio(|items| as real, n),
        Abs(Ratio(CorrectSum(items), |items|) - Ratio(ConfidenceSum(items), |items|)))
  }

  /** The terms of buckets 0 to m - 1; empty buckets add nothing. */
  function ErrorUpTo(fs: seq<Forecast>, m: nat): real
    requires fs != []
  {
    if m == 0 then 0.0
    else ErrorUpTo(fs, m - 1) + if Bin(fs, m - 1) == [] then 0.0 else BinTerm(Bin(fs, m - 1), |fs|)
  }

  function CalibrationError(fs: seq<Forecast>): real
    requires fs != []
  {
    ErrorUpTo(fs, 10)
  }

  function Entries(fs: seq<Forecast>): seq<Entry> {
    seq(|fs|, i requires 0 <= i < |fs| => EntryOf(fs[i]))
  }

  function Accuracy(fs: seq<Forecast>): real
    requires fs != []
  {
    Ratio(CorrectSum(Entries(fs)), |fs|)
  }

  function MeanConfidence(fs: seq<Forecast>): real
    requires fs != []
  {
    Ratio(ConfidenceSum(Entries(fs)), |fs|)
  }

  function GapSum(items: seq<Entry>): real {
    if items == [] then 0.0 else GapSum(items[..|items| - 1]) + items[|items| - 1].Gap()
  }

  lemma {:induction false} GapSumSplits(items: seq<Entry>)
    ensures GapSum(items) == CorrectSum(items) - ConfidenceSum(items)
  {
    if items != [] {
      var n := |items| - 1;
      GapSumSplits(items[..n]);
      var hits := seq(|items|, i requires 0 <= i < |items| => Indicator(items[i].correct));
      var confidences := seq(|items|, i requires 0 <= i < |items| => items[i].confidence);
      assert hits[..n] == seq(n, i requires 0 <= i < n => Indicator(items[..n][i].correct));
      assert confidences[..n] == seq(n, i requires 0 <= i < n => items[..n][i].confidence);
    }
  }

  /** A bin's term is its absolute summed gap over the number of all forecasts. */
  lemma BinTermIsGap(items: seq<Entry>, n: nat)
    requires items != [] && n > 0
    ensures BinTerm(items, n) == Ratio(Abs(GapSum(items)), n)
  {
    hide Mul, Ratio, CorrectSum, ConfidenceSum, Abs;
    GapSumSplits(items);
    RatioAdds(CorrectSum(items), ConfidenceSum(items), |items|);
    RatioAbs(GapSum(items), |items|);
    WeightedRatio(|items|, Abs(GapSum(items)), n);
  }

  // Sums over the buckets below m.

  function GapsBelow(fs: seq<Forecast>, m: nat): real {
    if m == 0 then 0.0 else GapsBelow(fs, m - 1) + GapSum(Bin(fs, m - 1))
  }

  function AbsGapsBelow(fs: seq<Forecast>, m: nat): real {
    if m == 0 then 0.0 else AbsGapsBelow(fs, m - 1) + Abs(GapSum(Bin(fs, m - 1)))
  }

  function SizesBelow(fs: seq<Forecast>, m: nat): nat {
    if m == 0 then 0 else SizesBelow(fs, m - 1) + |Bin(fs, m - 1)|
  }

  lemma {:induction false} ErrorIsGaps(fs: seq<Forecast>, m: nat)
    requires fs != []
    ensures ErrorUpTo(fs, m) == Ratio(AbsGapsBelow(fs, m), |fs|)
  {
    hide Ratio, BinTerm, Bin;
    RatioAdds(0.0, 0.0, |fs|);
    if m > 0 {
      ErrorIsGaps(fs, m - 1);
      var items := Bin(fs, m - 1);
      RatioAdds(AbsGapsBelow(fs, m - 1), Abs(GapSum(items)), |fs|);
      if items != [] {
        BinTermIsGap(items, |fs|);
      } else {
        assert GapSum(items) == 0.0 && Abs(0.0) == 0.0;
      }
    }
  }

  lemma GapSnoc(items: seq<Entry>, e: Entry)
    ensures GapSum(items + [e]) == GapSum(items) + e.Gap()
    ensures items + [] == items
  {
    assert (items + [e])[..|items|] == items;
  }

  /** One more forecast lands in exactly one bucket. */
  lemma {:induction false} OneBucket(fs: seq<Forecast>, m: nat)
    requires fs != []
    ensures var rest, e := fs[..|fs| - 1], EntryOf(fs[|fs| - 1]);
            && SizesBelow(fs, m) == SizesBelow(rest, m) + (if 0 <= Bucket(e.confidence) < m then 1 else 0)
            && GapsBelow(fs, m) == GapsBelow(rest, m) + (if 0 <= Bucket(e.confidence) < m then e.Gap() else 0.0)
  {
    hide Bucket, EntryOf, Entry.Gap, GapSum;
    if m > 0 {
      OneBucket(fs, m - 1);
      var before, e := Bin(fs[..|fs| - 1], m - 1), EntryOf(fs[|fs| - 1]);
      GapSnoc(before, e);
      assert Bin(fs, m - 1) == before + if Bucket(e.confidence) == m - 1 then [e] else [];
    }
  }

  lemma BucketRange(f: Forecast)
    requires UnitVector(f.p)
    ensures 0.0 <= f.Confidence() <= 1.0 && 0 <= Bucket(f.Confidence()) <= 9
  {
  }

  predicate UnitSet(fs: seq<Forecast>) {
    forall i :: 0 <= i < |fs| ==> UnitVector(fs[i].p)
  }

  /** The ten buckets partition the forecasts: every forecast is counted once, and its gap too. */
  lemma {:induction false} BucketsPartition(fs: seq<Forecast>)
    requires UnitSet(fs)
    ensures SizesBelow(fs, 10) == |fs|
    ensures GapsBelow(fs, 10) == GapSum(Entries(fs))
  {
    if fs == [] {
      EmptyBuckets(10);
    } else {
      hide SizesBelow, GapsBelow, EntryOf, Bucket;
      var rest := fs[..|fs| - 1];
      BucketsPartition(rest);
      OneBucket(fs, 10);
      BucketRange(fs[|fs| - 1]);
      assert EntryOf(fs[|fs| - 1]).confidence == fs[|fs| - 1].Confidence() by {
        EntryConfidence(fs[|fs| - 1]);
      }
      assert Entries(fs)[..|fs| - 1] == Entries(rest);
    }
  }

  lemma EntryConfidence(f: Forecast)
    ensures EntryOf(f).confidence == f.Confidence()
  {
  }

  lemma {:induction false} EmptyBuckets(m: nat)
    ensures SizesBelow([], m) == 0 && GapsBelow([], m) == 0.0
  {
    if m > 0 {
      EmptyBuckets(m - 1);
    }
  }

  /** |sum of gaps| <= sum of |gaps| <= number of entries. */
  lemma {:induction false} GapInequalities(fs: seq<Forecast>, m: nat)
    requires UnitSet(fs)
    ensures Abs(GapsBelow(fs, m)) <= AbsGapsBelow(fs, m) <= SizesBelow(fs, m) as real
  {
    hide Bin;
    if m > 0 {
      GapInequalities(fs, m - 1);
      BinGap(fs, m - 1);
    }
  }

  lemma {:induction false} BinGap(fs: seq<Forecast>, b: int)
    requires UnitSet(fs)
    ensures Abs(GapSum(Bin(fs, b))) <= |Bin(fs, b)| as real
  {
    hide Bucket, Forecast.Confidence, Forecast.Correct;
    if fs != [] {
      var rest, e := fs[..|fs| - 1], EntryOf(fs[|fs| - 1]);
      BinGap(rest, b);
      BucketRange(fs[|fs| - 1]);
      EntryConfidence(fs[|fs| - 1]);
      GapSnoc(Bin(rest, b), e);
      assert -1.0 <= e.Gap() <= 1.0;
      assert Bin(fs, b) == Bin(rest, b) + if Bucket(e.confidence) == b then [e] else [];
    }
  }

  /** The expected calibration error is at least the distance between top-label accuracy and
      mean confidence, and at most one. */
  lemma CalibrationErrorBounds(fs: seq<Forecast>)
    requires fs != [] && UnitSet(fs)
    ensures Abs(Accuracy(fs) - MeanConfidence(fs)) <= CalibrationError(fs) <= 1.0
  {
    hide Ratio, Abs, CorrectSum, ConfidenceSum, SizesBelow, GapsBelow, AbsGapsBelow, GapSum, ErrorUpTo;
    var n, gap, sum := |fs|, GapSum(Entries(fs)), AbsGapsBelow(fs, 10);
    GapSumSplits(Entries(fs));
    RatioAdds(CorrectSum(Entries(fs)), ConfidenceSum(Entries(fs)), n);
    RatioAbs(gap, n);
    ErrorIsGaps(fs, 10);
    BucketsPartition(fs);
    GapInequalities(fs, 10);
    RatioOrder(Abs(gap), sum, n);
    RatioOrder(sum, n as real, n);
    RatioOfWhole(n);
  }

  // ------------------------------------------------------------ the evaluation

  /** A frozen case after scoring: the program score and its probabilities, the true label, and the
      score on record. */
  datatype Case = Case(p: Vector, outcome: string, programScore: int, recordedScore: int)

  datatype EvaluationError = InvalidVector | InvalidLabel | NoCases

  datatype Report = Report(samples: nat, brier: real, reference: real, skill: real,
                           calibrationError: real, accuracy: real, consistency: real)

  /** Python's `round`: to the nearest integer, halves to the even one. */
  function Rounded(x: real): int {
    var low := x.Floor;
    var rest := x - low as real;
    if rest < 0.5 || (rest == 0.5 && low % 2 == 0) then low else low + 1
  }

  /** The recorded score is near the program's, and that is the one its probabilities imply. */
  predicate Consistent(c: Case) {
    -5 <= c.recordedScore - c.programScore <= 5
    && -1 <= c.programScore - Rounded(100.0 * (c.p.bull - c.p.bear)) <= 1
  }

  function ConsistencyHits(cases: seq<Case>): (n: nat)
    ensures n <= |cases|
    ensures n == |cases| <==> forall c :: c in cases ==> Consistent(c)
  {
    if cases == [] then 0
    else
      var last := cases[|cases| - 1];
      assert cases == cases[..|cases| - 1] + [last];
      ConsistencyHits(cases[..|cases| - 1]) + if Consistent(last) then 1 else 0
  }

  /** A consistent case's program score is within one and a half of what its probabilities say, its
      recorded score within six and a half. */
  lemma ConsistentMeansClose(c: Case)
    requires Consistent(c)
    ensures var implied := 100.0 * (c.p.bull - c.p.bear);
            && -1.5 <= c.programScore as real - implied <= 1.5
            && -6.5 <= c.recordedScore as real - implied <= 6.5
  {
    RoundedIsNear(100.0 * (c.p.bull - c.p.bear));
  }

  lemma RoundedIsNear(x: real)
    ensures -0.5 <= Rounded(x) as real - x <= 0.5
  {
  }

  function LabelIndex(name: string): Option<nat> {
    if name == "bull" then Some(0) else if name == "base" then Some(1) else if name == "bear" then Some(2) else None
  }

  /** The forecasts of the cases, or the error of the first case that is not acceptable. */
  function Forecasts(cases: seq<Case>): (r: Result<seq<Forecast>, EvaluationError>)
    ensures r.Ok? ==> |r.value| == |cases| && AcceptedSet(r.value)
  {
    if cases == [] then Ok([])
    else
      var last := cases[|cases| - 1];
      match Forecasts(cases[..|cases| - 1])
      case Err(e) => Err(e)
      case Ok(fs) =>
        if !Accepted(last.p) then Err(InvalidVector)
        else match LabelIndex(last.outcome)
          case None => Err(InvalidLabel)
          case Some(k) => Ok(fs + [Forecast(last.p, k)])
  }

  lemma {:induction false} FirstErrorStays(cases: seq<Case>, i: nat)
    requires i <= |cases| && Forecasts(cases[..i]).Err?
    ensures Forecasts(cases) == Forecasts(cases[..i])
  {
    if i < |cases| {
      assert cases[..|cases| - 1][..i] == cases[..i];
      FirstErrorStays(cases[..|cases| - 1], i);
    } else {
      assert cases[..i] == cases;
    }
  }

  function ReportOf(fs: seq<Forecast>, hits: nat): Report
    requires fs != []
  {
    Report(|fs|, BrierScore(fs), ReferenceBrier(fs), Skill(BrierScore(fs), ReferenceBrier(fs)),
           CalibrationError(fs), Accuracy(fs), Ratio(hits as real, |fs|))
  }

  /** The three counters of actual labels. */
  function Tally(fs: seq<Forecast>): map<string, nat> {
    map["bull" := Count(fs, 0), "base" := Count(fs, 1), "bear" := Count(fs, 2)]
  }

  /** What one more case does. */
  lemma ForecastStep(cases: seq<Case>, fs: seq<Forecast>, item: Case)
    requires Forecasts(cases) == Ok(fs)
    ensures Forecasts(cases + [item])
            == if !Accepted(item.p) then Err(InvalidVector)
               else match LabelIndex(item.outcome)
                    case None => Err(InvalidLabel)
                    case Some(k) => Ok(fs + [Forecast(item.p, k)])
  {
    hide Accepted, LabelIndex;
    assert (cases + [item])[..|cases|] == cases;
  }

  lemma CountSnoc(fs: seq<Forecast>, f: Forecast, k: nat)
    ensures Count(fs + [f], k) == Count(fs, k) + if f.actual == k then 1 else 0
  {
    assert (fs + [f])[..|fs|] == fs;
  }

  lemma TallyStep(fs: seq<Forecast>, item: Case)
    requires LabelIndex(item.outcome).Some?
    ensures var more := fs + [Forecast(item.p, LabelIndex(item.outcome).value)];
            && item.outcome in Tally(fs)
            && Tally(more) == Tally(fs)[item.outcome := Tally(fs)[item.outcome] + 1]
  {
    hide Count;
    var f := Forecast(item.p, LabelIndex(item.outcome).value);
    CountSnoc(fs, f, 0);
    CountSnoc(fs, f, 1);
    CountSnoc(fs, f, 2);
  }

  /** The whole evaluation: validate and collect, count labels, score, bin, and summarise. */
  method ProbabilityCalibration(cases: seq<Case>) returns (r: Result<Report, EvaluationError>)
    ensures r == match Forecasts(cases)
                 case Err(e) => Err(e)
                 case Ok(fs) => if fs == [] then Err(NoCases) else Ok(ReportOf(fs, ConsistencyHits(cases)))
    ensures r.Ok? <==> cases != [] && forall c :: c in cases ==> Valid(c)
    ensures r.Ok? ==> cases != [] && ReportsOn(cases, r.value)
  {
    hide Accepted, Forecasts, LabelIndex, ErrorOf, Ratio, CalibrationError, Accuracy, Skill, Tally, Consistent, Valid, ReportsOn;
    ForecastsMean(cases);
    var counts: map<string, nat> := map["bull" := 0, "base" := 0, "bear" := 0];
    var forecasts: seq<Forecast> := [];
    var hits := 0;
    assert Forecasts(cases[..0]) == Ok(forecasts) && counts == Tally(forecasts) by {
      hide *;
      NoForecasts();
    }
    for i := 0 to |cases|
      invariant Forecasts(cases[..i]) == Ok(forecasts)
      invariant counts == Tally(forecasts) && hits == ConsistencyHits(cases[..i])
    {
      var item := cases[i];
      assert cases[..i + 1] == cases[..i] + [item];
      ForecastStep(cases[..i], forecasts, item);
      if !Accepted(item.p) {
        FirstErrorStays(cases, i + 1);
        return Err(InvalidVector);
      }
      var index := LabelIndex(item.outcome);
      if index.None? {
        FirstErrorStays(cases, i + 1);
        return Err(InvalidLabel);
      }
      TallyStep(forecasts, item);
      counts := counts[item.outcome := counts[item.outcome] + 1];
      forecasts := forecasts + [Forecast(item.p, index.value)];
      HitsSnoc(cases[..i], item);
      if Consistent(item) {
        hits := hits + 1;
      }
    }
    assert cases[..|cases|] == cases;
    if forecasts == [] {
      return Err(NoCases);
    }
    ReportOnCases(cases, forecasts);
    var report := Summarise(forecasts, counts, hits);
    return Ok(report);
  }

  /** The figures of at least one forecast, from the collected forecasts and label counters. */
  method Summarise(forecasts: seq<Forecast>, counts: map<string, nat>, hits: nat) returns (report: Report)
    requires forecasts != [] && counts == Tally(forecasts)
    ensures report == ReportOf(forecasts, hits)
  {
    hide ErrorOf, Ratio, CalibrationError, Accuracy, Skill, Count;
    var samples := |forecasts|;
    var brier := Ratio(Total(Errors(forecasts)), samples);
    var frequencies := Vector(Ratio(counts["bull"] as real, samples), Ratio(counts["base"] as real, samples),
                              Ratio(counts["bear"] as real, samples));
    var reference := Ratio(Total(Errors(Constant(forecasts, frequencies))), samples);
    var error := ExpectedCalibrationError(forecasts);
    report := Report(samples, brier, reference, Skill(brier, reference), error, Accuracy(forecasts),
                     Ratio(hits as real, samples));
  }

  lemma HitsSnoc(cases: seq<Case>, item: Case)
    ensures ConsistencyHits(cases + [item]) == ConsistencyHits(cases) + if Consistent(item) then 1 else 0
  {
    hide Consistent;
    assert (cases + [item])[..|cases|] == cases;
  }

  lemma NoForecasts()
    ensures Forecasts([]) == Ok([]) && Tally([]) == map["bull" := 0, "base" := 0, "bear" := 0]
  {
  }

  /** The dictionary of bins holds exactly the buckets that are not empty. */
  ghost predicate Bins(bins: map<int, seq<Entry>>, fs: seq<Forecast>) {
    forall b: int :: (b in bins <==> Bin(fs, b) != []) && (b in bins ==> bins[b] == Bin(fs, b))
  }

  function AddToBin(bins: map<int, seq<Entry>>, e: Entry): map<int, seq<Entry>> {
    var bucket := Bucket(e.confidence);
    bins[bucket := (if bucket in bins then bins[bucket] else []) + [e]]
  }

  lemma BinSnoc(fs: seq<Forecast>, f: Forecast, b: int)
    ensures Bin(fs + [f], b) == Bin(fs, b) + if Bucket(EntryOf(f).confidence) == b then [EntryOf(f)] else []
  {
    hide Bucket, EntryOf;
    assert (fs + [f])[..|fs|] == fs;
  }

  lemma BinsStep(bins: map<int, seq<Entry>>, fs: seq<Forecast>, f: Forecast)
    requires Bins(bins, fs)
    ensures Bins(AddToBin(bins, EntryOf(f)), fs + [f])
  {
    hide Bin, Bucket, EntryOf;
    forall b: int
      ensures var after := AddToBin(bins, EntryOf(f));
              (b in after <==> Bin(fs + [f], b) != []) && (b in after ==> after[b] == Bin(fs + [f], b))
    {
      BinSnoc(fs, f, b);
    }
  }

  /** Fills the dictionary of bins, then adds up what every bin in it contributes. */
  method ExpectedCalibrationError(fs: seq<Forecast>) returns (error: real)
    requires fs != []
    ensures error == CalibrationError(fs)
  {
    hide Bin, BinTerm, EntryOf, AddToBin, Bucket;
    var bins: map<int, seq<Entry>> := map[];
    assert Bins(bins, fs[..0]) by {
      hide *;
      NoBins();
    }
    for i := 0 to |fs|
      invariant Bins(bins, fs[..i])
    {
      assert fs[..i + 1] == fs[..i] + [fs[i]];
      BinsStep(bins, fs[..i], fs[i]);
      bins := AddToBin(bins, EntryOf(fs[i]));
    }
    assert fs[..|fs|] == fs;
    error := 0.0;
    for b := 0 to 10
      invariant error == ErrorUpTo(fs, b)
    {
      if b in bins {
        error := error + BinTerm(bins[b], |fs|);
      }
    }
  }

  lemma NoBins()
    ensures Bins(map[], [])
  {
  }

  /** What every successful evaluation reports. */
  lemma ReportIsSound(fs: seq<Forecast>, hits: nat)
    requires fs != [] && AcceptedSet(fs) && hits <= |fs|
    ensures var r := ReportOf(fs, hits);
            && 0.0 <= r.brier <= 2.000001 / 3.0
            && 0.0 <= r.reference <= 1.0 / 3.0
            && r.skill <= 1.0
            && Abs(r.accuracy - MeanConfidence(fs)) <= r.calibrationError <= 1.0
            && 0.0 <= r.consistency <= 1.0
  {
    hide *;
    assert UnitSet(fs) by { AcceptedIsUnit(fs); }
    BrierBounds(fs);
    CalibrationErrorBounds(fs);
    ReferenceBounds(fs);
    SkillBound(BrierScore(fs), ReferenceBrier(fs));
    ReportParts(fs, hits);
    ShareBounds(hits, |fs|);
  }

  lemma ShareBounds(part: nat, whole: nat)
    requires whole > 0 && part <= whole
    ensures 0.0 <= Ratio(part as real, whole) <= 1.0
  {
    hide Ratio;
    RatioOrder(0.0, part as real, whole);
    RatioOrder(part as real, whole as real, whole);
    RatioOfWhole(whole);
    RatioAdds(0.0, 0.0, whole);
  }

  lemma AcceptedIsUnit(fs: seq<Forecast>)
    requires AcceptedSet(fs)
    ensures UnitSet(fs)
  {
  }

  lemma ReportParts(fs: seq<Forecast>, hits: nat)
    requires fs != []
    ensures var r := ReportOf(fs, hits);
            && r.brier == BrierScore(fs) && r.reference == ReferenceBrier(fs)
            && r.skill == Skill(BrierScore(fs), ReferenceBrier(fs))
            && r.accuracy == Accuracy(fs) && r.calibrationError == CalibrationError(fs)
            && r.consistency == Ratio(hits as real, |fs|)
  {
    hide BrierScore, ReferenceBrier, Skill, Accuracy, CalibrationError;
  }

  lemma SkillBound(brier: real, reference: real)
    requires brier >= 0.0 && reference >= 0.0
    ensures Skill(brier, reference) <= 1.0
  {
    if reference > 0.0 {
      QuotientSign(brier, reference);
    }
  }

  lemma QuotientSign(x: real, y: real)
    requires x >= 0.0 && y > 0.0
    ensures x / y >= 0.0
  {
  }

  /** The reference score is never negative, and never above 1/3. */
  lemma ReferenceBounds(fs: seq<Forecast>)
    requires fs != [] && AcceptedSet(fs)
    ensures 0.0 <= ReferenceBrier(fs) <= 1.0 / 3.0
  {
    hide Ratio, Mul, ErrorOf;
    var f, n := Frequencies(fs), |fs|;
    ReferenceIdentity(fs);
    SquareSigns(f.bull);
    SquareSigns(f.base);
    SquareSigns(f.bear);
    var xs := Errors(Constant(fs, f));
    forall i | 0 <= i < |xs|
      ensures 0.0 <= xs[i]
    {
      ErrorNonNegative(f, fs[i].actual);
    }
    TotalNonNegative(xs);
    TimesZero(n);
    RatioOrder(0.0, Total(xs), n);
    RatioAdds(0.0, 0.0, n);
  }

  lemma ErrorNonNegative(p: Vector, actual: nat)
    ensures ErrorOf(p, actual) >= 0.0
  {
    hide Square;
    SquareSigns(p.bull - Indicator(actual == 0));
    SquareSigns(p.base - Indicator(actual == 1));
    SquareSigns(p.bear - Indicator(actual == 2));
  }

  // ------------------------------------------------------------ the report in terms of the cases

  /** The label is the first of the largest probability. */
  predicate TopLabel(p: Vector, name: string) {
    || (name == "bull" && p.bull >= p.base && p.bull >= p.bear)
    || (name == "base" && p.base > p.bull && p.base >= p.bear)
    || (name == "bear" && p.bear > p.bull && p.bear > p.base)
  }

  ghost predicate IsLargest(m: real, p: Vector) {
    m >= p.bull && m >= p.base && m >= p.bear && (m == p.bull || m == p.base || m == p.bear)
  }

  /** No label has a greater probability than the predicted one, and every earlier one a smaller. */
  lemma PredictedIsFirstTop(f: Forecast)
    ensures forall j: nat :: j < 3 ==> f.p.At(j) <= f.p.At(f.Predicted())
    ensures forall j: nat :: j < f.Predicted() ==> f.p.At(j) < f.p.At(f.Predicted())
    ensures f.p.At(0) == f.p.bull && f.p.At(1) == f.p.base && f.p.At(2) == f.p.bear
    ensures IsLargest(EntryOf(f).confidence, f.p)
    ensures EntryOf(f).correct <==> f.actual == f.Predicted()
  {
  }

  /** The case is accepted: entries in [0,1] that sum to one within 0.001, and one of the three labels. */
  predicate Valid(c: Case) {
    && 0.0 <= c.p.bull <= 1.0 && 0.0 <= c.p.base <= 1.0 && 0.0 <= c.p.bear <= 1.0
    && 0.999 <= c.p.bull + c.p.base + c.p.bear <= 1.001
    && (c.outcome == "bull" || c.outcome == "base" || c.outcome == "bear")
  }

  predicate ForecastsOf(cases: seq<Case>, fs: seq<Forecast>) {
    |fs| == |cases| && forall i :: 0 <= i < |cases| ==> ForecastOf(cases[i], fs[i])
  }

  predicate ForecastOf(c: Case, f: Forecast) {
    && f.p == c.p && f.actual < 3
    && (f.actual == 0 <==> c.outcome == "bull") && (f.actual == 1 <==> c.outcome == "base") && (f.actual == 2 <==> c.outcome == "bear")
  }

  /** The evaluation goes on exactly if all cases are valid, and then scores each of them. */
  lemma {:induction false} ForecastsMean(cases: seq<Case>)
    ensures Forecasts(cases).Ok? <==> forall c :: c in cases ==> Valid(c)
    ensures Forecasts(cases).Ok? ==> ForecastsOf(cases, Forecasts(cases).value)
  {
    if cases != [] {
      var rest, last := cases[..|cases| - 1], cases[|cases| - 1];
      assert cases == rest + [last];
      ForecastsMean(rest);
      LastForecast(last);
      hide Accepted, LabelIndex, Valid, ForecastOf;
    }
  }

  lemma LastForecast(c: Case)
    ensures Accepted(c.p) && LabelIndex(c.outcome).Some? <==> Valid(c)
    ensures LabelIndex(c.outcome).Some? ==> ForecastOf(c, Forecast(c.p, LabelIndex(c.outcome).value))
  {
  }

  /** The first case that is not valid decides the error. */
  lemma FirstBadCase(cases: seq<Case>, i: nat)
    requires i < |cases| && !Valid(cases[i]) && forall j :: 0 <= j < i ==> Valid(cases[j])
    ensures Forecasts(cases)
            == Err(if 0.0 <= cases[i].p.bull <= 1.0 && 0.0 <= cases[i].p.base <= 1.0 && 0.0 <= cases[i].p.bear <= 1.0
                      && 0.999 <= cases[i].p.bull + cases[i].p.base + cases[i].p.bear <= 1.001
                   then InvalidLabel else InvalidVector)
  {
    ForecastsMean(cases[..i]);
    ForecastStep(cases[..i], Forecasts(cases[..i]).value, cases[i]);
    assert cases[..i + 1] == cases[..i] + [cases[i]];
    FirstErrorStays(cases, i + 1);
    hide Forecasts;
  }

  /** Three times the Brier score of one case: the squared distance from the label that came true. */
  function CaseError(c: Case): real {
    Square(if c.outcome == "bull" then 1.0 - c.p.bull else c.p.bull)
    + Square(if c.outcome == "base" then 1.0 - c.p.base else c.p.base)
    + Square(if c.outcome == "bear" then 1.0 - c.p.bear else c.p.bear)
  }

  lemma CaseErrorMeans(c: Case, f: Forecast)
    requires ForecastOf(c, f)
    ensures ErrorOf(f.p, f.actual) == CaseError(c) / 3.0
  {
    hide Mul;
    MulNegated(1.0 - c.p.bull);
    MulNegated(1.0 - c.p.base);
    MulNegated(1.0 - c.p.bear);
    assert -(1.0 - c.p.bull) == c.p.bull - 1.0 && -(1.0 - c.p.base) == c.p.base - 1.0 && -(1.0 - c.p.bear) == c.p.bear - 1.0;
    assert c.p.bull - 0.0 == c.p.bull && c.p.base - 0.0 == c.p.base && c.p.bear - 0.0 == c.p.bear;
  }

  function CaseErrors(cases: seq<Case>): seq<real> {
    seq(|cases|, i requires 0 <= i < |cases| => CaseError(cases[i]) / 3.0)
  }

  lemma ErrorsOfCases(cases: seq<Case>, fs: seq<Forecast>)
    requires ForecastsOf(cases, fs)
    ensures Errors(fs) == CaseErrors(cases)
  {
    hide ErrorOf, CaseError, ForecastOf;
    forall i | 0 <= i < |cases|
      ensures Errors(fs)[i] == CaseErrors(cases)[i]
    {
      CaseErrorMeans(cases[i], fs[i]);
    }
  }

  /** The cases whose outcome is the first label of the largest probability. */
  function TopHits(cases: seq<Case>): set<int> {
    set i | 0 <= i < |cases| && TopLabel(cases[i].p, cases[i].outcome)
  }

  function OutcomeCount(cases: seq<Case>, name: string): nat {
    |set i: int | 0 <= i < |cases| && cases[i].outcome == name|
  }

  lemma {:induction false} HitsOfCases(cases: seq<Case>, fs: seq<Forecast>)
    requires ForecastsOf(cases, fs)
    ensures CorrectSum(Entries(fs)) == |TopHits(cases)| as real
  {
    if cases != [] {
      var n := |cases| - 1;
      HitsOfCases(cases[..n], fs[..n]);
      CorrectSnoc(fs);
      CorrectMeans(cases[n], fs[n]);
      TopHitsSnoc(cases);
      hide TopLabel, CorrectSum, EntryOf, TopHits, ForecastOf;
    }
  }

  lemma TopHitsSnoc(cases: seq<Case>)
    requires cases != []
    ensures var n := |cases| - 1;
            |TopHits(cases)| == |TopHits(cases[..n])| + if TopLabel(cases[n].p, cases[n].outcome) then 1 else 0
  {
    hide TopLabel;
    var n: int := |cases| - 1;
    var before, after := TopHits(cases[..n]), TopHits(cases);
    assert n !in before;
    assert after == before + if TopLabel(cases[n].p, cases[n].outcome) then {n} else {};
  }

  lemma CorrectSnoc(fs: seq<Forecast>)
    requires fs != []
    ensures CorrectSum(Entries(fs))
            == CorrectSum(Entries(fs[..|fs| - 1])) + if EntryOf(fs[|fs| - 1]).correct then 1.0 else 0.0
  {
    var n := |fs| - 1;
    var items := Entries(fs);
    var xs := seq(|items|, i requires 0 <= i < |items| => Indicator(items[i].correct));
    assert xs[..n] == seq(n, i requires 0 <= i < n => Indicator(Entries(fs[..n])[i].correct));
  }

  lemma CorrectMeans(c: Case, f: Forecast)
    requires ForecastOf(c, f)
    ensures EntryOf(f).correct <==> TopLabel(c.p, c.outcome)
  {
  }

  lemma {:induction false} CountsOfCases(cases: seq<Case>, fs: seq<Forecast>)
    requires ForecastsOf(cases, fs)
    ensures Count(fs, 0) == OutcomeCount(cases, "bull") && Count(fs, 1) == OutcomeCount(cases, "base")
            && Count(fs, 2) == OutcomeCount(cases, "bear")
  {
    if cases != [] {
      var n := |cases| - 1;
      CountsOfCases(cases[..n], fs[..n]);
      OutcomeSnoc(cases, "bull");
      OutcomeSnoc(cases, "base");
      OutcomeSnoc(cases, "bear");
      assert ForecastOf(cases[n], fs[n]);
      hide OutcomeCount;
    }
  }

  lemma OutcomeSnoc(cases: seq<Case>, name: string)
    requires cases != []
    ensures OutcomeCount(cases, name)
            == OutcomeCount(cases[..|cases| - 1], name) + if cases[|cases| - 1].outcome == name then 1 else 0
  {
    var n := |cases| - 1;
    assert (set i: int | 0 <= i < |cases| && cases[i].outcome == name)
           == (set i: int | 0 <= i < n && cases[..n][i].outcome == name) + if cases[n].outcome == name then {n as int} else {};
  }

  // Consistency.

  /** To the nearest integer; a half goes to the even neighbour. */
  lemma RoundedMeans(x: real)
    ensures var n := Rounded(x); -0.5 <= x - n as real <= 0.5 && (x - n as real == 0.5 || x - n as real == -0.5 ==> n % 2 == 0)
  {
  }

  predicate ScoresAgree(c: Case) {
    && Abs((c.recordedScore - c.programScore) as real) <= 5.0
    && Abs((c.programScore - Rounded(100.0 * (c.p.bull - c.p.bear))) as real) <= 1.0
  }

  function AgreeingCases(cases: seq<Case>): set<int> { set i | 0 <= i < |cases| && ScoresAgree(cases[i]) }

  lemma {:induction false} ConsistencyOfCases(cases: seq<Case>)
    ensures ConsistencyHits(cases) == |AgreeingCases(cases)|
  {
    if cases != [] {
      hide ScoresAgree, Consistent, AgreeingCases;
      ConsistencyOfCases(cases[..|cases| - 1]);
      AgreeMeans(cases[|cases| - 1]);
      AgreeingSnoc(cases);
    }
  }

  lemma AgreeingSnoc(cases: seq<Case>)
    requires cases != []
    ensures var n := |cases| - 1;
            |AgreeingCases(cases)| == |AgreeingCases(cases[..n])| + if ScoresAgree(cases[n]) then 1 else 0
  {
    hide ScoresAgree;
    var n: int := |cases| - 1;
    var before, after := AgreeingCases(cases[..n]), AgreeingCases(cases);
    assert n !in before;
    assert after == before + if ScoresAgree(cases[n]) then {n} else {};
  }

  lemma AgreeMeans(c: Case)
    ensures Consistent(c) <==> ScoresAgree(c)
  {
    hide Rounded;
  }

  // Bins.

  /** Bucket b holds the confidences from b tenths to below b + 1 tenths, the last one also 1. */
  lemma BucketMeans(m: real, b: int)
    requires 0.0 <= m <= 1.0 && 0 <= b <= 9
    ensures Bucket(m) == b <==> b as real <= 10.0 * m && (10.0 * m < b as real + 1.0 || b == 9)
  {
  }

  /** Hits less largest probabilities, over the cases whose largest probability lies in bucket b. */
  function GapOfCases(cases: seq<Case>, b: int): real {
    if cases == [] then 0.0
    else
      var c := cases[|cases| - 1];
      var m := Largest(c.p);
      GapOfCases(cases[..|cases| - 1], b)
      + if b as real <= 10.0 * m && (10.0 * m < b as real + 1.0 || b == 9)
        then (if TopLabel(c.p, c.outcome) then 1.0 else 0.0) - m else 0.0
  }

  function Largest(p: Vector): (m: real)
    ensures IsLargest(m, p)
  {
    if p.bull >= p.base && p.bull >= p.bear then p.bull else if p.base >= p.bear then p.base else p.bear
  }

  function TotalGap(cases: seq<Case>, m: nat): real {
    if m == 0 then 0.0 else TotalGap(cases, m - 1) + Abs(GapOfCases(cases, m - 1))
  }

  lemma GapStep(c: Case, f: Forecast, b: int)
    requires ForecastOf(c, f) && Valid(c) && 0 <= b <= 9
    ensures var m, e := Largest(c.p), EntryOf(f);
            && (Bucket(e.confidence) == b <==> b as real <= 10.0 * m && (10.0 * m < b as real + 1.0 || b == 9))
            && e.Gap() == (if TopLabel(c.p, c.outcome) then 1.0 else 0.0) - m
  {
    CorrectMeans(c, f);
    PredictedIsFirstTop(f);
    BucketMeans(Largest(c.p), b);
    hide Bucket, TopLabel, Valid;
    assert EntryOf(f).confidence == Largest(c.p);
  }

  lemma {:induction false} GapsOfCases(cases: seq<Case>, fs: seq<Forecast>, b: int)
    requires ForecastsOf(cases, fs) && (forall c :: c in cases ==> Valid(c)) && 0 <= b <= 9
    ensures GapSum(Bin(fs, b)) == GapOfCases(cases, b)
  {
    if cases != [] {
      var n := |cases| - 1;
      GapsOfCases(cases[..n], fs[..n], b);
      GapStep(cases[n], fs[n], b);
      hide Valid, ForecastOf, TopLabel, EntryOf, Bucket, Entry.Gap, Largest;
      GapSnoc(Bin(fs[..n], b), EntryOf(fs[n]));
    }
  }

  lemma {:induction false} TotalGapOfCases(cases: seq<Case>, fs: seq<Forecast>, m: nat)
    requires ForecastsOf(cases, fs) && (forall c :: c in cases ==> Valid(c)) && m <= 10
    ensures AbsGapsBelow(fs, m) == TotalGap(cases, m)
  {
    hide Valid, ForecastOf, GapSum, Bin, GapOfCases;
    if m > 0 {
      TotalGapOfCases(cases, fs, m - 1);
      GapsOfCases(cases, fs, m - 1);
    }
  }

  /** The report's figures, from the cases. The reference score is that of the outcomes' frequencies. */
  ghost predicate ReportsOn(cases: seq<Case>, r: Report)
    requires cases != []
  {
    var n := |cases|;
    var bull, base, bear := Ratio(OutcomeCount(cases, "bull") as real, n), Ratio(OutcomeCount(cases, "base") as real, n),
                            Ratio(OutcomeCount(cases, "bear") as real, n);
    && r.samples == n
    && r.brier == Ratio(Total(CaseErrors(cases)), n)
    && r.reference == (1.0 - (Square(bull) + Square(base) + Square(bear))) / 3.0
    && (if r.reference > 0.0 then r.skill == 1.0 - r.brier / r.reference else r.skill == 0.0)
    && r.accuracy == Ratio(|TopHits(cases)| as real, n)
    && r.calibrationError == Ratio(TotalGap(cases, 10), n)
    && r.consistency == Ratio(|AgreeingCases(cases)| as real, n)
  }

  lemma ReportOnCases(cases: seq<Case>, fs: seq<Forecast>)
    requires Forecasts(cases) == Ok(fs) && cases != []
    ensures ReportsOn(cases, ReportOf(fs, ConsistencyHits(cases)))
  {
    ForecastsMean(cases);
    hide Forecasts, Valid, ForecastOf, CaseErrors, Ratio, CorrectSum, TopHits, ConsistencyHits, AgreeingCases, Errors, Count, OutcomeCount,
         ErrorUpTo, TotalGap, AbsGapsBelow, Constant;
    ErrorsOfCases(cases, fs);
    HitsOfCases(cases, fs);
    CountsOfCases(cases, fs);
    ConsistencyOfCases(cases);
    TotalGapOfCases(cases, fs, 10);
    ErrorIsGaps(fs, 10);
    ReferenceIdentity(fs);
  }

  // ------------------------------------------------------------ the verdict

  /** A bound from the frozen set: a figure's name and its limit. */
  datatype Bound = Bound(name: string, limit: real)

  /** The numeric figures of a report, by name. */
  function Figure(version: int, r: Report, name: string): Option<real> {
    if name == "version" then Some(version as real)
    else if name == "samples" then Some(r.samples as real)
    else if name == "brier_score" then Some(r.brier)
    else if name == "reference_brier_score" then Some(r.reference)
    else if name == "brier_skill" then Some(r.skill)
    else if name == "expected_calibration_error" then Some(r.calibrationError)
    else if name == "top_label_accuracy" then Some(r.accuracy)
    else if name == "score_probability_consistency" then Some(r.consistency)
    else None
  }

  /** The bounds can name eight figures. */
  lemma FiguresByName(version: int, r: Report, name: string)
    ensures Figure(version, r, "samples") == Some(r.samples as real) && Figure(version, r, "version") == Some(version as real)
    ensures Figure(version, r, "brier_score") == Some(r.brier) && Figure(version, r, "reference_brier_score") == Some(r.reference)
    ensures Figure(version, r, "brier_skill") == Some(r.skill)
    ensures Figure(version, r, "expected_calibration_error") == Some(r.calibrationError)
    ensures Figure(version, r, "top_label_accuracy") == Some(r.accuracy)
    ensures Figure(version, r, "score_probability_consistency") == Some(r.consistency)
    ensures Figure(version, r, name).Some? <==>
              name in {"samples", "version", "brier_score", "reference_brier_score", "brier_skill",
                       "expected_calibration_error", "top_label_accuracy", "score_probability_consistency"}
  {
  }

  /** A missing figure does not meet a minimum. */
  predicate MeetsMinimums(version: int, r: Report, minimums: seq<Bound>) {
    forall b :: b in minimums ==> Figure(version, r, b.name).Some? && Figure(version, r, b.name).value >= b.limit
  }

  /** The maxima in order, up to the first one exceeded; a missing figure met before is an error. */
  function MeetsMaximums(version: int, r: Report, maximums: seq<Bound>): Option<bool> {
    if maximums == [] then Some(true)
    else
      match Figure(version, r, maximums[0].name)
      case None => None
      case Some(x) => if x > maximums[0].limit then Some(false) else MeetsMaximums(version, r, maximums[1..])
  }

  /** `passed`, or nothing when the evaluation raises. */
  function Passed(version: int, r: Report, minimums: seq<Bound>, maximums: seq<Bound>): Option<bool> {
    if MeetsMinimums(version, r, minimums) then MeetsMaximums(version, r, maximums) else Some(false)
  }

  predicate Within(version: int, r: Report, b: Bound) {
    Figure(version, r, b.name).Some? && Figure(version, r, b.name).value <= b.limit
  }

  /** An evaluation passes exactly when every minimum is met and every maximum is kept. */
  lemma {:induction false} PassesIff(version: int, r: Report, minimums: seq<Bound>, maximums: seq<Bound>)
    ensures Passed(version, r, minimums, maximums) == Some(true)
            <==> && (forall b :: b in minimums ==> Figure(version, r, b.name).Some? && b.limit <= Figure(version, r, b.name).value)
                 && (forall b :: b in maximums ==> Figure(version, r, b.name).Some? && Figure(version, r, b.name).value <= b.limit)
  {
    hide Figure;
    if MeetsMinimums(version, r, minimums) && maximums != [] {
      PassesIff(version, r, minimums, maximums[1..]);
      assert maximums[0] in maximums && maximums == [maximums[0]] + maximums[1..];
      assert (forall b :: b in maximums ==> Within(version, r, b))
             <==> Within(version, r, maximums[0]) && forall b :: b in maximums[1..] ==> Within(version, r, b);
    }
  }
}
