/** The counting loops of the staged evaluation, the scores built from the counters, and the
    chronological split. */
module StageMetrics {
  import opened Common
  import opened RealArithmetic
  import Sorting

  /** One evaluated record: when it is from, the assets expected and found, its labelled cluster,
      and which of the other checks it passed. */
  datatype Record = Record(time: int, expected: set<string>, found: set<string>, cluster: Option<string>,
                           typeHit: bool, timeHit: bool)

  datatype Counts = Counts(truePositive: nat, falsePositive: nat, falseNegative: nat)

  // ------------------------------------------------------------ pairs of records

  predicate ExpectedSame(a: Record, b: Record) {
    a.cluster.Some? && a.cluster.value != "" && a.cluster == b.cluster
  }

  datatype Pair = Pair(left: nat, right: nat)

  /** The pairs of different records, each once, with their labelled and their predicted answer. */
  ghost function Pairs(rs: seq<Record>, same: (Record, Record) -> bool, expected: bool, predicted: bool): set<Pair> {
    set i: nat, j: nat | i < |rs| && j < |rs| && i < j && Answers(rs, same, i, j, expected, predicted) :: Pair(i, j)
  }

  predicate Answers(rs: seq<Record>, same: (Record, Record) -> bool, i: nat, j: nat, expected: bool, predicted: bool)
    requires i < |rs| && j < |rs|
  {
    ExpectedSame(rs[i], rs[j]) == expected && same(rs[i], rs[j]) == predicted
  }

  /** What the nested loops have counted when they are at (left, right). */
  ghost predicate CountedUpTo(rs: seq<Record>, same: (Record, Record) -> bool, left: nat, right: nat,
                              pairs: set<Pair>, expected: bool, predicted: bool) {
    forall p: Pair :: p in pairs <==>
      p.left < p.right < |rs| && (p.left < left || (p.left == left && p.right < right))
      && Answers(rs, same, p.left, p.right, expected, predicted)
  }

  method ClusterCounts(rs: seq<Record>, same: (Record, Record) -> bool) returns (c: Counts)
    ensures c.truePositive == |Pairs(rs, same, true, true)|
    ensures c.falsePositive == |Pairs(rs, same, false, true)|
    ensures c.falseNegative == |Pairs(rs, same, true, false)|
  {
    hide Answers;
    var tp, fp, fn := 0, 0, 0;
    ghost var tps: set<Pair>, fps: set<Pair>, fns: set<Pair> := {}, {}, {};
    for left := 0 to |rs|
      invariant CountedUpTo(rs, same, left, left + 1, tps, true, true) && tp == |tps|
      invariant CountedUpTo(rs, same, left, left + 1, fps, false, true) && fp == |fps|
      invariant CountedUpTo(rs, same, left, left + 1, fns, true, false) && fn == |fns|
    {
      for right := left + 1 to |rs|
        invariant CountedUpTo(rs, same, left, right, tps, true, true) && tp == |tps|
        invariant CountedUpTo(rs, same, left, right, fps, false, true) && fp == |fps|
        invariant CountedUpTo(rs, same, left, right, fns, true, false) && fn == |fns|
      {
        var expectedSame := ExpectedSame(rs[left], rs[right]);
        var predictedSame := same(rs[left], rs[right]);
        tps := Count(rs, same, left, right, tps, true, true);
        fps := Count(rs, same, left, right, fps, false, true);
        fns := Count(rs, same, left, right, fns, true, false);
        AnswersMeans(rs, same, left, right);
        if expectedSame && predictedSame {
          tp := tp + 1;
        } else if predictedSame {
          fp := fp + 1;
        } else if expectedSame {
          fn := fn + 1;
        }
      }
      NextRow(rs, same, left, tps, true, true);
      NextRow(rs, same, left, fps, false, true);
      NextRow(rs, same, left, fns, true, false);
    }
    AllCounted(rs, same, tps, true, true);
    AllCounted(rs, same, fps, false, true);
    AllCounted(rs, same, fns, true, false);
    return Counts(tp, fp, fn);
  }

  lemma AnswersMeans(rs: seq<Record>, same: (Record, Record) -> bool, i: nat, j: nat)
    requires i < |rs| && j < |rs|
    ensures forall e, p {:trigger Answers(rs, same, i, j, e, p)} ::
              Answers(rs, same, i, j, e, p) <==> ExpectedSame(rs[i], rs[j]) == e && same(rs[i], rs[j]) == p
  {
  }

  ghost function Count(rs: seq<Record>, same: (Record, Record) -> bool, left: nat, right: nat, pairs: set<Pair>,
                       expected: bool, predicted: bool): (more: set<Pair>)
    requires left < right < |rs| && CountedUpTo(rs, same, left, right, pairs, expected, predicted)
    ensures CountedUpTo(rs, same, left, right + 1, more, expected, predicted)
    ensures |more| == |pairs| + if Answers(rs, same, left, right, expected, predicted) then 1 else 0
  {
    assert Pair(left, right) !in pairs;
    if Answers(rs, same, left, right, expected, predicted) then pairs + {Pair(left, right)} else pairs
  }

  lemma NextRow(rs: seq<Record>, same: (Record, Record) -> bool, left: nat, pairs: set<Pair>, expected: bool, predicted: bool)
    requires left < |rs| && CountedUpTo(rs, same, left, |rs|, pairs, expected, predicted)
    ensures CountedUpTo(rs, same, left + 1, left + 2, pairs, expected, predicted)
  {
    hide Answers;
  }

  lemma AllCounted(rs: seq<Record>, same: (Record, Record) -> bool, pairs: set<Pair>, expected: bool, predicted: bool)
    requires CountedUpTo(rs, same, |rs|, |rs| + 1, pairs, expected, predicted)
    ensures pairs == Pairs(rs, same, expected, predicted)
  {
    hide Answers;
  }

  /** Two records are labelled as one cluster when both name the same one, and it is not the empty name. */
  lemma PairsMean(rs: seq<Record>, same: (Record, Record) -> bool, expected: bool, predicted: bool, i: nat, j: nat)
    ensures Pair(i, j) in Pairs(rs, same, expected, predicted) <==>
              && i < j < |rs|
              && (expected <==> rs[i].cluster != None && rs[i].cluster != Some("") && rs[j].cluster == rs[i].cluster)
              && (predicted <==> same(rs[i], rs[j]))
  {
  }

  /** The counters split the labelled pairs and the predicted pairs. */
  lemma CountersSplitThePairs(rs: seq<Record>, same: (Record, Record) -> bool)
    ensures Pairs(rs, same, true, true) + Pairs(rs, same, true, false)
            == set i: nat, j: nat | i < |rs| && j < |rs| && i < j && ExpectedSame(rs[i], rs[j]) :: Pair(i, j)
    ensures Pairs(rs, same, true, true) + Pairs(rs, same, false, true)
            == set i: nat, j: nat | i < |rs| && j < |rs| && i < j && same(rs[i], rs[j]) :: Pair(i, j)
    ensures Pairs(rs, same, true, true) !! Pairs(rs, same, true, false)
    ensures Pairs(rs, same, true, true) !! Pairs(rs, same, false, true)
  {
  }

  // ------------------------------------------------------------ assets and single checks

  datatype Hits = Hits(assets: Counts, exact: nat, types: nat, times: nat)

  function HitsOf(rs: seq<Record>): (h: Hits)
    ensures h.exact <= |rs| && h.types <= |rs| && h.times <= |rs|
  {
    if rs == [] then Hits(Counts(0, 0, 0), 0, 0, 0)
    else
      var before, r := HitsOf(rs[..|rs| - 1]), rs[|rs| - 1];
      Hits(Counts(before.assets.truePositive + |r.expected * r.found|,
                  before.assets.falsePositive + |r.found - r.expected|,
                  before.assets.falseNegative + |r.expected - r.found|),
           before.exact + (if r.found == r.expected then 1 else 0),
           before.types + (if r.typeHit then 1 else 0),
           before.times + (if r.timeHit then 1 else 0))
  }

  method CountHits(rs: seq<Record>) returns (h: Hits)
    ensures h == HitsOf(rs)
  {
    var tp: nat, fp: nat, fn: nat, exact: nat, types: nat, times: nat := 0, 0, 0, 0, 0, 0;
    for i := 0 to |rs|
      invariant Hits(Counts(tp, fp, fn), exact, types, times) == HitsOf(rs[..i])
    {
      assert rs[..i + 1][..i] == rs[..i];
      var r := rs[i];
      tp := tp + |r.expected * r.found|;
      fp := fp + |r.found - r.expected|;
      fn := fn + |r.expected - r.found|;
      if r.found == r.expected {
        exact := exact + 1;
      }
      if r.typeHit {
        types := types + 1;
      }
      if r.timeHit {
        times := times + 1;
      }
    }
    assert rs[..|rs|] == rs;
    return Hits(Counts(tp, fp, fn), exact, types, times);
  }

  predicate Perfect(r: Record) { r.found == r.expected && r.typeHit && r.timeHit }

  /** The counters show no error exactly when no record has one. */
  lemma {:induction false} NoErrorsMeansPerfect(rs: seq<Record>)
    ensures var h := HitsOf(rs);
            (h.assets.falsePositive == 0 && h.assets.falseNegative == 0 && h.exact == |rs| && h.types == |rs| && h.times == |rs|)
            <==> forall r :: r in rs ==> Perfect(r)
  {
    if rs != [] {
      var n := |rs| - 1;
      NoErrorsMeansPerfect(rs[..n]);
      assert rs == rs[..n] + [rs[n]];
      if Perfect(rs[n]) {
        assert rs[n].found - rs[n].expected == {} && rs[n].expected - rs[n].found == {};
      }
    }
  }

  // ------------------------------------------------------------ scores

  function SafeRatio(numerator: nat, denominator: nat, empty: real): real {
    if denominator == 0 then empty else Ratio(numerator as real, denominator)
  }

  function Precision(c: Counts): real { SafeRatio(c.truePositive, c.truePositive + c.falsePositive, 1.0) }

  function Recall(c: Counts): real { SafeRatio(c.truePositive, c.truePositive + c.falseNegative, 1.0) }

  function F1(c: Counts): real {
    var p, r := Precision(c), Recall(c);
    if p + r == 0.0 then 0.0 else 2.0 * p * r / (p + r)
  }

  lemma PartBounds(part: nat, whole: nat)
    requires whole > 0 && part <= whole
    ensures 0.0 <= Ratio(part as real, whole) <= 1.0
    ensures Ratio(part as real, whole) == 1.0 <==> part == whole
    ensures Ratio(part as real, whole) == 0.0 <==> part == 0
  {
    hide Ratio;
    var q := Ratio(part as real, whole);
    RatioTimes(part as real, whole);
    TimesZero(whole);
    RatioOfWhole(whole);
    RatioTimes(whole as real, whole);
    RatioOrder(0.0, part as real, whole);
    RatioOrder(part as real, whole as real, whole);
    RatioUnique(0.0, whole, 0.0);
  }

  lemma SafeRatioBounds(part: nat, whole: nat)
    requires part <= whole
    ensures 0.0 <= SafeRatio(part, whole, 1.0) <= 1.0
    ensures SafeRatio(part, whole, 1.0) == 1.0 <==> part == whole
    ensures 0.0 <= SafeRatio(part, whole, 0.0) <= 1.0
    ensures whole > 0 ==> (SafeRatio(part, whole, 0.0) == 1.0 <==> part == whole)
  {
    hide Ratio;
    if whole > 0 {
      PartBounds(part, whole);
    }
  }

  lemma RatioTimesWhole(x: real, n: nat)
    requires n > 0
    ensures Ratio(x, n) * n as real == x
  {
  }

  lemma Cancel(x: real, y: real, z: real)
    requires z > 0.0 && x * z == y * z
    ensures x == y
  {
  }

  /** Precision and recall over their sum, with the sizes of the two sides multiplied out. */
  lemma HarmonicMean(t: real, a: real, b: real, p: real, r: real)
    requires p * a == t && r * b == t
    ensures (2.0 * p * r) * (a + b) == (2.0 * t) * (p + r)
  {
    assert (p * r) * a == (p * a) * r;
    assert (p * r) * b == (r * b) * p;
    assert (p * r) * (a + b) == (p * r) * a + (p * r) * b;
    assert t * r + t * p == t * (p + r);
    var x, y := p * r, t * (p + r);
    assert x * (a + b) == y;
    assert (2.0 * x) * (a + b) == 2.0 * (x * (a + b));
    assert 2.0 * p * r == 2.0 * x && (2.0 * t) * (p + r) == 2.0 * y;
  }

  lemma QuotientIs(n: real, d: real, x: real, y: real)
    requires d > 0.0 && y > 0.0 && n * y == x * d
    ensures n / d == x / y
  {
    var q, s := n / d, x / y;
    assert q * d == n && s * y == x;
    assert (q * y) * d == (q * d) * y == n * y == x * d == (s * y) * d;
    Cancel(q * y, s * y, d);
    Cancel(q, s, y);
  }

  /** The F1 score is the Dice coefficient of the counters, taken as 1 when all of them are zero. */
  lemma F1IsDice(c: Counts)
    ensures var whole := 2 * c.truePositive + c.falsePositive + c.falseNegative;
            F1(c) == SafeRatio(2 * c.truePositive, whole, 1.0)
  {
    var t, a, b := c.truePositive, c.truePositive + c.falsePositive, c.truePositive + c.falseNegative;
    if t > 0 {
      F1WhenSomeMatch(c);
    } else {
      assert a > 0 ==> Ratio(0.0, a) == 0.0;
      assert b > 0 ==> Ratio(0.0, b) == 0.0;
      assert a + b > 0 ==> Ratio(0.0, a + b) == 0.0;
    }
  }

  lemma F1WhenSomeMatch(c: Counts)
    requires c.truePositive > 0
    ensures F1(c) == Ratio((2 * c.truePositive) as real, 2 * c.truePositive + c.falsePositive + c.falseNegative)
  {
    hide Ratio;
    var t, a, b := c.truePositive, c.truePositive + c.falsePositive, c.truePositive + c.falseNegative;
    var p, r := Precision(c), Recall(c);
    RatioTimesWhole(t as real, a);
    RatioTimesWhole(t as real, b);
    PartBounds(t, a);
    PartBounds(t, b);
    assert p > 0.0 && r > 0.0;
    HarmonicMean(t as real, a as real, b as real, p, r);
    QuotientIs(2.0 * p * r, p + r, 2.0 * t as real, (a + b) as real);
    RatioIsQuotient((2 * t) as real, a + b);
  }

  lemma RatioIsQuotient(x: real, n: nat)
    requires n > 0
    ensures Ratio(x, n) == x / n as real
  {
  }

  function Composite(rs: seq<Record>, clusters: Counts): real {
    var h := HitsOf(rs);
    0.25 * Precision(h.assets) + 0.20 * Recall(h.assets) + 0.15 * SafeRatio(h.exact, |rs|, 0.0)
    + 0.15 * SafeRatio(h.types, |rs|, 0.0) + 0.15 * F1(clusters) + 0.10 * SafeRatio(h.times, |rs|, 0.0)
  }

  /** The composite score lies between 0 and 1, and is 1 exactly for a non-empty set in which every
      record is right and every pair is judged as labelled. */
  lemma CompositeBounds(rs: seq<Record>, clusters: Counts)
    ensures 0.0 <= Composite(rs, clusters) <= 1.0
    ensures Composite(rs, clusters) == 1.0
            <==> rs != [] && (forall r :: r in rs ==> Perfect(r)) && clusters.falsePositive == 0 && clusters.falseNegative == 0
  {
    hide SafeRatio, F1, HitsOf, Perfect;
    var h := HitsOf(rs);
    NoErrorsMeansPerfect(rs);
    SafeRatioBounds(h.assets.truePositive, h.assets.truePositive + h.assets.falsePositive);
    SafeRatioBounds(h.assets.truePositive, h.assets.truePositive + h.assets.falseNegative);
    SafeRatioBounds(h.exact, |rs|);
    SafeRatioBounds(h.types, |rs|);
    SafeRatioBounds(h.times, |rs|);
    F1IsDice(clusters);
    SafeRatioBounds(2 * clusters.truePositive, 2 * clusters.truePositive + clusters.falsePositive + clusters.falseNegative);
    if rs == [] {
      assert SafeRatio(h.exact, 0, 0.0) == 0.0 by { EmptyRatio(h.exact); }
    }
  }

  /** A quarter for precision, a fifth for recall, three twentieths each for exact assets, event types and
      clusters, a tenth for times; an empty denominator counts as perfect precision or recall, but as no
      hits. */
  lemma CompositeWeights(rs: seq<Record>, clusters: Counts)
    ensures var h := HitsOf(rs);
            var tp, found, wanted := h.assets.truePositive, h.assets.truePositive + h.assets.falsePositive,
                                     h.assets.truePositive + h.assets.falseNegative;
            100.0 * Composite(rs, clusters)
            == 25.0 * (if found == 0 then 1.0 else Ratio(tp as real, found))
               + 20.0 * (if wanted == 0 then 1.0 else Ratio(tp as real, wanted))
               + 15.0 * (if rs == [] then 0.0 else Ratio(h.exact as real, |rs|))
               + 15.0 * (if rs == [] then 0.0 else Ratio(h.types as real, |rs|))
               + 10.0 * (if rs == [] then 0.0 else Ratio(h.times as real, |rs|))
               + 15.0 * F1(clusters)
  {
    hide F1, HitsOf, Ratio;
  }

  lemma EmptyRatio(part: nat)
    ensures SafeRatio(part, 0, 0.0) == 0.0
  {
  }

  // ------------------------------------------------------------ the chronological split

  const Earlier: (Record, Record) -> bool := (a: Record, b: Record) => a.time < b.time

  function SplitAt(n: nat): nat { if n == 0 then 0 else Max(1, 7 * n / 10) }

  function TimesOf(rs: seq<Record>): seq<int> {
    seq(|rs|, i requires 0 <= i < |rs| => rs[i].time)
  }

  function MaxOf(times: seq<int>): (m: int)
    requires times != []
    ensures m in times && forall t :: t in times ==> t <= m
  {
    if |times| == 1 then times[0] else
      var m := MaxOf(times[1..]);
      assert times == [times[0]] + times[1..];
      if times[0] < m then m else times[0]
  }

  function MinOf(times: seq<int>): (m: int)
    requires times != []
    ensures m in times && forall t :: t in times ==> m <= t
  {
    if |times| == 1 then times[0] else
      var m := MinOf(times[1..]);
      assert times == [times[0]] + times[1..];
      if m < times[0] then m else times[0]
  }

  /** Sort by time, cut at seven tenths, and check that the cut falls between two times. */
  method WalkForward(rs: seq<Record>) returns (train: seq<Record>, heldOut: seq<Record>, chronological: bool)
    ensures multiset(train) + multiset(heldOut) == multiset(rs)
    ensures |train| == SplitAt(|rs|) && (heldOut == [] <==> |rs| <= 1)
    ensures |rs| >= 2 ==> 10 * |train| <= 7 * |rs| < 10 * (|train| + 1)
    ensures forall a, b :: a in train && b in heldOut ==> a.time <= b.time
    ensures chronological <==> forall a, b :: a in train && b in heldOut ==> a.time < b.time
  {
    var ordered := Sorting.Sort(Earlier, rs);
    Sorting.SortOrders(Earlier, rs);
    Sorting.SortPermutes(Earlier, rs);
    assert |ordered| == |rs| by {
      Sorting.SortMembers(Earlier, rs);
    }
    var cut := SplitAt(|ordered|);
    train, heldOut := ordered[..cut], ordered[cut..];
    assert ordered == train + heldOut;
    CutIsOrdered(ordered, cut);
    var trainTimes, heldOutTimes := TimesOf(train), TimesOf(heldOut);
    chronological := trainTimes == [] || heldOutTimes == [] || MaxOf(trainTimes) < MinOf(heldOutTimes);
    TimesMember(train);
    TimesMember(heldOut);
  }

  lemma CutIsOrdered(ordered: seq<Record>, cut: nat)
    requires cut <= |ordered| && Sorting.Ordered(Earlier, ordered)
    ensures forall a, b :: a in ordered[..cut] && b in ordered[cut..] ==> a.time <= b.time
  {
  }

  lemma TimesMember(rs: seq<Record>)
    ensures forall r :: r in rs ==> r.time in TimesOf(rs)
    ensures forall t :: t in TimesOf(rs) ==> exists r :: r in rs && r.time == t
  {
    var times := TimesOf(rs);
    forall r | r in rs
      ensures r.time in times
    {
      var i :| 0 <= i < |rs| && rs[i] == r;
      assert times[i] == r.time;
    }
    forall t | t in times
      ensures exists r :: r in rs && r.time == t
    {
      var i :| 0 <= i < |times| && times[i] == t;
      assert rs[i] in rs && rs[i].time == t;
    }
  }
}
