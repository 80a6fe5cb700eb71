/**
 * A data point of a time series: a timestamp and a value that is either a
 * Java long or a Java double, and the sum rule of the sum aggregator.
 *
 * Doubles are modelled as exact reals and longs as unbounded integers.
 */
module DataPoints {

  /** The value of a data point: integer-typed (long) or floating-point (double). */
  datatype Value = Long(l: int) | Dbl(d: real)

  /** One observation of a series. */
  datatype DataPoint = DataPoint(timestamp: int, value: Value)

  /** The numeric value, as a double would hold it (a long is widened). */
  function AsReal(v: Value): real
  {
    match v
    case Long(x) => x as real
    case Dbl(d) => d
  }

  /** Adds two values: long + long stays a long, anything else is summed as a double. */
  function Plus(a: Value, b: Value): (r: Value)
    ensures r.Long? <==> a.Long? && b.Long?
    ensures AsReal(r) == AsReal(a) + AsReal(b)
  {
    if a.Long? && b.Long? then Long(a.l + b.l) else Dbl(AsReal(a) + AsReal(b))
  }

  /** The sum of a batch of points, folded from the left starting at long 0. */
  function Sum(ps: seq<DataPoint>): Value
  {
    if ps == [] then Long(0) else Plus(Sum(ps[..|ps| - 1]), ps[|ps| - 1].value)
  }

  /** Every point of the batch carries a long. */
  predicate AllLong(ps: seq<DataPoint>)
  {
    forall i :: 0 <= i < |ps| ==> ps[i].value.Long?
  }

  /** The exact integer total of a batch of long points (doubles contribute nothing). */
  function LongTotal(ps: seq<DataPoint>): int
  {
    if ps == [] then 0
    else (if ps[0].value.Long? then ps[0].value.l else 0) + LongTotal(ps[1..])
  }

  /** The exact real total of a batch, every value widened to a double. */
  function RealTotal(ps: seq<DataPoint>): real
  {
    if ps == [] then 0.0 else AsReal(ps[0].value) + RealTotal(ps[1..])
  }

  lemma {:induction false} LongTotalSnoc(ps: seq<DataPoint>, p: DataPoint)
    ensures LongTotal(ps + [p]) == LongTotal(ps) + (if p.value.Long? then p.value.l else 0)
  {
    if ps != [] {
      assert (ps + [p])[1..] == ps[1..] + [p];
      LongTotalSnoc(ps[1..], p);
    } else {
      assert (ps + [p])[1..] == [];
    }
  }

  lemma {:induction false} RealTotalSnoc(ps: seq<DataPoint>, p: DataPoint)
    ensures RealTotal(ps + [p]) == RealTotal(ps) + AsReal(p.value)
  {
    if ps != [] {
      assert (ps + [p])[1..] == ps[1..] + [p];
      RealTotalSnoc(ps[1..], p);
    } else {
      assert (ps + [p])[1..] == [];
    }
  }

  /**
   * The promotion rule: the sum of a batch is a long exactly when every point
   * is a long, and then it is the exact integer total; otherwise it is a double
   * holding the real total of all values, longs widened.
   */
  lemma {:induction false} SumPromotion(ps: seq<DataPoint>)
    ensures Sum(ps) == if AllLong(ps) then Long(LongTotal(ps)) else Dbl(RealTotal(ps))
  {
    if ps != [] {
      var init, p := ps[..|ps| - 1], ps[|ps| - 1];
      assert ps == init + [p];
      SumPromotion(init);
      LongTotalSnoc(init, p);
      RealTotalSnoc(init, p);
      assert AllLong(ps) <==> AllLong(init) && p.value.Long?;
      if AllLong(init) {
        LongIsReal(init);
      }
    }
  }

  /** On an all-long batch the real total is the integer total widened. */
  lemma {:induction false} LongIsReal(ps: seq<DataPoint>)
    requires AllLong(ps)
    ensures RealTotal(ps) == LongTotal(ps) as real
  {
    if ps != [] {
      LongIsReal(ps[1..]);
    }
  }

  /** Whatever its type, the sum holds the real total of the batch. */
  lemma SumIsRealTotal(ps: seq<DataPoint>)
    ensures AsReal(Sum(ps)) == RealTotal(ps)
  {
    SumPromotion(ps);
    if AllLong(ps) {
      LongIsReal(ps);
    }
  }

  /** A batch of one point passes that point's value through unchanged. */
  lemma SumSingleton(p: DataPoint)
    ensures Sum([p]) == p.value
  {
    assert [p][..0] == [];
  }

  /** The sum does not depend on the order in which the batch is accumulated. */
  lemma {:induction false} SumOrderIndependent(ps: seq<DataPoint>, qs: seq<DataPoint>)
    requires multiset(ps) == multiset(qs)
    ensures Sum(ps) == Sum(qs)
  {
    SumPromotion(ps);
    SumPromotion(qs);
    forall i | 0 <= i < |qs| ensures qs[i] in multiset(ps) {
      assert qs[i] in multiset(qs);
    }
    forall i | 0 <= i < |ps| ensures ps[i] in multiset(qs) {
      assert ps[i] in multiset(ps);
    }
    LongTotalPermutation(ps, qs);
    RealTotalPermutation(ps, qs);
  }

  /** Finds the first point of `ps` inside its permutation `qs`; what is left are permutations too. */
  lemma MatchFirst(ps: seq<DataPoint>, qs: seq<DataPoint>) returns (k: nat)
    requires ps != [] && multiset(ps) == multiset(qs)
    ensures k < |qs| && qs[k] == ps[0]
    ensures multiset(ps[1..]) == multiset(qs[..k] + qs[k + 1..])
  {
    var p := ps[0];
    assert p in multiset(qs) by { assert p in multiset(ps); }
    k :| 0 <= k < |qs| && qs[k] == p;
    assert qs == qs[..k] + [p] + qs[k + 1..];
    assert ps == [p] + ps[1..];
    calc {
      multiset(ps[1..]);
      multiset(ps) - multiset{p};
      multiset(qs[..k]) + multiset{p} + multiset(qs[k + 1..]) - multiset{p};
      multiset(qs[..k] + qs[k + 1..]);
    }
  }

  lemma {:induction false} LongTotalPermutation(ps: seq<DataPoint>, qs: seq<DataPoint>)
    requires multiset(ps) == multiset(qs)
    ensures LongTotal(ps) == LongTotal(qs)
    decreases |ps|
  {
    if ps != [] {
      var k := MatchFirst(ps, qs);
      var rest := qs[..k] + qs[k + 1..];
      LongTotalPermutation(ps[1..], rest);
      LongTotalSplit(qs[..k], ps[0], qs[k + 1..]);
      assert qs == qs[..k] + [ps[0]] + qs[k + 1..];
      assert ([ps[0]] + qs[..k] + qs[k + 1..])[1..] == rest;
    } else {
      assert |qs| == |multiset(qs)| == 0;
    }
  }

  lemma {:induction false} RealTotalPermutation(ps: seq<DataPoint>, qs: seq<DataPoint>)
    requires multiset(ps) == multiset(qs)
    ensures RealTotal(ps) == RealTotal(qs)
    decreases |ps|
  {
    if ps != [] {
      var k := MatchFirst(ps, qs);
      var rest := qs[..k] + qs[k + 1..];
      RealTotalPermutation(ps[1..], rest);
      RealTotalSplit(qs[..k], ps[0], qs[k + 1..]);
      assert qs == qs[..k] + [ps[0]] + qs[k + 1..];
      assert ([ps[0]] + qs[..k] + qs[k + 1..])[1..] == rest;
    } else {
      assert |qs| == |multiset(qs)| == 0;
    }
  }

  /** Moving one point from the middle of a batch to its front keeps the integer total. */
  lemma {:induction false} LongTotalSplit(a: seq<DataPoint>, p: DataPoint, b: seq<DataPoint>)
    ensures LongTotal(a + [p] + b) == LongTotal([p] + a + b)
  {
    if a != [] {
      assert (a + [p] + b)[1..] == a[1..] + [p] + b;
      assert ([p] + a + b)[1..] == a + b;
      assert ([p] + a[1..] + b)[1..] == a[1..] + b;
      assert (a + b)[1..] == a[1..] + b;
      LongTotalSplit(a[1..], p, b);
    }
  }

  /** Moving one point from the middle of a batch to its front keeps the real total. */
  lemma {:induction false} RealTotalSplit(a: seq<DataPoint>, p: DataPoint, b: seq<DataPoint>)
    ensures RealTotal(a + [p] + b) == RealTotal([p] + a + b)
  {
    if a != [] {
      assert (a + [p] + b)[1..] == a[1..] + [p] + b;
      assert ([p] + a + b)[1..] == a + b;
      assert ([p] + a[1..] + b)[1..] == a[1..] + b;
      assert (a + b)[1..] == a[1..] + b;
      RealTotalSplit(a[1..], p, b);
    }
  }
}
