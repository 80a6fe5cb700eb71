/**
 * The scenarios of SumAggregatorTest, driven through createAggregatorGroup,
 * hasNext and next. Each method returns what the iterator produced and its
 * contract states the values the scenario asserts.
 */
module SumAggregatorTests {
  import opened Wrappers
  import opened DataPoints
  import opened MergeSpec
  import opened SumAggregator

  // ---------------------------------------------------------------------
  // The input groups

  function LongGroup(): seq<DataPoint>
  {
    [DataPoint(1, Long(10)), DataPoint(1, Long(20)), DataPoint(1, Long(3)),
     DataPoint(2, Long(1)), DataPoint(2, Long(3)), DataPoint(2, Long(5)),
     DataPoint(3, Long(25))]
  }

  function DoubleGroup(): seq<DataPoint>
  {
    [DataPoint(1, Dbl(10.0)), DataPoint(1, Dbl(20.3)), DataPoint(1, Dbl(3.0)),
     DataPoint(2, Dbl(1.0)), DataPoint(2, Dbl(3.2)), DataPoint(2, Dbl(5.0)),
     DataPoint(3, Dbl(25.1))]
  }

  function MixedGroup(): seq<DataPoint>
  {
    [DataPoint(1, Dbl(10.0)), DataPoint(1, Dbl(20.3)), DataPoint(1, Long(3)),
     DataPoint(2, Long(1)), DataPoint(2, Dbl(3.2)), DataPoint(2, Dbl(5.0)),
     DataPoint(3, Dbl(25.1))]
  }

  function FirstGroup(time: int): seq<DataPoint>
  {
    [DataPoint(time + 1, Long(10)), DataPoint(time + 1, Long(3)),
     DataPoint(time + 2, Long(1)), DataPoint(time + 2, Long(5)),
     DataPoint(time + 3, Long(25))]
  }

  function SecondGroup(time: int): seq<DataPoint>
  {
    [DataPoint(time + 1, Long(20)), DataPoint(time + 2, Long(3))]
  }

  // ---------------------------------------------------------------------
  // The aggregator's output on each input

  lemma SumOfOne(x: DataPoint)
    ensures Sum([x]) == Plus(Long(0), x.value)
  {
    assert [x][..0] == [];
  }

  lemma SumOfTwo(x: DataPoint, y: DataPoint)
    ensures Sum([x, y]) == Plus(Plus(Long(0), x.value), y.value)
  {
    assert [x, y][..1] == [x];
    SumOfOne(x);
  }

  lemma SumOfThree(x: DataPoint, y: DataPoint, z: DataPoint)
    ensures Sum([x, y, z]) == Plus(Plus(Plus(Long(0), x.value), y.value), z.value)
  {
    assert [x, y, z][..2] == [x, y];
    SumOfTwo(x, y);
  }

  lemma OneGroup(g: seq<DataPoint>, t: int)
    ensures MinHead([g]) == (if g == [] then None else Some(g[0].timestamp))
    ensures Batch([g], t) == g[..LeadingCount(g, t)]
    ensures Drop([g], t) == [g[LeadingCount(g, t)..]]
  {
    assert [g][..0] == [];
  }

  lemma TwoGroups(a: seq<DataPoint>, b: seq<DataPoint>, t: int)
    ensures MinHead([a, b]) ==
      if a == [] then MinHead([b])
      else if b == [] || a[0].timestamp <= b[0].timestamp then Some(a[0].timestamp)
      else Some(b[0].timestamp)
    ensures Batch([a, b], t) == a[..LeadingCount(a, t)] + b[..LeadingCount(b, t)]
    ensures Drop([a, b], t) == [a[LeadingCount(a, t)..], b[LeadingCount(b, t)..]]
  {
    assert [a, b][..1] == [a];
    OneGroup(a, t);
    OneGroup(b, t);
  }

  /** One step of the merge over a single group whose leading run at `t` has `n` points. */
  lemma OneGroupStep(g: seq<DataPoint>, t: int, n: nat)
    requires g != [] && g[0].timestamp == t
    requires n <= |g| && (forall k :: 0 <= k < n ==> g[k].timestamp == t) && (n < |g| ==> g[n].timestamp != t)
    ensures MergeSum([g]) == [DataPoint(t, Sum(g[..n]))] + MergeSum([g[n..]])
  {
    LeadingCountUnique(g, t, n);
    OneGroup(g, t);
    MergeSumStep([g], t);
  }

  /** A group holding one point, at `t`, yields that point's sum alone. */
  lemma LastRun(g: seq<DataPoint>, t: int)
    requires |g| == 1 && g[0].timestamp == t
    ensures MergeSum([g]) == [DataPoint(t, Sum([g[0]]))]
  {
    var e: seq<DataPoint> := [];
    OneGroupStep(g, t, 1);
    assert g[..1] == [g[0]] && g[1..] == e;
    MergeSumEmpty([e]);
  }

  /** A group of three points at 2 and one at 3. */
  lemma TwoRuns(g: seq<DataPoint>)
    requires |g| == 4
    requires g[0].timestamp == g[1].timestamp == g[2].timestamp == 2 && g[3].timestamp == 3
    ensures MergeSum([g]) == [DataPoint(2, Sum([g[0], g[1], g[2]])), DataPoint(3, Sum([g[3]]))]
  {
    OneGroupStep(g, 2, 3);
    assert g[..3] == [g[0], g[1], g[2]];
    LastRun(g[3..], 3);
  }

  /** One group of three runs of three, three and one point, at timestamps 1, 2 and 3. */
  lemma ThreeRuns(g: seq<DataPoint>)
    requires |g| == 7
    requires g[0].timestamp == g[1].timestamp == g[2].timestamp == 1
    requires g[3].timestamp == g[4].timestamp == g[5].timestamp == 2
    requires g[6].timestamp == 3
    ensures MergeSum([g]) ==
      [DataPoint(1, Sum([g[0], g[1], g[2]])), DataPoint(2, Sum([g[3], g[4], g[5]])), DataPoint(3, Sum([g[6]]))]
  {
    OneGroupStep(g, 1, 3);
    assert g[..3] == [g[0], g[1], g[2]];
    TwoRuns(g[3..]);
  }

  lemma LongValuesOutput()
    ensures MergeSum([LongGroup()]) == [DataPoint(1, Long(33)), DataPoint(2, Long(9)), DataPoint(3, Long(25))]
  {
    var g := LongGroup();
    ThreeRuns(g);
    SumOfThree(g[0], g[1], g[2]);
    SumOfThree(g[3], g[4], g[5]);
    SumOfOne(g[6]);
  }

  lemma DoubleValuesOutput()
    ensures MergeSum([DoubleGroup()]) == [DataPoint(1, Dbl(33.3)), DataPoint(2, Dbl(9.2)), DataPoint(3, Dbl(25.1))]
  {
    var g := DoubleGroup();
    ThreeRuns(g);
    SumOfThree(g[0], g[1], g[2]);
    SumOfThree(g[3], g[4], g[5]);
    SumOfOne(g[6]);
  }

  lemma MixedTypeValuesOutput()
    ensures MergeSum([MixedGroup()]) == [DataPoint(1, Dbl(33.3)), DataPoint(2, Dbl(9.2)), DataPoint(3, Dbl(25.1))]
  {
    var g := MixedGroup();
    ThreeRuns(g);
    SumOfThree(g[0], g[1], g[2]);
    SumOfThree(g[3], g[4], g[5]);
    SumOfOne(g[6]);
  }

  /** One step of the merge over two groups, when `a` holds the smallest head `t`. */
  lemma TwoGroupStep(a: seq<DataPoint>, b: seq<DataPoint>, t: int, na: nat, nb: nat,
                      ra: seq<DataPoint>, rb: seq<DataPoint>, batch: seq<DataPoint>)
    requires a != [] && a[0].timestamp == t && (b != [] ==> t <= b[0].timestamp)
    requires na <= |a| && (forall k :: 0 <= k < na ==> a[k].timestamp == t) && (na < |a| ==> a[na].timestamp != t)
    requires nb <= |b| && (forall k :: 0 <= k < nb ==> b[k].timestamp == t) && (nb < |b| ==> b[nb].timestamp != t)
    requires ra == a[na..] && rb == b[nb..] && batch == a[..na] + b[..nb]
    ensures MergeSum([a, b]) == [DataPoint(t, Sum(batch))] + MergeSum([ra, rb])
  {
    LeadingCountUnique(a, t, na);
    LeadingCountUnique(b, t, nb);
    TwoGroups(a, b, t);
    MergeSumStep([a, b], t);
  }

  /** A first group of the one point `p` beside an exhausted second group. */
  lemma LastOfTwo(p: DataPoint)
    ensures MergeSum([[p], []]) == [DataPoint(p.timestamp, Sum([p]))]
  {
    var e: seq<DataPoint> := [];
    TwoGroupStep([p], e, p.timestamp, 1, 0, e, e, [p]);
    MergeSumEmpty([e, e]);
  }

  /** Groups of three points and one point whose runs meet at t + 2, then t + 3. */
  lemma TwoGroupTail(a: seq<DataPoint>, b: seq<DataPoint>, t: int)
    requires |a| == 3 && |b| == 1
    requires a[0].timestamp == a[1].timestamp == b[0].timestamp == t + 2 && a[2].timestamp == t + 3
    ensures MergeSum([a, b]) == [DataPoint(t + 2, Sum([a[0], a[1], b[0]])), DataPoint(t + 3, Sum([a[2]]))]
  {
    var e: seq<DataPoint> := [];
    assert a[2..] == [a[2]] && b[1..] == e;
    assert a[..2] + b[..1] == [a[0], a[1], b[0]];
    TwoGroupStep(a, b, t + 2, 2, 1, [a[2]], e, [a[0], a[1], b[0]]);
    LastOfTwo(a[2]);
  }

  /** Groups of five and two points whose runs meet at t + 1, t + 2 and t + 3. */
  lemma TwoGroupRuns(a: seq<DataPoint>, b: seq<DataPoint>, t: int)
    requires |a| == 5 && |b| == 2
    requires a[0].timestamp == a[1].timestamp == b[0].timestamp == t + 1
    requires a[2].timestamp == a[3].timestamp == b[1].timestamp == t + 2
    requires a[4].timestamp == t + 3
    ensures MergeSum([a, b]) ==
      [DataPoint(t + 1, Sum([a[0], a[1], b[0]])), DataPoint(t + 2, Sum([a[2], a[3], b[1]])), DataPoint(t + 3, Sum([a[4]]))]
  {
    var ra, rb := a[2..], b[1..];
    assert a[..2] + b[..1] == [a[0], a[1], b[0]];
    TwoGroupStep(a, b, t + 1, 2, 1, ra, rb, [a[0], a[1], b[0]]);
    TwoGroupTail(ra, rb, t);
  }

  lemma MultipleGroupsOutput(time: int)
    ensures MergeSum([FirstGroup(time), SecondGroup(time)])
      == [DataPoint(time + 1, Long(33)), DataPoint(time + 2, Long(9)), DataPoint(time + 3, Long(25))]
  {
    var a, b := FirstGroup(time), SecondGroup(time);
    TwoGroupRuns(a, b, time);
    SumOfThree(a[0], a[1], b[0]);
    SumOfThree(a[2], a[3], b[1]);
    SumOfOne(a[4]);
  }

  // ---------------------------------------------------------------------
  // The scenarios

  /** One round of the scenarios: hasNext, then next, while output remains. */
  method HasNextThenNext(group: SumDataPointGroup, ghost whole: seq<DataPoint>) returns (b: bool, p: DataPoint)
    requires group.Valid() && whole == MergeSum(group.groups) && |group.Emitted| < |whole|
    modifies group, group.cursors
    ensures group.Valid() && b
    ensures group.Emitted == old(group.Emitted) + [p] && p == whole[|old(group.Emitted)|]
  {
    assert whole == group.Emitted + MergeSum(group.Rest);
    b := group.HasNext();
    var r := group.Next();
    p := r.value;
  }

  /**
   * Reads a group that holds exactly three points to the end, calling hasNext
   * before each next; `seen` collects those hasNext answers.
   */
  method ReadThree(group: SumDataPointGroup) returns (out: seq<DataPoint>, seen: seq<bool>, more: bool)
    requires group.Valid() && group.Emitted == [] && |MergeSum(group.groups)| == 3
    modifies group, group.cursors
    ensures out == MergeSum(group.groups) && seen == [true, true, true] && !more
  {
    ghost var whole := MergeSum(group.groups);
    out, seen := [], [];
    var i := 0;
    while i < 3
      invariant 0 <= i <= 3 && group.Valid() && out == group.Emitted == whole[..i]
      invariant seen == [true, true, true][..i]
    {
      var b, p := HasNextThenNext(group, whole);
      assert [true, true, true][..i + 1] == [true, true, true][..i] + [b];
      assert whole[..i + 1] == whole[..i] + [p];
      seen, out := seen + [b], out + [p];
      i := i + 1;
    }
    assert whole[..3] == whole;
    assert MergeSum(group.Rest) == [];
    more := group.HasNext();
  }

  /** Reads a group that holds exactly three points by calling next three times, then asks hasNext. */
  method NextThree(group: SumDataPointGroup) returns (out: seq<DataPoint>, more: bool)
    requires group.Valid() && group.Emitted == [] && |MergeSum(group.groups)| == 3
    modifies group, group.cursors
    ensures out == MergeSum(group.groups) && !more
  {
    var whole := MergeSum(group.groups);
    out := [];
    var i := 0;
    while i < 3
      invariant 0 <= i <= 3 && group.Valid() && out == group.Emitted == whole[..i]
    {
      assert whole == out + MergeSum(group.Rest);
      var r := group.Next();
      assert r.Success?;
      out := out + [r.value];
      i := i + 1;
    }
    more := group.HasNext();
    assert whole[..3] == whole;
  }

  /** test_nullSet_invalid: a null list of groups is refused. */
  method NullSetInvalid() returns (r: Result<SumDataPointGroup, AggregatorError>)
    ensures r == Failure(NullGroups)
  {
    r := CreateAggregatorGroup(None);
  }

  /** test_longValues: hasNext is true before each of three points, long inputs sum to longs, then hasNext is false. */
  method LongValues() returns (out: seq<DataPoint>, seen: seq<bool>, more: bool)
    ensures out == [DataPoint(1, Long(33)), DataPoint(2, Long(9)), DataPoint(3, Long(25))]
    ensures seen == [true, true, true] && !more
  {
    var r := CreateAggregatorGroup(Some([LongGroup()]));
    LongValuesOutput();
    out, seen, more := ReadThree(r.value);
  }

  /** test_doubleValues: next three times with no hasNext in between; double inputs sum to doubles. */
  method DoubleValues() returns (out: seq<DataPoint>, more: bool)
    ensures out == [DataPoint(1, Dbl(33.3)), DataPoint(2, Dbl(9.2)), DataPoint(3, Dbl(25.1))]
    ensures !more
  {
    var r := CreateAggregatorGroup(Some([DoubleGroup()]));
    DoubleValuesOutput();
    out, more := NextThree(r.value);
  }

  /** test_mixedTypeValues: a batch holding any double sums to a double. */
  method MixedTypeValues() returns (out: seq<DataPoint>, seen: seq<bool>, more: bool)
    ensures out == [DataPoint(1, Dbl(33.3)), DataPoint(2, Dbl(9.2)), DataPoint(3, Dbl(25.1))]
    ensures seen == [true, true, true] && !more
  {
    var r := CreateAggregatorGroup(Some([MixedGroup()]));
    MixedTypeValuesOutput();
    out, seen, more := ReadThree(r.value);
  }

  /** test_noValues: one empty group yields nothing. */
  method NoValues() returns (more: bool)
    ensures !more
  {
    var r := CreateAggregatorGroup(Some([[]]));
    more := r.value.HasNext();
  }

  /** test_multipleGroups: points of two groups at one timestamp are summed together. */
  method MultipleGroups(time: int) returns (out: seq<DataPoint>, seen: seq<bool>, more: bool)
    ensures out == [DataPoint(time + 1, Long(33)), DataPoint(time + 2, Long(9)), DataPoint(time + 3, Long(25))]
    ensures seen == [true, true, true] && !more
  {
    var r := CreateAggregatorGroup(Some([FirstGroup(time), SecondGroup(time)]));
    MultipleGroupsOutput(time);
    out, seen, more := ReadThree(r.value);
  }
}
