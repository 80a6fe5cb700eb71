/**
 * The sum aggregator: createAggregatorGroup over a list of data point groups
 * returns a group that, pulled with hasNext/next, yields one point per
 * distinct timestamp, summing every input point at that timestamp.
 */
module SumAggregator {
  import opened Wrappers
  import opened DataPoints
  import opened MergeSpec

  datatype AggregatorError =
    | NullGroups     // the list of groups is null (a NullPointerException)
    | NoSuchElement  // next() called on an exhausted group

  /** The sum reducer: folds a batch of points into one point at `timestamp`. */
  method Aggregate(timestamp: int, batch: seq<DataPoint>) returns (p: DataPoint)
    ensures p == DataPoint(timestamp, Sum(batch))
  {
    var acc := Long(0);
    for i := 0 to |batch|
      invariant acc == Sum(batch[..i])
    {
      assert batch[..i + 1][..i] == batch[..i];
      acc := Plus(acc, batch[i].value);
    }
    assert batch[..|batch|] == batch;
    p := DataPoint(timestamp, acc);
  }

  /**
   * The group returned by createAggregatorGroup. Each input group is read
   * through a cursor: cursors[k] is the index of group k's next unread point,
   * its one-point lookahead.
   */
  class SumDataPointGroup {
    const groups: seq<seq<DataPoint>>
    const cursors: array<nat>

    // public view: what is still unread of each group, and what next() has returned
    ghost var Rest: seq<seq<DataPoint>>
    ghost var Emitted: seq<DataPoint>

    /** Rest is what lies under and after each cursor. */
    ghost predicate CursorsMatch()
      reads this, cursors
    {
      && cursors.Length == |groups| == |Rest|
      && forall k :: 0 <= k < |groups| ==> cursors[k] <= |groups[k]| && Rest[k] == groups[k][cursors[k]..]
    }

    /** The object invariant: what was returned and what is left make up the whole output. */
    ghost predicate Valid()
      reads this, cursors
    {
      CursorsMatch() && Emitted + MergeSum(Rest) == MergeSum(groups)
    }

    constructor (inputs: seq<seq<DataPoint>>)
      ensures Valid() && fresh(cursors)
      ensures groups == inputs && Rest == inputs && Emitted == []
    {
      groups := inputs;
      var start := new nat[|inputs|](_ => 0);
      assert forall k :: 0 <= k < |inputs| ==> inputs[k][start[k]..] == inputs[k];
      cursors := start;
      Rest := inputs;
      Emitted := [];
      assert [] + MergeSum(inputs) == MergeSum(inputs);
    }

    /** hasNext(): some group still has an unread point. */
    method HasNext() returns (b: bool)
      requires Valid()
      ensures b <==> exists k :: 0 <= k < |groups| && cursors[k] < |groups[k]|
      ensures b <==> MergeSum(Rest) != []
      ensures !b ==> Emitted == MergeSum(groups)
    {
      var i := 0;
      while i < cursors.Length
        invariant 0 <= i <= cursors.Length
        invariant forall k :: 0 <= k < i ==> cursors[k] == |groups[k]|
      {
        if cursors[i] < |groups[i]| {
          assert Rest[i] != [];
          MergeSumEmpty(Rest);
          return true;
        }
        i := i + 1;
      }
      assert AllEmpty(Rest);
      MergeSumEmpty(Rest);
      return false;
    }

    /** Step 1 of next(): the smallest timestamp under the cursors, None when all are exhausted. */
    method MinTimestamp() returns (m: Option<int>)
      requires Valid()
      ensures m == MinHead(Rest)
    {
      m := None;
      for i := 0 to cursors.Length
        invariant m == MinHead(Rest[..i])
      {
        assert Rest[..i + 1][..i] == Rest[..i];
        var c := cursors[i];
        if c < |groups[i]| {
          var t := groups[i][c].timestamp;
          if m.None? || t < m.value {
            m := Some(t);
          }
        }
      }
      assert Rest[..cursors.Length] == Rest;
    }

    /**
     * Steps 2 and 4 of next(): takes from every group each point at timestamp
     * `t` under its cursor, advancing that cursor past them, and returns them
     * group after group.
     */
    method Drain(t: int) returns (batch: seq<DataPoint>)
      requires CursorsMatch()
      modifies this, cursors
      ensures CursorsMatch()
      ensures batch == Batch(old(Rest), t) && Rest == Drop(old(Rest), t) && Emitted == old(Emitted)
      ensures forall k :: 0 <= k < cursors.Length ==> old(cursors[k]) <= cursors[k]
    {
      ghost var rest0, before := Rest, cursors[..];
      batch := TakeRuns(groups, cursors, rest0, t);
      AdvanceMatches(groups, before, cursors[..], rest0, t);
      Rest := Drop(rest0, t);
    }

    /**
     * next() once the smallest pending timestamp `t` is known: drains the
     * batch at `t`, folds it with the sum reducer and returns the result.
     */
    method Step(t: int) returns (p: DataPoint)
      requires Valid() && MinHead(Rest) == Some(t)
      modifies this, cursors
      ensures Valid()
      ensures forall k :: 0 <= k < cursors.Length ==> old(cursors[k]) <= cursors[k]
      ensures p == DataPoint(t, Sum(Batch(old(Rest), t)))
      ensures Rest == Drop(old(Rest), t) && Emitted == old(Emitted) + [p]
    {
      ghost var rest0, e0 := Rest, Emitted;
      StepOutput(groups, e0, rest0, t);
      var batch := Drain(t);
      p := Aggregate(t, batch);
      Emitted := e0 + [p];
    }

    /**
     * next(): drains every point at the smallest pending timestamp from every
     * group (several from one group when it holds them) and returns their sum.
     */
    method Next() returns (r: Result<DataPoint, AggregatorError>)
      requires Valid()
      modifies this, cursors
      ensures Valid()
      ensures forall k :: 0 <= k < cursors.Length ==> old(cursors[k]) <= cursors[k]
      ensures old(MergeSum(Rest)) == [] ==>
        r == Failure(NoSuchElement) && Rest == old(Rest) && Emitted == old(Emitted)
      ensures old(MergeSum(Rest)) != [] ==>
        && r.Success?
        && r.value == old(MergeSum(Rest))[0]
        && Emitted == old(Emitted) + [r.value]
        && Rest == Drop(old(Rest), r.value.timestamp)
      ensures r.Success? && AllSorted(groups) ==>
        && r.value.value == Sum(PointsAt(Flatten(groups), r.value.timestamp))
        && (old(Emitted) != [] ==> old(Emitted)[|old(Emitted)| - 1].timestamp < r.value.timestamp)
    {
      var m := MinTimestamp();
      if m.None? {
        return Failure(NoSuchElement);
      }
      ghost var e0, rest0 := Emitted, Rest;
      NextOutput(groups, e0, rest0, m.value);
      var p := Step(m.value);
      r := Success(p);
    }
  }

  /**
   * The loop of Drain: visits the groups in order, appending each one's
   * leading run at `t` and moving its cursor past it.
   */
  method TakeRuns(groups: seq<seq<DataPoint>>, cursors: array<nat>, ghost rest: seq<seq<DataPoint>>, t: int)
    returns (batch: seq<DataPoint>)
    requires cursors.Length == |groups| == |rest|
    requires forall k :: 0 <= k < |groups| ==> cursors[k] <= |groups[k]| && rest[k] == groups[k][cursors[k]..]
    modifies cursors
    ensures batch == Batch(rest, t)
    ensures forall k :: 0 <= k < |groups| ==> cursors[k] == old(cursors[k]) + LeadingCount(rest[k], t)
  {
    batch := [];
    var i := 0;
    while i < cursors.Length
      invariant 0 <= i <= cursors.Length
      invariant batch == Batch(rest[..i], t)
      invariant forall k :: 0 <= k < i ==> cursors[k] == old(cursors[k]) + LeadingCount(rest[k], t)
      invariant forall k :: i <= k < cursors.Length ==> cursors[k] == old(cursors[k])
    {
      var run := LeadingRun(groups[i], cursors[i], t);
      batch := batch + run;
      cursors[i] := cursors[i] + |run|;
      assert rest[..i + 1][..i] == rest[..i];
      i := i + 1;
    }
    assert rest[..cursors.Length] == rest;
  }

  /** Advancing every cursor past the leading run at `t` leaves exactly Drop(rest, t) unread. */
  lemma AdvanceMatches(groups: seq<seq<DataPoint>>, before: seq<nat>, after: seq<nat>,
                       rest: seq<seq<DataPoint>>, t: int)
    requires |before| == |after| == |groups| == |rest|
    requires forall k :: 0 <= k < |groups| ==> before[k] <= |groups[k]| && rest[k] == groups[k][before[k]..]
    requires forall k :: 0 <= k < |groups| ==> after[k] == before[k] + LeadingCount(rest[k], t)
    ensures forall k :: 0 <= k < |groups| ==> after[k] <= |groups[k]| && Drop(rest, t)[k] == groups[k][after[k]..]
  {
  }

  /** Emitting the batch at the smallest head keeps "returned + still to come == the whole output". */
  lemma StepOutput(groups: seq<seq<DataPoint>>, e: seq<DataPoint>, rest: seq<seq<DataPoint>>, t: int)
    requires e + MergeSum(rest) == MergeSum(groups) && MinHead(rest) == Some(t)
    ensures (e + [DataPoint(t, Sum(Batch(rest, t)))]) + MergeSum(Drop(rest, t)) == MergeSum(groups)
  {
    MergeSumStep(rest, t);
    var p, tail := DataPoint(t, Sum(Batch(rest, t))), MergeSum(Drop(rest, t));
    assert (e + [p]) + tail == e + ([p] + tail);
  }

  /**
   * What each call of next() can rely on: the point emitted after `e` is the
   * head of what remains, and for sorted groups it carries every input point at
   * its timestamp and follows `e`.
   */
  lemma NextOutput(groups: seq<seq<DataPoint>>, e: seq<DataPoint>, rest: seq<seq<DataPoint>>, t: int)
    requires e + MergeSum(rest) == MergeSum(groups) && MinHead(rest) == Some(t)
    ensures MergeSum(rest) != [] && MergeSum(rest)[0] == DataPoint(t, Sum(Batch(rest, t)))
    ensures AllSorted(groups) ==>
      && Sum(Batch(rest, t)) == Sum(PointsAt(Flatten(groups), t))
      && (e != [] ==> e[|e| - 1].timestamp < t)
  {
    MergeSumStep(rest, t);
    var whole := MergeSum(groups);
    assert whole[|e|] == MergeSum(rest)[0];
    if AllSorted(groups) {
      assert e != [] ==> whole[|e| - 1] == e[|e| - 1];
      OutputAt(groups, |e|);
    }
  }

  /** The promises of the output at one position, for sorted groups. */
  lemma OutputAt(gs: seq<seq<DataPoint>>, n: nat)
    requires AllSorted(gs) && n < |MergeSum(gs)|
    ensures MergeSum(gs)[n].value == Sum(PointsAt(Flatten(gs), MergeSum(gs)[n].timestamp))
    ensures n > 0 ==> MergeSum(gs)[n - 1].timestamp < MergeSum(gs)[n].timestamp
  {
    MergeSumConserves(gs);
    MergeSumIncreasing(gs);
  }

  /**
   * Reads group `g` from cursor position `from` on, taking every point stamped
   * `t` up to the first point that is not.
   */
  method LeadingRun(g: seq<DataPoint>, from: nat, t: int) returns (run: seq<DataPoint>)
    requires from <= |g|
    ensures run == g[from..][..LeadingCount(g[from..], t)]
  {
    var c := from;
    run := [];
    while c < |g| && g[c].timestamp == t
      invariant from <= c <= |g|
      invariant forall j :: from <= j < c ==> g[j].timestamp == t
      invariant run == g[from..c]
    {
      run := run + [g[c]];
      c := c + 1;
    }
    LeadingCountUnique(g[from..], t, c - from);
  }

  /**
   * createAggregatorGroup: a null list of groups is refused before any
   * iteration; otherwise the result reads all the groups from their start.
   */
  method CreateAggregatorGroup(groups: Option<seq<seq<DataPoint>>>)
    returns (r: Result<SumDataPointGroup, AggregatorError>)
    ensures r.Failure? <==> groups.None?
    ensures r.Failure? ==> r.error == NullGroups
    ensures r.Success? ==>
      && fresh(r.value) && fresh(r.value.cursors) && r.value.Valid()
      && r.value.groups == groups.value && r.value.Rest == groups.value && r.value.Emitted == []
  {
    if groups.None? {
      return Failure(NullGroups);
    }
    var g := new SumDataPointGroup(groups.value);
    return Success(g);
  }
}
