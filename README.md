# KairosDB sum aggregator

This project models the contract of KairosDB's sum aggregator.
`SumAggregator.createAggregatorGroup` takes a list of data point groups. Each group is a forward-only series of points in non-decreasing timestamp order. The call returns one group that merges them.

Read with `hasNext`/`next`, the returned group behaves as follows:

- it yields one point per distinct input timestamp, in ascending order;
- each point's value is the sum of every input point at that timestamp, across all groups;
- the sum is a long when every contributing point is a long, and a double as soon as one of them is a double;
- a null list of groups is refused before any iteration;
- when all points are used up, `hasNext` is false.

The model has four modules:

- `DataPoints` (`data_point.dfy`): a value is a `Long` or a `Dbl`, and a data point is a timestamp with a value. `Plus` and `Sum` are the sum rule with its long/double promotion.
- `MergeSpec` (`merge_spec.dfy`): `MergeSum` is the reference output, a functional k-way merge. It repeatedly takes the smallest timestamp at the head of any group, sums the leading run at that timestamp of every group, and continues on what is left. The module proves that this output carries exactly the input timestamps and, for sorted groups, that it is strictly increasing and conserves every input point. It also proves that, for sorted groups, these three properties determine the output uniquely.
- `SumAggregator` (`sum_aggregator.dfy`): the iterator itself.
  - `SumDataPointGroup` is a class holding the input groups and an array of per-group cursors, each a one-point lookahead.
  - `Next` scans the cursors for the smallest timestamp and drains every point at it from every cursor, several from one group where needed. It folds the batch with the sum rule and has advanced the cursors.
  - Its object invariant states that the points returned so far, followed by the reference output of what is still unread, are the reference output of the whole input.
- `SumAggregatorTests` (`sum_aggregator_test.dfy`): the six scenarios of the unit test. Each drives the iterator and proves the points it must produce.

## Model

| member | source | states |
|---|---|---|
| DataPoints.Plus | src/test/java/org/kairosdb/core/aggregator/SumAggregatorTest.java:112-125 | adding two values gives a long exactly when both are longs, and in every case the real sum of the two values |
| DataPoints.SumPromotion | src/test/java/org/kairosdb/core/aggregator/SumAggregatorTest.java:112-125 | a batch sums to a long holding the exact integer total when every point is a long, and otherwise to a double holding the real total with longs widened |
| DataPoints.SumIsRealTotal | src/test/java/org/kairosdb/core/aggregator/SumAggregatorTest.java:93-103 | whatever its type, the sum of a batch holds the real total of its values |
| DataPoints.SumSingleton | src/test/java/org/kairosdb/core/aggregator/SumAggregatorTest.java:71-74 | a batch of one point passes that point's value through unchanged, long or double |
| DataPoints.SumOrderIndependent | src/test/java/org/kairosdb/core/aggregator/SumAggregatorTest.java:164-176 | two batches with the same points in any order have the same sum, so interleaving the groups does not change a value |
| MergeSpec.MinHeadIsLeast | src/test/java/org/kairosdb/core/aggregator/SumAggregatorTest.java:61-63 | the smallest head timestamp is absent exactly when every group is empty; otherwise it is the head of some group and no head is smaller |
| MergeSpec.BatchAt | src/test/java/org/kairosdb/core/aggregator/SumAggregatorTest.java:50-64 | a drained batch holds only points at the drained timestamp, and at least one when some group starts at it |
| MergeSpec.BatchSplitsFlatten | src/test/java/org/kairosdb/core/aggregator/SumAggregatorTest.java:151-176 | draining a timestamp splits all input points into the batch and what is left, as multisets, so no point is lost or duplicated |
| MergeSpec.BatchIsPointsAt | src/test/java/org/kairosdb/core/aggregator/SumAggregatorTest.java:164-176 | for sorted groups, the batch drained at the smallest timestamp is every input point of every group carrying it |
| MergeSpec.DropKeepsOthers | src/test/java/org/kairosdb/core/aggregator/SumAggregatorTest.java:173-181 | draining one timestamp leaves the points of every other timestamp untouched |
| MergeSpec.MergeSumTimestamps | src/test/java/org/kairosdb/core/aggregator/SumAggregatorTest.java:61-76 | the output carries exactly the timestamps present in the input, no more and no fewer |
| MergeSpec.MergeSumIncreasing | src/test/java/org/kairosdb/core/aggregator/SumAggregatorTest.java:61-76 | for sorted groups, output timestamps strictly increase |
| MergeSpec.MergeSumConserves | src/test/java/org/kairosdb/core/aggregator/SumAggregatorTest.java:151-186 | for sorted groups, each output value is the sum of all input points of all groups at its timestamp |
| MergeSpec.MergeSumLength | src/test/java/org/kairosdb/core/aggregator/SumAggregatorTest.java:61-76 | for sorted groups, the output has exactly one point per distinct input timestamp |
| MergeSpec.MergeSumUnique | src/test/java/org/kairosdb/core/aggregator/SumAggregatorTest.java:61-76 | for sorted groups, any sequence that is strictly increasing, has the input's timestamps and the conserved sums is the output |
| MergeSpec.MergeSumEmpty | src/test/java/org/kairosdb/core/aggregator/SumAggregatorTest.java:140-148 | the output is empty exactly when every group is empty |
| MergeSpec.LeadingRunAt | src/test/java/org/kairosdb/core/aggregator/SumAggregatorTest.java:51-54 | the leading run at a timestamp is the longest prefix of points at it |
| MergeSpec.LeadingCountUnique | src/test/java/org/kairosdb/core/aggregator/SumAggregatorTest.java:51-54 | any prefix of points at a timestamp that is followed by another timestamp or by the end is the leading run |
| SumAggregator.Aggregate | src/test/java/org/kairosdb/core/aggregator/SumAggregatorTest.java:62-64 | folding a batch point by point from long 0 gives the batch's sum under the promotion rule |
| SumAggregator.LeadingRun | src/test/java/org/kairosdb/core/aggregator/SumAggregatorTest.java:50-56 | reading one group from its cursor takes exactly its leading run at the timestamp, several points when the group holds them |
| SumAggregator.CreateAggregatorGroup | src/test/java/org/kairosdb/core/aggregator/SumAggregatorTest.java:41-45 | a null list of groups is refused with an error; any other list gives a fresh, valid group over those inputs with nothing returned yet |
| SumAggregator.SumDataPointGroup.constructor | src/test/java/org/kairosdb/core/aggregator/SumAggregatorTest.java:59 | the new group has every cursor at the start, nothing returned, and the invariant holds |
| SumAggregator.SumDataPointGroup.HasNext | src/test/java/org/kairosdb/core/aggregator/SumAggregatorTest.java:71-76 | true exactly when some cursor still has a point, which is exactly when reference output remains; false means every output point has been returned |
| SumAggregator.SumDataPointGroup.MinTimestamp | src/test/java/org/kairosdb/core/aggregator/SumAggregatorTest.java:61-63 | the scan of the cursors finds the smallest unread head timestamp, or none when all are exhausted |
| SumAggregator.SumDataPointGroup.Drain | src/test/java/org/kairosdb/core/aggregator/SumAggregatorTest.java:50-64 | draining a timestamp returns the batch of every group's leading run at it, leaves exactly the rest of each group unread, and only moves cursors forward |
| SumAggregator.TakeRuns | src/test/java/org/kairosdb/core/aggregator/SumAggregatorTest.java:50-64 | visiting the groups in order collects each one's leading run at the timestamp into the batch and advances each cursor by exactly that run's length |
| SumAggregator.SumDataPointGroup.Step | src/test/java/org/kairosdb/core/aggregator/SumAggregatorTest.java:61-64 | one step returns the batch's sum at the smallest timestamp, keeps the invariant, and only moves cursors forward |
| SumAggregator.SumDataPointGroup.Next | src/test/java/org/kairosdb/core/aggregator/SumAggregatorTest.java:61-74 | next returns the next reference point and keeps the invariant, or fails with the state unchanged when exhausted; cursors only move forward; for sorted inputs the value is the sum of all input points at its timestamp and the timestamp exceeds the previous one |
| SumAggregator.NextOutput | src/test/java/org/kairosdb/core/aggregator/SumAggregatorTest.java:173-186 | the point emitted after what was already returned is the head of the rest; for sorted groups it sums every input point at its timestamp and follows the last returned point |
| SumAggregator.OutputAt | src/test/java/org/kairosdb/core/aggregator/SumAggregatorTest.java:151-186 | for sorted groups, the output point at any position conserves its timestamp's sum and comes after the point before it |
| SumAggregatorTests.ReadThree | src/test/java/org/kairosdb/core/aggregator/SumAggregatorTest.java:61-76 | on a group whose output has three points, hasNext answers true before each of three next calls, those calls return exactly that output, and hasNext is then false |
| SumAggregatorTests.NextThree | src/test/java/org/kairosdb/core/aggregator/SumAggregatorTest.java:93-105 | on a group whose output has three points, three next calls without hasNext return exactly that output, and hasNext is then false |
| SumAggregatorTests.NullSetInvalid | src/test/java/org/kairosdb/core/aggregator/SumAggregatorTest.java:41-45 | a null list of groups is refused |
| SumAggregatorTests.LongValuesOutput | src/test/java/org/kairosdb/core/aggregator/SumAggregatorTest.java:50-57 | the reference output of the long group is (1, 33), (2, 9), (3, 25), all longs |
| SumAggregatorTests.LongValues | src/test/java/org/kairosdb/core/aggregator/SumAggregatorTest.java:47-77 | hasNext is true before each next, the iterator returns (1, long 33), (2, long 9), (3, long 25), then hasNext is false |
| SumAggregatorTests.DoubleValuesOutput | src/test/java/org/kairosdb/core/aggregator/SumAggregatorTest.java:82-89 | the reference output of the double group is (1, 33.3), (2, 9.2), (3, 25.1), all doubles |
| SumAggregatorTests.DoubleValues | src/test/java/org/kairosdb/core/aggregator/SumAggregatorTest.java:79-106 | three next calls with no hasNext in between return (1, double 33.3), (2, double 9.2), (3, double 25.1), then hasNext is false |
| SumAggregatorTests.MixedTypeValuesOutput | src/test/java/org/kairosdb/core/aggregator/SumAggregatorTest.java:111-118 | the reference output of the mixed group is (1, 33.3), (2, 9.2), (3, 25.1), all doubles, since each batch holds a double |
| SumAggregatorTests.MixedTypeValues | src/test/java/org/kairosdb/core/aggregator/SumAggregatorTest.java:108-138 | hasNext is true before each next, the iterator returns (1, double 33.3), (2, double 9.2), (3, double 25.1), then hasNext is false |
| SumAggregatorTests.NoValues | src/test/java/org/kairosdb/core/aggregator/SumAggregatorTest.java:140-148 | over one empty group, hasNext is false at once |
| SumAggregatorTests.MultipleGroupsOutput | src/test/java/org/kairosdb/core/aggregator/SumAggregatorTest.java:155-169 | for any time, the reference output of the two groups is (time+1, 33), (time+2, 9), (time+3, 25), all longs |
| SumAggregatorTests.MultipleGroups | src/test/java/org/kairosdb/core/aggregator/SumAggregatorTest.java:151-189 | for any time, hasNext is true before each next, the iterator over both groups returns (time+1, long 33), (time+2, long 9), (time+3, long 25), then hasNext is false |

## Left out

- The implementation classes `SumAggregator`, `DataPoint`, `DataPointGroup` and `ListDataPointGroup` are not part of this model. The model follows the behaviour the unit test asserts.
- Doubles are modelled as exact reals. IEEE-754 rounding is not modelled, so the sums 33.3 and 9.2 hold exactly and the order of accumulation does not affect a double sum.
- Longs are unbounded integers. 64-bit overflow and wrap-around are not modelled.
- `System.currentTimeMillis()` is a clock read. It becomes the parameter `time` of `MultipleGroups` and `MultipleGroupsOutput`, which hold for every integer.
- The input groups are in-memory sequences read through cursors. Building them by repeated `addDataPoint`, the group name, and the Java `Iterator` interface are not modelled.
- Sortedness of the inputs is not validated. The iterator runs on any input and always returns the reference output. The promises about order and conservation (`MergeSumIncreasing`, `MergeSumConserves`, the sorted part of `Next`) are stated for sorted groups, which are the only inputs the unit test supplies.
- The `NullPointerException` is an error result, `Failure(NullGroups)`. Calling `next` on an exhausted group gives `Failure(NoSuchElement)` and changes nothing.
