/**
 * `LongHistogramCompare`, `IntHistogramCompare` and `DoubleHistogramCompare`:
 * the three classes differ only in the histogram class and the value type,
 * so one generic class models them (values `int` for the first two, `real`
 * for the third).
 *
 * Every value goes into `allHistogram` and into the pending batch
 * `merger2`; every `batchSize` values the batch is reduced into `merger1`.
 * The invariant kept by every operation is that the merged and the pending
 * values together are exactly the values of `allHistogram`, which makes
 * `compare` true.
 */
module MergeCompare {
  import opened Wrappers
  import opened Histograms

  /** `accrue` computes `valueCount % batchSize`, which throws `ArithmeticException` when `batchSize` is 0. */
  datatype CompareError = DivisionByZero

  /** The batch size of the no-argument constructors. */
  const DefaultBatchSize: int := 10000

  class HistogramCompare<T(==)> {
    var allHistogram: Histogram<T>
    var merger1: Histogram?<T>
    var merger2: Histogram<T>
    var valueCount: int
    var mergeCount: int
    const batchSize: int

    /** How many times `reduce` has run. */
    ghost var reduces: nat
    ghost var Repr: set<object>

    /** The values reduced so far: those of `merger1`, none while it is null. */
    ghost function Merged(): multiset<T>
      reads this, merger1
    {
      if merger1 == null then multiset{} else merger1.contents
    }

    ghost predicate Valid()
      reads this, Repr
    {
      && this in Repr && allHistogram in Repr && merger2 in Repr
      && (merger1 != null ==> merger1 in Repr)
      && allHistogram != merger2
      && (merger1 != null ==> merger1 != allHistogram && merger1 != merger2)
      // conservation: merged and pending values are all the values accrued
      && Merged() + merger2.contents == allHistogram.contents
      && valueCount == |allHistogram.contents|
      // after k >= 1 reduces, merger1 is set and k - 1 merges were made
      && (merger1 == null <==> reduces == 0)
      && mergeCount == (if reduces == 0 then 0 else reduces - 1)
    }

    /** `HistogramCompare(batchSize)`: empty histograms, no batch reduced yet. */
    constructor (batchSize: int)
      ensures Valid() && fresh(Repr)
      ensures this.batchSize == batchSize
      ensures allHistogram.contents == multiset{} && merger2.contents == multiset{} && merger1 == null
      ensures valueCount == 0 && mergeCount == 0 && reduces == 0
    {
      this.batchSize := batchSize;
      allHistogram := new Histogram();
      merger1 := null;
      merger2 := new Histogram();
      valueCount := 0;
      mergeCount := 0;
      reduces := 0;
      new;
      Repr := {this, allHistogram, merger2};
    }

    /** `HistogramCompare()`: `this(10000)`. */
    constructor Default()
      ensures Valid() && fresh(Repr)
      ensures batchSize == DefaultBatchSize
      ensures allHistogram.contents == multiset{} && merger2.contents == multiset{} && merger1 == null
      ensures valueCount == 0 && mergeCount == 0 && reduces == 0
    {
      batchSize := DefaultBatchSize;
      allHistogram := new Histogram();
      merger1 := null;
      merger2 := new Histogram();
      valueCount := 0;
      mergeCount := 0;
      reduces := 0;
      new;
      Repr := {this, allHistogram, merger2};
    }

    /**
     * `accrue(value)`: record into both histograms, count, and reduce when
     * the count reaches a multiple of the batch size. Dafny's `%` differs
     * from Java's for negative operands, but only its comparison with 0 is
     * used, and both are 0 exactly when `batchSize` divides `valueCount`.
     */
    method Accrue(value: T) returns (r: Outcome<CompareError>)
      requires Valid()
      modifies Repr
      ensures Valid() && fresh(Repr - old(Repr))
      ensures allHistogram == old(allHistogram)
      ensures allHistogram.contents == old(allHistogram.contents) + multiset{value}
      ensures valueCount == old(valueCount) + 1
      ensures r.Fail? <==> batchSize == 0
      ensures var reduced := batchSize != 0 && valueCount % batchSize == 0;
              && (reduced ==> reduces == old(reduces) + 1 && fresh(merger2) && merger2.contents == multiset{})
              && (!reduced ==> && reduces == old(reduces) && merger1 == old(merger1) && merger2 == old(merger2)
                               && merger2.contents == old(merger2.contents) + multiset{value})
    {
      allHistogram.RecordValue(value);
      merger2.RecordValue(value);
      valueCount := valueCount + 1;
      if batchSize == 0 {
        return Fail(DivisionByZero);
      }
      if valueCount % batchSize == 0 {
        Reduce();
      }
      r := Pass;
    }

    /**
     * `reduce()`: the first call makes the pending batch itself `merger1`;
     * every later call adds the encode/decode round trip of the batch into
     * `merger1` and counts a merge. Each call installs a new empty batch.
     */
    method Reduce()
      requires Valid()
      modifies Repr
      ensures Valid() && fresh(Repr - old(Repr))
      ensures reduces == old(reduces) + 1
      ensures merger1 != null && merger1.contents == old(Merged()) + old(merger2.contents)
      ensures old(merger1) == null ==> merger1 == old(merger2) && mergeCount == old(mergeCount)
      ensures old(merger1) != null ==> merger1 == old(merger1) && mergeCount == old(mergeCount) + 1
      ensures fresh(merger2) && merger2.contents == multiset{}
      ensures allHistogram == old(allHistogram) && allHistogram.contents == old(allHistogram.contents)
      ensures valueCount == old(valueCount)
    {
      if merger1 == null {
        merger1 := merger2;
        merger2 := new Histogram();
      } else {
        var bufferOut := merger2.EncodeIntoByteBuffer();
        var interimHistogram := Histogram.DecodeFromByteBuffer(bufferOut);
        merger1.Add(interimHistogram);
        mergeCount := mergeCount + 1;
        merger2 := new Histogram();
      }
      reduces := reduces + 1;
      Repr := Repr + {merger2};
    }

    /**
     * `compare()`: a final `reduce`, which takes in the last partial batch
     * (or the only one), then `allHistogram.equals(merger1)`.
     */
    method Compare() returns (equal: bool)
      requires Valid()
      modifies Repr
      ensures Valid() && fresh(Repr - old(Repr))
      ensures equal
      ensures merger1 != null && merger1.contents == allHistogram.contents
      ensures reduces == old(reduces) + 1
      ensures old(merger1) == null ==> merger1 == old(merger2) && mergeCount == old(mergeCount)
      ensures old(merger1) != null ==> merger1 == old(merger1) && mergeCount == old(mergeCount) + 1
      ensures fresh(merger2) && merger2.contents == multiset{}
      ensures allHistogram == old(allHistogram) && allHistogram.contents == old(allHistogram.contents)
      ensures valueCount == old(valueCount)
    {
      Reduce();
      equal := allHistogram.Equals(merger1);
    }
  }
}
