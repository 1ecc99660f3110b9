/**
 * The HdrHistogram classes the comparators use (`Histogram`,
 * `IntCountsHistogram`, `DoubleHistogram`), seen only through the
 * operations the comparators call. A histogram is the multiset of the
 * values recorded into it; bucket quantisation, significant digits and
 * auto-resizing are not modelled.
 */
module Histograms {

  /**
   * What `encodeIntoByteBuffer` writes. The wire format is not modelled:
   * the buffer carries the recorded values, which makes the
   * encode/decode round trip lossless by construction.
   */
  datatype ByteBuffer<T> = ByteBuffer(counts: multiset<T>)

  class Histogram<T(==)> {
    var contents: multiset<T>

    /** `new Histogram(3)`: an empty histogram. */
    constructor ()
      ensures contents == multiset{}
    {
      contents := multiset{};
    }

    /** Number of values recorded (`getTotalCount`). */
    function TotalCount(): nat
      reads this
    {
      |contents|
    }

    /** `recordValue(v)`: one more occurrence of `v`. */
    method RecordValue(v: T)
      modifies this
      ensures contents == old(contents) + multiset{v}
      ensures TotalCount() == old(TotalCount()) + 1
    {
      contents := contents + multiset{v};
    }

    /** `add(other)`: every value of `other` is recorded here as well; `other` is unchanged. */
    method Add(other: Histogram<T>)
      modifies this
      ensures contents == old(contents) + old(other.contents)
      ensures other != this ==> other.contents == old(other.contents)
    {
      contents := contents + other.contents;
    }

    /** `encodeIntoByteBuffer(buffer)` into a buffer of the needed capacity, then `flip()`. */
    method EncodeIntoByteBuffer() returns (buffer: ByteBuffer<T>)
      ensures buffer.counts == contents
    {
      buffer := ByteBuffer(contents);
    }

    /** `decodeFromByteBuffer(buffer, 0)`: a new histogram holding what the buffer encodes. */
    static method DecodeFromByteBuffer(buffer: ByteBuffer<T>) returns (h: Histogram<T>)
      ensures fresh(h) && h.contents == buffer.counts
    {
      h := new Histogram();
      h.contents := buffer.counts;
    }

    /** `equals(other)`: false for null, otherwise equal recorded values. */
    predicate Equals(other: Histogram?<T>): (r: bool)
      reads this, other
      ensures other == this ==> r
      ensures r ==> other != null && TotalCount() == other.TotalCount()
    {
      other != null && contents == other.contents
    }
  }

}
