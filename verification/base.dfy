/** Platform integer widths, the optional-value wrapper and integer ranges shared by the model. */
module Base {

  /** An `uint8_t`: one unsigned byte. */
  type Byte = x: int | 0 <= x < 0x100

  /** An `uint16_t`: one unsigned 16-bit word. */
  type U16 = x: int | 0 <= x < 0x1_0000

  /** A value that may be absent, used where a decoder meets an undeclared code. */
  datatype Option<+T> = None | Some(value: T)

  /** The integers of the half-open range [lo, hi), with their count. */
  function Interval(lo: int, hi: int): (s: set<int>)
    ensures forall x :: x in s <==> lo <= x < hi
    ensures lo <= hi ==> |s| == hi - lo
    decreases hi - lo
  {
    if hi <= lo then {} else {lo} + Interval(lo + 1, hi)
  }

  /** Any set holding exactly the integers of [lo, hi) has hi - lo elements. */
  lemma RangeCardinality(s: set<int>, lo: int, hi: int)
    requires lo <= hi
    requires forall x :: x in s <==> lo <= x < hi
    ensures |s| == hi - lo
  {
    assert s == Interval(lo, hi);
  }
}
