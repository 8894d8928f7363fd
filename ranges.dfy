/** Half-open sample ranges with the semantics of JUCE's `Range<int64>` as the
    renderer uses it: construction never yields an inverted range, intersection
    takes the larger start and the smaller end, and moving a range keeps its
    length. */
module SampleRanges {

  /** The samples `start <= t < end`. */
  datatype SampleRange = SampleRange(start: int, end: int)

  predicate WellFormed(r: SampleRange) {
    r.start <= r.end
  }

  predicate Contains(r: SampleRange, t: int) {
    r.start <= t < r.end
  }

  function Length(r: SampleRange): int {
    r.end - r.start
  }

  predicate IsEmpty(r: SampleRange) {
    r.start == r.end
  }

  function Max(a: int, b: int): int { if a < b then b else a }

  function Min(a: int, b: int): int { if a < b then a else b }

  /** `Range (a, b)`: keeps the start and lifts the end to at least the start. */
  function MakeRange(a: int, b: int): (r: SampleRange)
    ensures WellFormed(r) && r.start == a
    ensures forall t :: Contains(r, t) <==> a <= t < b
  {
    SampleRange(a, Max(a, b))
  }

  /** `Range::withStartAndLength`, whose length the source asserts is not negative. */
  function WithStartAndLength(start: int, length: int): (r: SampleRange)
    requires length >= 0
    ensures WellFormed(r) && r.start == start && Length(r) == length
    ensures forall t :: Contains(r, t) <==> start <= t < start + length
  {
    MakeRange(start, start + length)
  }

  /** `Range::getIntersectionWith`: exactly the samples both ranges contain. */
  function Intersection(a: SampleRange, b: SampleRange): (r: SampleRange)
    ensures WellFormed(r)
    ensures forall t :: Contains(r, t) <==> Contains(a, t) && Contains(b, t)
  {
    MakeRange(Max(a.start, b.start), Min(a.end, b.end))
  }

  /** `Range::movedToStartAt`: the same range shifted so that it starts at `newStart`. */
  function MovedToStartAt(r: SampleRange, newStart: int): (m: SampleRange)
    ensures WellFormed(m) && m.start == newStart
    ensures WellFormed(r) ==> Length(m) == Length(r)
    ensures forall t :: Contains(m, t) <==> Contains(r, t - newStart + r.start)
  {
    MakeRange(newStart, r.end + (newStart - r.start))
  }

  /** A well-formed range is empty exactly when it contains no sample. */
  lemma EmptyIffNoSample(r: SampleRange)
    requires WellFormed(r)
    ensures IsEmpty(r) <==> forall t :: !Contains(r, t)
  {
    if !IsEmpty(r) {
      assert Contains(r, r.start);
    }
  }
}
