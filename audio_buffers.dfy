/** The JUCE `AudioBuffer<float>` operations the renderer uses, over a buffer
    of channels by samples. Each operation is a pure function on the buffer's
    contents (`Channels`) and a method that performs it in place on an
    `array2`, proved to produce exactly that function's result. */
module AudioBuffers {

  /** Buffer contents: one sequence of samples per channel. */
  type Channels = seq<seq<real>>

  /** `b` has `channels` channels of `length` samples each. */
  predicate IsShaped(b: Channels, channels: int, length: int) {
    |b| == channels && forall c :: 0 <= c < |b| ==> |b[c]| == length
  }

  /** `a` and `b` have the same number of channels and the same channel lengths. */
  predicate SameShape(a: Channels, b: Channels) {
    |a| == |b| && forall c :: 0 <= c < |a| ==> |a[c]| == |b[c]|
  }

  /** The contents of an in-memory audio buffer. */
  ghost function Contents(a: array2<real>): (s: Channels)
    reads a
    ensures IsShaped(s, a.Length0, a.Length1)
    ensures forall c, i :: 0 <= c < a.Length0 && 0 <= i < a.Length1 ==> s[c][i] == a[c, i]
  {
    seq(a.Length0, c requires 0 <= c < a.Length0 reads a =>
      seq(a.Length1, i requires 0 <= i < a.Length1 reads a => a[c, i]))
  }

  lemma ContentsEqual(a: array2<real>, s: Channels)
    requires IsShaped(s, a.Length0, a.Length1)
    requires forall c, i :: 0 <= c < a.Length0 && 0 <= i < a.Length1 ==> a[c, i] == s[c][i]
    ensures Contents(a) == s
  {
    var t := Contents(a);
    forall c | 0 <= c < a.Length0
      ensures t[c] == s[c]
    {
      assert forall i :: 0 <= i < a.Length1 ==> t[c][i] == s[c][i];
    }
  }

  /** `clear (startSample, numSamples)`: every channel is zeroed over the span. */
  function Cleared(b: Channels, start: int, count: int): (r: Channels)
    ensures SameShape(r, b)
    ensures forall c, i :: 0 <= c < |b| && 0 <= i < |b[c]| ==>
              r[c][i] == (if start <= i < start + count then 0.0 else b[c][i])
  {
    seq(|b|, c requires 0 <= c < |b| =>
      seq(|b[c]|, i requires 0 <= i < |b[c]| =>
        if start <= i < start + count then 0.0 else b[c][i]))
  }

  /** `copyFrom (channel, destStart, source, sourceChannel, sourceStart, count)`,
      with the source channel given as its samples. */
  function CopiedFrom(b: Channels, channel: int, destStart: int, src: seq<real>, srcStart: int, count: int): (r: Channels)
    requires 0 <= srcStart && 0 <= count && srcStart + count <= |src|
    ensures SameShape(r, b)
    ensures forall c, i :: 0 <= c < |b| && 0 <= i < |b[c]| ==>
              r[c][i] == (if c == channel && destStart <= i < destStart + count
                          then src[srcStart + (i - destStart)] else b[c][i])
  {
    seq(|b|, c requires 0 <= c < |b| =>
      seq(|b[c]|, i requires 0 <= i < |b[c]| =>
        if c == channel && destStart <= i < destStart + count
        then src[srcStart + (i - destStart)] else b[c][i]))
  }

  /** `addFrom (channel, destStart, source, sourceChannel, sourceStart, count)`,
      with the source channel given as its samples. */
  function AddedFrom(b: Channels, channel: int, destStart: int, src: seq<real>, srcStart: int, count: int): (r: Channels)
    requires 0 <= srcStart && 0 <= count && srcStart + count <= |src|
    ensures SameShape(r, b)
    ensures forall c, i :: 0 <= c < |b| && 0 <= i < |b[c]| ==>
              r[c][i] == (if c == channel && destStart <= i < destStart + count
                          then b[c][i] + src[srcStart + (i - destStart)] else b[c][i])
  {
    seq(|b|, c requires 0 <= c < |b| =>
      seq(|b[c]|, i requires 0 <= i < |b[c]| =>
        if c == channel && destStart <= i < destStart + count
        then b[c][i] + src[srcStart + (i - destStart)] else b[c][i]))
  }

  /** An audio source filling the whole buffer: sample `i` of channel `c`
      becomes `pull(c, i)`. */
  function Filled(b: Channels, pull: (int, int) -> real): (r: Channels)
    ensures SameShape(r, b)
    ensures forall c, i :: 0 <= c < |b| && 0 <= i < |b[c]| ==> r[c][i] == pull(c, i)
  {
    seq(|b|, c requires 0 <= c < |b| =>
      seq(|b[c]|, i requires 0 <= i < |b[c]| => pull(c, i)))
  }

  method Clear(a: array2<real>, start: int, count: int)
    modifies a
    ensures Contents(a) == Cleared(old(Contents(a)), start, count)
  {
    ghost var before := Contents(a);
    forall c, i | 0 <= c < a.Length0 && 0 <= i < a.Length1 && start <= i < start + count {
      a[c, i] := 0.0;
    }
    ContentsEqual(a, Cleared(before, start, count));
  }

  method CopyFrom(a: array2<real>, channel: int, destStart: int, src: seq<real>, srcStart: int, count: int)
    requires 0 <= channel < a.Length0 && 0 <= destStart && destStart + count <= a.Length1
    requires 0 <= srcStart && 0 <= count && srcStart + count <= |src|
    modifies a
    ensures Contents(a) == CopiedFrom(old(Contents(a)), channel, destStart, src, srcStart, count)
  {
    ghost var before := Contents(a);
    forall i | destStart <= i < destStart + count {
      a[channel, i] := src[srcStart + (i - destStart)];
    }
    ContentsEqual(a, CopiedFrom(before, channel, destStart, src, srcStart, count));
  }

  method AddFrom(a: array2<real>, channel: int, destStart: int, src: array2<real>, srcChannel: int, srcStart: int, count: int)
    requires a != src
    requires 0 <= channel < a.Length0 && 0 <= destStart && destStart + count <= a.Length1
    requires 0 <= srcChannel < src.Length0 && 0 <= srcStart && 0 <= count && srcStart + count <= src.Length1
    modifies a
    ensures Contents(a) == AddedFrom(old(Contents(a)), channel, destStart, Contents(src)[srcChannel], srcStart, count)
  {
    ghost var before := Contents(a);
    forall i | destStart <= i < destStart + count {
      a[channel, i] := a[channel, i] + src[srcChannel, srcStart + (i - destStart)];
    }
    ContentsEqual(a, AddedFrom(before, channel, destStart, Contents(src)[srcChannel], srcStart, count));
  }

  method Fill(a: array2<real>, pull: (int, int) -> real)
    modifies a
    ensures Contents(a) == Filled(old(Contents(a)), pull)
  {
    ghost var before := Contents(a);
    forall c, i | 0 <= c < a.Length0 && 0 <= i < a.Length1 {
      a[c, i] := pull(c, i);
    }
    ContentsEqual(a, Filled(before, pull));
  }
}
