/** What one call of the renderer's `processBlock` computes, as functions on
    buffer contents: each contributing region is read (from its processed
    buffer or its source stream) and written into the output (the first one)
    or mixed into it (the later ones), and a block nothing plays is silent. */
module BlockRender {
  import opened Wrappers
  import opened SampleRanges
  import opened AudioBuffers
  import opened RegionMapping

  /** The resampling read chain of a source, seen from outside: the sample it
      delivers on channel `c` at frame `i` of a pull that starts at source
      position `position`, as `StreamReader(source, position, c, i)`. */
  type StreamReader = (SourceId, int, int, int) -> real

  /** The positionable reader source of an audio source: whether it reads
      through a read-ahead buffer, and where its next read starts. */
  datatype ReaderSource = ReaderSource(buffered: bool, nextReadPosition: int)

  /** The host's transport position for a block. */
  datatype PositionInfo = PositionInfo(timeInSamples: Option<int>, isPlaying: bool)

  /** What the region loop of `processBlock` carries from one region to the
      next: the output buffer, the scratch buffer, whether a region has been
      rendered yet, and the reader sources. */
  datatype Mix = Mix(out: Channels, temp: Channels, rendered: bool, readers: map<SourceId, ReaderSource>)

  /** The scratch buffer has the output's channels and at least a block of samples. */
  predicate TempFits(temp: Channels, channels: int, numSamples: int) {
    |temp| == channels && forall c :: 0 <= c < |temp| ==> numSamples <= |temp[c]|
  }

  /** Whenever the renderer copies from a region's processed buffer, that
      buffer covers the region's whole modification range on every channel. */
  predicate ModifiedBufferCovers(r: PlaybackRegion, numChannels: int) {
    var mod := r.modification;
    mod.isModified && mod.modifiedAudioBuffer.Some? &&
    (|mod.modifiedAudioBuffer.value| == numChannels || |mod.modifiedAudioBuffer.value| == 1) ==>
      && 0 <= ModificationSampleRange(r).start
      && forall c :: 0 <= c < |mod.modifiedAudioBuffer.value| ==>
           ModificationSampleRange(r).end <= |mod.modifiedAudioBuffer.value[c]|
  }

  /** The per-channel `copyFrom` loop over the first `k` channels: channel `c`
      receives `count` samples of source channel `c` (or of channel 0 when
      `mono`) from `startInSource`, written from offset 0. */
  function CopyChannels(b: Channels, mb: Channels, mono: bool, startInSource: int, count: int, k: int): (r: Channels)
    requires 0 <= k <= |b| && 0 <= count && 0 <= startInSource
    requires if mono then 1 <= |mb| else k <= |mb|
    requires forall c :: 0 <= c < |mb| ==> startInSource + count <= |mb[c]|
    ensures SameShape(r, b)
    ensures forall c, i :: 0 <= c < |b| && 0 <= i < |b[c]| ==>
              r[c][i] == (if c < k && i < count then mb[if mono then 0 else c][startInSource + i] else b[c][i])
    decreases k
  {
    if k == 0 then b
    else
      CopiedFrom(CopyChannels(b, mb, mono, startInSource, count, k - 1),
                 k - 1, 0, mb[if mono then 0 else k - 1], startInSource, count)
  }

  /** The per-channel `addFrom` loop over the first `k` channels: the scratch
      buffer is added into `b` over `[start, start + count)` and nowhere else. */
  function AddChannels(b: Channels, t: Channels, start: int, count: int, k: int): (r: Channels)
    requires 0 <= k <= |b| && k <= |t| && 0 <= start && 0 <= count
    requires forall c :: 0 <= c < k ==> start + count <= |t[c]|
    ensures SameShape(r, b)
    ensures forall c, i :: 0 <= c < |b| && 0 <= i < |b[c]| ==>
              r[c][i] == (if c < k && start <= i < start + count then b[c][i] + t[c][i] else b[c][i])
    decreases k
  {
    if k == 0 then b
    else AddedFrom(AddChannels(b, t, start, count, k - 1), k - 1, start, t[k - 1], start, count)
  }

  /** The resampled source's output for one pull, channel by frame. */
  function Pull(read: StreamReader, source: SourceId, position: int): (int, int) -> real {
    (c, i) => read(source, position, c, i)
  }

  /** Reading one region into `target`: from the processed buffer when it is
      present and flagged modified (per channel when its channel count matches,
      broadcast when it is mono, not at all otherwise), else from the source
      stream, which fills all of `target`. */
  function ReadRegion(target: Channels, r: PlaybackRegion, p: RenderPlan, numChannels: int, read: StreamReader): (t: Channels)
    requires 0 <= numChannels <= |target| && 0 <= p.numSamplesToRead
    requires ModificationSampleRange(r).start <= p.startInSource
    requires p.startInSource + p.numSamplesToRead <= ModificationSampleRange(r).end
    requires ModifiedBufferCovers(r, numChannels)
    ensures SameShape(t, target)
  {
    var mod := r.modification;
    if mod.modifiedAudioBuffer.Some? && mod.isModified then
      var mb := mod.modifiedAudioBuffer.value;
      if |mb| == numChannels then CopyChannels(target, mb, false, p.startInSource, p.numSamplesToRead, numChannels)
      else if |mb| == 1 then CopyChannels(target, mb, true, p.startInSource, p.numSamplesToRead, numChannels)
      else target
    else
      Filled(target, Pull(read, mod.source, p.startInSource))
  }

  /** What a read leaves in the buffer. A processed buffer with one channel
      per output channel is copied channel by channel, and a mono one is
      broadcast to every channel; either way only the first
      `numSamplesToRead` frames of the first `numChannels` channels are
      written, from frame 0. A processed buffer of any other width writes
      nothing. Without a processed buffer, every frame of every channel
      comes from the source stream positioned at `startInSource`. */
  lemma ReadRegionContents(target: Channels, r: PlaybackRegion, p: RenderPlan, numChannels: int, read: StreamReader)
    requires 0 <= numChannels <= |target| && 0 <= p.numSamplesToRead
    requires ModificationSampleRange(r).start <= p.startInSource
    requires p.startInSource + p.numSamplesToRead <= ModificationSampleRange(r).end
    requires ModifiedBufferCovers(r, numChannels)
    ensures var t := ReadRegion(target, r, p, numChannels, read);
            r.modification.isModified && r.modification.modifiedAudioBuffer.Some? ==>
              var mb := r.modification.modifiedAudioBuffer.value;
              && (|mb| == numChannels ==>
                    forall c, i :: 0 <= c < |target| && 0 <= i < |target[c]| ==>
                      t[c][i] == (if c < numChannels && i < p.numSamplesToRead
                                  then mb[c][p.startInSource + i] else target[c][i]))
              && (|mb| == 1 ==>
                    forall c, i :: 0 <= c < |target| && 0 <= i < |target[c]| ==>
                      t[c][i] == (if c < numChannels && i < p.numSamplesToRead
                                  then mb[0][p.startInSource + i] else target[c][i]))
              && (|mb| != numChannels && |mb| != 1 ==> t == target)
    ensures var t := ReadRegion(target, r, p, numChannels, read);
            !(r.modification.isModified && r.modification.modifiedAudioBuffer.Some?) ==>
              forall c, i :: 0 <= c < |target| && 0 <= i < |target[c]| ==>
                t[c][i] == read(r.modification.source, p.startInSource, c, i)
  {
  }

  /** The first region's clean-up: `clear (0, startInBuffer)` and
      `clear (endInBuffer, remainingSamples)`, each only when non-empty. */
  function ClearOutsideSpan(b: Channels, startInBuffer: int, endInBuffer: int, numSamples: int): (r: Channels)
    requires 0 <= startInBuffer <= endInBuffer <= numSamples
    requires IsShaped(b, |b|, numSamples)
    ensures IsShaped(r, |b|, numSamples)
    ensures forall c, i :: 0 <= c < |b| && 0 <= i < numSamples ==>
              r[c][i] == (if startInBuffer <= i < endInBuffer then b[c][i] else 0.0)
  {
    var head := if startInBuffer != 0 then Cleared(b, 0, startInBuffer) else b;
    var remainingSamples := numSamples - endInBuffer;
    if remainingSamples != 0 then Cleared(head, endInBuffer, remainingSamples) else head
  }

  /** Where the reader source of `source` is positioned for a region. */
  function Reposition(readers: map<SourceId, ReaderSource>, source: SourceId, position: int): map<SourceId, ReaderSource>
    requires source in readers
  {
    readers[source := readers[source].(nextReadPosition := position)]
  }

  /** One iteration of the region loop. A region whose clipped range is empty
      changes nothing. The first contributing region is read straight into the
      output, which is then silent outside the region's span; a later one is
      read into the scratch buffer, which is added into the output over the
      region's span only. */
  function RegionStep(m: Mix, r: PlaybackRegion, blockRange: SampleRange, numChannels: int, read: StreamReader): (m': Mix)
    requires WellFormed(blockRange) && IsShaped(m.out, numChannels, Length(blockRange))
    requires ComputeRenderRange(r, blockRange).Some? ==>
               r.modification.source in m.readers && ModifiedBufferCovers(r, numChannels)
    requires m.rendered && ComputeRenderRange(r, blockRange).Some? ==>
               TempFits(m.temp, numChannels, Length(blockRange))
    ensures IsShaped(m'.out, numChannels, Length(blockRange)) && SameShape(m'.temp, m.temp)
    ensures m'.readers.Keys == m.readers.Keys
    ensures m'.rendered == (m.rendered || ComputeRenderRange(r, blockRange).Some?)
    ensures ComputeRenderRange(r, blockRange).None? ==> m' == m
    ensures ComputeRenderRange(r, blockRange).Some? ==>
              var p := ComputeRenderRange(r, blockRange).value;
              m'.readers == Reposition(m.readers, r.modification.source, p.startInSource)
  {
    match ComputeRenderRange(r, blockRange)
    case None => m
    case Some(p) =>
      var readers := Reposition(m.readers, r.modification.source, p.startInSource);
      if m.rendered then
        var temp := ReadRegion(m.temp, r, p, numChannels, read);
        Mix(AddChannels(m.out, temp, p.startInBuffer, p.numSamplesToRead, numChannels), temp, true, readers)
      else
        var span := ReadRegion(m.out, r, p, numChannels, read);
        Mix(ClearOutsideSpan(span, p.startInBuffer, p.startInBuffer + p.numSamplesToRead, Length(blockRange)),
            m.temp, true, readers)
  }

  /** The step for the first contributing region, unfolded. */
  lemma FirstRegionStep(m: Mix, r: PlaybackRegion, blockRange: SampleRange, numChannels: int, read: StreamReader,
                        p: RenderPlan)
    requires WellFormed(blockRange) && IsShaped(m.out, numChannels, Length(blockRange))
    requires !m.rendered && ComputeRenderRange(r, blockRange) == Some(p)
    requires r.modification.source in m.readers && ModifiedBufferCovers(r, numChannels)
    ensures RegionStep(m, r, blockRange, numChannels, read).out
            == ClearOutsideSpan(ReadRegion(m.out, r, p, numChannels, read),
                                p.startInBuffer, p.startInBuffer + p.numSamplesToRead, Length(blockRange))
    ensures RegionStep(m, r, blockRange, numChannels, read).temp == m.temp
  {
  }

  /** The step for a later contributing region, unfolded. */
  lemma LaterRegionStep(m: Mix, r: PlaybackRegion, blockRange: SampleRange, numChannels: int, read: StreamReader,
                        p: RenderPlan)
    requires WellFormed(blockRange) && IsShaped(m.out, numChannels, Length(blockRange))
    requires m.rendered && ComputeRenderRange(r, blockRange) == Some(p)
    requires r.modification.source in m.readers && ModifiedBufferCovers(r, numChannels)
    requires TempFits(m.temp, numChannels, Length(blockRange))
    ensures RegionStep(m, r, blockRange, numChannels, read).temp == ReadRegion(m.temp, r, p, numChannels, read)
    ensures RegionStep(m, r, blockRange, numChannels, read).out
            == AddChannels(m.out, ReadRegion(m.temp, r, p, numChannels, read),
                           p.startInBuffer, p.numSamplesToRead, numChannels)
  {
  }

  /** The first contributing region leaves the output silent outside its span
      and holds what was read for it inside; the scratch buffer is untouched. */
  lemma FirstRegionSilentOutsideSpan(m: Mix, r: PlaybackRegion, blockRange: SampleRange, numChannels: int, read: StreamReader)
    requires WellFormed(blockRange) && IsShaped(m.out, numChannels, Length(blockRange))
    requires !m.rendered && ComputeRenderRange(r, blockRange).Some?
    requires r.modification.source in m.readers && ModifiedBufferCovers(r, numChannels)
    ensures var p := ComputeRenderRange(r, blockRange).value;
            var span := ReadRegion(m.out, r, p, numChannels, read);
            var m' := RegionStep(m, r, blockRange, numChannels, read);
            && m'.temp == m.temp
            && forall c, i :: 0 <= c < numChannels && 0 <= i < Length(blockRange) ==>
                 m'.out[c][i] == (if p.startInBuffer <= i < p.startInBuffer + p.numSamplesToRead
                                  then span[c][i] else 0.0)
  {
    var p := ComputeRenderRange(r, blockRange).value;
    var span := ReadRegion(m.out, r, p, numChannels, read);
    assert RegionStep(m, r, blockRange, numChannels, read).out
        == ClearOutsideSpan(span, p.startInBuffer, p.startInBuffer + p.numSamplesToRead, Length(blockRange));
  }

  /** A later contributing region is read into the scratch buffer, which is
      added into the output over the region's span; every other output sample
      keeps its value. */
  lemma LaterRegionMixesOnlyOverSpan(m: Mix, r: PlaybackRegion, blockRange: SampleRange, numChannels: int, read: StreamReader)
    requires WellFormed(blockRange) && IsShaped(m.out, numChannels, Length(blockRange))
    requires m.rendered && ComputeRenderRange(r, blockRange).Some?
    requires r.modification.source in m.readers && ModifiedBufferCovers(r, numChannels)
    requires TempFits(m.temp, numChannels, Length(blockRange))
    ensures var p := ComputeRenderRange(r, blockRange).value;
            var m' := RegionStep(m, r, blockRange, numChannels, read);
            && m'.temp == ReadRegion(m.temp, r, p, numChannels, read)
            && forall c, i :: 0 <= c < numChannels && 0 <= i < Length(blockRange) ==>
                 m'.out[c][i] == (if p.startInBuffer <= i < p.startInBuffer + p.numSamplesToRead
                                  then m.out[c][i] + m'.temp[c][i] else m.out[c][i])
  {
    var p := ComputeRenderRange(r, blockRange).value;
    var temp := ReadRegion(m.temp, r, p, numChannels, read);
    assert RegionStep(m, r, blockRange, numChannels, read).out
        == AddChannels(m.out, temp, p.startInBuffer, p.numSamplesToRead, numChannels);
  }

  /** How many of the regions contribute to the block. */
  function Contributors(rs: seq<PlaybackRegion>, blockRange: SampleRange): nat
    requires WellFormed(blockRange)
  {
    if rs == [] then 0
    else Contributors(rs[..|rs| - 1], blockRange)
         + (if ComputeRenderRange(rs[|rs| - 1], blockRange).Some? then 1 else 0)
  }

  /** The region loop over `rs` in host order. */
  function RenderRegions(m: Mix, rs: seq<PlaybackRegion>, blockRange: SampleRange, numChannels: int, read: StreamReader): (m': Mix)
    requires WellFormed(blockRange) && IsShaped(m.out, numChannels, Length(blockRange))
    requires forall r :: r in rs && ComputeRenderRange(r, blockRange).Some? ==>
               r.modification.source in m.readers && ModifiedBufferCovers(r, numChannels)
    requires (if m.rendered then 1 else 0) + Contributors(rs, blockRange) >= 2 ==>
               TempFits(m.temp, numChannels, Length(blockRange))
    ensures IsShaped(m'.out, numChannels, Length(blockRange)) && SameShape(m'.temp, m.temp)
    ensures m'.readers.Keys == m.readers.Keys
    ensures m'.rendered == (m.rendered || Contributors(rs, blockRange) > 0)
    ensures Contributors(rs, blockRange) == 0 ==> m' == m
    decreases |rs|
  {
    if rs == [] then m
    else
      var prev := RenderRegions(m, rs[..|rs| - 1], blockRange, numChannels, read);
      RegionStep(prev, rs[|rs| - 1], blockRange, numChannels, read)
  }

  /** The song-time range of the block. */
  function BlockRangeOf(position: PositionInfo, numSamples: int): SampleRange
    requires 0 <= numSamples
  {
    WithStartAndLength(position.timeInSamples.OrFallback(0), numSamples)
  }

  /** What `processBlock` demands of the regions it renders: each
      contributing region's source has been prepared and its processed
      buffer covers its modification range; the scratch buffer exists when
      two or more regions contribute. */
  predicate RegionsRenderable(rs: seq<PlaybackRegion>, blockRange: SampleRange, numChannels: int,
                              readers: map<SourceId, ReaderSource>, temp: Channels)
    requires WellFormed(blockRange)
  {
    && (forall r :: r in rs && ComputeRenderRange(r, blockRange).Some? ==>
          r.modification.source in readers && ModifiedBufferCovers(r, numChannels))
    && (Contributors(rs, blockRange) >= 2 ==> TempFits(temp, numChannels, Length(blockRange)))
  }

  /** A whole block once the processing lock is held: the region loop when
      the transport plays, then silence if nothing was rendered. */
  function RenderBlock(out: Channels, temp: Channels, readers: map<SourceId, ReaderSource>,
                       position: PositionInfo, numSamples: int, rs: seq<PlaybackRegion>,
                       numChannels: int, read: StreamReader): (m: Mix)
    requires 0 <= numSamples && IsShaped(out, numChannels, numSamples)
    requires position.isPlaying ==>
               RegionsRenderable(rs, BlockRangeOf(position, numSamples), numChannels, readers, temp)
    ensures IsShaped(m.out, numChannels, numSamples) && SameShape(m.temp, temp)
    ensures m.readers.Keys == readers.Keys
    ensures m.rendered <==> position.isPlaying && Contributors(rs, BlockRangeOf(position, numSamples)) > 0
    ensures !m.rendered ==>
              && m.temp == temp && m.readers == readers
              && forall c, i :: 0 <= c < numChannels && 0 <= i < numSamples ==> m.out[c][i] == 0.0
  {
    var m := if position.isPlaying
             then RenderRegions(Mix(out, temp, false, readers), rs, BlockRangeOf(position, numSamples), numChannels, read)
             else Mix(out, temp, false, readers);
    if !m.rendered then m.(out := Cleared(m.out, 0, numSamples)) else m
  }

  /** Prefixes of the region list have no more contributors than the list. */
  lemma {:induction false} ContributorsOfPrefix(rs: seq<PlaybackRegion>, k: nat, blockRange: SampleRange)
    requires WellFormed(blockRange) && k <= |rs|
    ensures Contributors(rs[..k], blockRange) <= Contributors(rs, blockRange)
    decreases |rs| - k
  {
    if k < |rs| {
      ContributorsOfPrefix(rs, k + 1, blockRange);
      assert rs[..k + 1][..k] == rs[..k];
    } else {
      assert rs[..k] == rs;
    }
  }

  /** The region loop over one more region is one more step. */
  lemma RenderRegionsSnoc(m: Mix, front: seq<PlaybackRegion>, r: PlaybackRegion, blockRange: SampleRange,
                          numChannels: int, read: StreamReader)
    requires WellFormed(blockRange) && IsShaped(m.out, numChannels, Length(blockRange))
    requires forall x :: x in front + [r] && ComputeRenderRange(x, blockRange).Some? ==>
               x.modification.source in m.readers && ModifiedBufferCovers(x, numChannels)
    requires (if m.rendered then 1 else 0) + Contributors(front + [r], blockRange) >= 2 ==>
               TempFits(m.temp, numChannels, Length(blockRange))
    ensures Contributors(front + [r], blockRange)
            == Contributors(front, blockRange) + (if ComputeRenderRange(r, blockRange).Some? then 1 else 0)
    ensures RenderRegions(m, front + [r], blockRange, numChannels, read)
            == RegionStep(RenderRegions(m, front, blockRange, numChannels, read), r, blockRange, numChannels, read)
  {
    assert (front + [r])[..|front|] == front;
  }

  /** One region that does not play block sample `i` keeps it silent once
      something has been rendered. */
  lemma StepKeepsUnplayedSampleSilent(m: Mix, r: PlaybackRegion, blockRange: SampleRange,
                                      numChannels: int, read: StreamReader, c: int, i: int)
    requires WellFormed(blockRange) && IsShaped(m.out, numChannels, Length(blockRange))
    requires ComputeRenderRange(r, blockRange).Some? ==>
               r.modification.source in m.readers && ModifiedBufferCovers(r, numChannels)
    requires m.rendered && ComputeRenderRange(r, blockRange).Some? ==>
               TempFits(m.temp, numChannels, Length(blockRange))
    requires 0 <= c < numChannels && 0 <= i < Length(blockRange)
    requires m.rendered ==> m.out[c][i] == 0.0
    requires !Renders(r, blockRange, blockRange.start + i)
    ensures var m' := RegionStep(m, r, blockRange, numChannels, read);
            m'.rendered ==> m'.out[c][i] == 0.0
  {
    if ComputeRenderRange(r, blockRange).Some? {
      RenderRangeIsExact(r, blockRange, blockRange.start + i);
      if m.rendered {
        LaterRegionMixesOnlyOverSpan(m, r, blockRange, numChannels, read);
      } else {
        FirstRegionSilentOutsideSpan(m, r, blockRange, numChannels, read);
      }
    }
  }

  /** Once some region has been rendered, a block sample that none of the
      regions plays stays silent through the rest of the region loop. */
  lemma {:induction false} UnplayedSampleStaysSilent(m: Mix, rs: seq<PlaybackRegion>, blockRange: SampleRange,
                                                      numChannels: int, read: StreamReader, c: int, i: int)
    requires WellFormed(blockRange) && IsShaped(m.out, numChannels, Length(blockRange))
    requires forall r :: r in rs && ComputeRenderRange(r, blockRange).Some? ==>
               r.modification.source in m.readers && ModifiedBufferCovers(r, numChannels)
    requires (if m.rendered then 1 else 0) + Contributors(rs, blockRange) >= 2 ==>
               TempFits(m.temp, numChannels, Length(blockRange))
    requires 0 <= c < numChannels && 0 <= i < Length(blockRange)
    requires m.rendered ==> m.out[c][i] == 0.0
    requires forall r :: r in rs ==> !Renders(r, blockRange, blockRange.start + i)
    ensures var m' := RenderRegions(m, rs, blockRange, numChannels, read);
            m'.rendered ==> m'.out[c][i] == 0.0
    decreases |rs|
  {
    if rs != [] {
      var front := rs[..|rs| - 1];
      assert forall x :: x in front ==> x in rs;
      UnplayedSampleStaysSilent(m, front, blockRange, numChannels, read, c, i);
      var prev := RenderRegions(m, front, blockRange, numChannels, read);
      assert rs[|rs| - 1] in rs;
      StepKeepsUnplayedSampleSilent(prev, rs[|rs| - 1], blockRange, numChannels, read, c, i);
    }
  }

  /** After a whole block, every output sample that no region plays is silent,
      whether or not the transport plays and whether or not anything
      contributed. */
  lemma UnplayedSampleIsSilent(out: Channels, temp: Channels, readers: map<SourceId, ReaderSource>,
                               position: PositionInfo, numSamples: int, rs: seq<PlaybackRegion>,
                               numChannels: int, read: StreamReader, c: int, i: int)
    requires 0 <= numSamples && IsShaped(out, numChannels, numSamples)
    requires position.isPlaying ==>
               RegionsRenderable(rs, BlockRangeOf(position, numSamples), numChannels, readers, temp)
    requires 0 <= c < numChannels && 0 <= i < numSamples
    requires position.isPlaying ==>
               var blockRange := BlockRangeOf(position, numSamples);
               forall r :: r in rs ==> !Renders(r, blockRange, blockRange.start + i)
    ensures RenderBlock(out, temp, readers, position, numSamples, rs, numChannels, read).out[c][i] == 0.0
  {
    if position.isPlaying {
      UnplayedSampleStaysSilent(Mix(out, temp, false, readers), rs, BlockRangeOf(position, numSamples),
                                numChannels, read, c, i);
    }
  }
}
