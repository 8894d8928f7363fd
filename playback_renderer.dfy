/** The ARA playback renderer: it prepares one read chain per audio source,
    renders every host block from the playback regions (processed buffer or
    source stream), and releases everything when the host says so. */
module Playback {
  import opened Wrappers
  import opened SampleRanges
  import opened AudioBuffers
  import opened RegionMapping
  import opened BlockRender

  /** The resampler built for a source: the channel count and block size it
      was prepared with (its sample-rate ratio is not modelled). */
  datatype ResamplingSource = ResamplingSource(numChannels: int, blockSize: int)

  /** The audio sources the regions play. */
  function SourcesOf(regions: seq<PlaybackRegion>): set<SourceId> {
    set r | r in regions :: r.modification.source
  }

  /** `std::map::emplace`: inserts only when the key is absent. */
  function Emplace<V>(m: map<SourceId, V>, key: SourceId, value: V): (m': map<SourceId, V>)
    ensures m'.Keys == m.Keys + {key}
    ensures key in m ==> m' == m
    ensures key !in m ==> m'[key] == value && forall k :: k in m ==> m'[k] == m[k]
  {
    if key in m then m else m[key := value]
  }

  /** A map after `prepareToPlay`: every source of the regions has an entry,
      entries already present are kept as they were, new ones are `entry`. */
  function WithEntries<V>(m: map<SourceId, V>, regions: seq<PlaybackRegion>, entry: V): (m': map<SourceId, V>)
    ensures m'.Keys == m.Keys + SourcesOf(regions)
    ensures forall s :: s in m ==> m'[s] == m[s]
    ensures forall s :: s in m' && s !in m ==> m'[s] == entry
  {
    m + map s | s in SourcesOf(regions) && s !in m :: entry
  }

  /** Taking one more region into account is one `emplace`. */
  lemma WithEntriesExtend<V>(m: map<SourceId, V>, regions: seq<PlaybackRegion>, i: nat, entry: V)
    requires i < |regions|
    ensures WithEntries(m, regions[..i + 1], entry)
         == Emplace(WithEntries(m, regions[..i], entry), regions[i].modification.source, entry)
  {
    SourcesOfNext(regions, i);
  }

  /** The sources of one more region. */
  lemma SourcesOfNext(regions: seq<PlaybackRegion>, i: nat)
    requires i < |regions|
    ensures SourcesOf(regions[..i + 1]) == SourcesOf(regions[..i]) + {regions[i].modification.source}
  {
    assert regions[..i + 1] == regions[..i] + [regions[i]];
  }

  /** Preparing again for the same regions, whatever the new configuration,
      neither adds nor replaces an entry. */
  lemma PrepareAgainChangesNothing<V>(m: map<SourceId, V>, regions: seq<PlaybackRegion>, entry: V, entry': V)
    ensures WithEntries(WithEntries(m, regions, entry), regions, entry') == WithEntries(m, regions, entry)
  {
    var once := WithEntries(m, regions, entry);
    assert WithEntries(once, regions, entry').Keys == once.Keys;
  }

  class PlaybackRenderer {
    var numChannels: int
    var sampleRate: real
    var maximumSamplesPerBlock: int
    var resamplingSources: map<SourceId, ResamplingSource>
    var positionableSources: map<SourceId, ReaderSource>
    /** Declared by the renderer but never allocated by it. */
    var tempBuffer: array2?<real>

    /** Both maps hold an entry for the same sources. */
    ghost predicate Valid()
      reads this
    {
      resamplingSources.Keys == positionableSources.Keys
    }

    /** The scratch buffer's contents, empty while it is not allocated. */
    ghost function TempContents(): Channels
      reads this, tempBuffer
    {
      if tempBuffer == null then [] else Contents(tempBuffer)
    }

    constructor ()
      ensures Valid()
      ensures numChannels == 2 && sampleRate == 48000.0 && maximumSamplesPerBlock == 128
      ensures resamplingSources == map[] && positionableSources == map[] && tempBuffer == null
    {
      numChannels := 2;
      sampleRate := 48000.0;
      maximumSamplesPerBlock := 128;
      resamplingSources := map[];
      positionableSources := map[];
      tempBuffer := null;
    }

    method PrepareToPlay(sampleRateIn: real, maximumSamplesPerBlockIn: int, numChannelsIn: int,
                         alwaysNonRealtime: bool, regions: seq<PlaybackRegion>)
      requires Valid()
      modifies this
      ensures Valid()
      ensures numChannels == numChannelsIn && sampleRate == sampleRateIn
      ensures maximumSamplesPerBlock == maximumSamplesPerBlockIn
      ensures resamplingSources ==
                WithEntries(old(resamplingSources), regions, ResamplingSource(numChannelsIn, maximumSamplesPerBlockIn))
      ensures positionableSources ==
                WithEntries(old(positionableSources), regions, ReaderSource(!alwaysNonRealtime, 0))
      ensures tempBuffer == old(tempBuffer)
    {
      numChannels := numChannelsIn;
      sampleRate := sampleRateIn;
      maximumSamplesPerBlock := maximumSamplesPerBlockIn;
      var useBufferedAudioSourceReader := !alwaysNonRealtime;
      var i := 0;
      while i < |regions|
        invariant 0 <= i <= |regions|
        invariant Valid()
        invariant numChannels == numChannelsIn && sampleRate == sampleRateIn
        invariant maximumSamplesPerBlock == maximumSamplesPerBlockIn && tempBuffer == old(tempBuffer)
        invariant resamplingSources ==
                    WithEntries(old(resamplingSources), regions[..i], ResamplingSource(numChannelsIn, maximumSamplesPerBlockIn))
        invariant positionableSources ==
                    WithEntries(old(positionableSources), regions[..i], ReaderSource(useBufferedAudioSourceReader, 0))
      {
        var audioSource := regions[i].modification.source;
        WithEntriesExtend(old(resamplingSources), regions, i, ResamplingSource(numChannelsIn, maximumSamplesPerBlockIn));
        WithEntriesExtend(old(positionableSources), regions, i, ReaderSource(useBufferedAudioSourceReader, 0));
        if audioSource !in resamplingSources {
          var readerSource := ReaderSource(useBufferedAudioSourceReader, 0);
          var resamplingSource := ResamplingSource(numChannels, maximumSamplesPerBlock);
          positionableSources := Emplace(positionableSources, audioSource, readerSource);
          resamplingSources := Emplace(resamplingSources, audioSource, resamplingSource);
        }
        i := i + 1;
      }
      assert regions[..i] == regions;
    }

    method ReleaseResources()
      modifies this
      ensures Valid()
      ensures resamplingSources == map[] && positionableSources == map[] && tempBuffer == null
      ensures numChannels == old(numChannels) && sampleRate == old(sampleRate)
      ensures maximumSamplesPerBlock == old(maximumSamplesPerBlock)
    {
      resamplingSources := map[];
      positionableSources := map[];
      tempBuffer := null;
    }

    /** One host callback. Without the processing lock nothing is touched;
        with it, the output becomes `RenderBlock` of the old contents and the
        call always reports success. */
    method ProcessBlock(buffer: array2<real>, realtime: bool, position: PositionInfo, lockAcquired: bool,
                        regions: seq<PlaybackRegion>, read: StreamReader) returns (success: bool)
      requires Valid()
      requires tempBuffer != buffer
      requires lockAcquired ==> buffer.Length0 == numChannels && buffer.Length1 <= maximumSamplesPerBlock
      requires lockAcquired && position.isPlaying ==>
                 RegionsRenderable(regions, BlockRangeOf(position, buffer.Length1), numChannels,
                                   positionableSources, TempContents())
      requires (lockAcquired && position.isPlaying &&
                Contributors(regions, BlockRangeOf(position, buffer.Length1)) >= 2) ==> tempBuffer != null
      modifies buffer, tempBuffer, this`positionableSources
      ensures Valid() && success
      ensures !lockAcquired ==>
                && Contents(buffer) == old(Contents(buffer))
                && TempContents() == old(TempContents())
                && positionableSources == old(positionableSources)
      ensures lockAcquired ==>
                var m := RenderBlock(old(Contents(buffer)), old(TempContents()), old(positionableSources),
                                     position, buffer.Length1, regions, numChannels, read);
                && Contents(buffer) == m.out
                && TempContents() == m.temp
                && positionableSources == m.readers
    {
      success := true;
      if !lockAcquired {
        return;
      }
      var numSamples := buffer.Length1;
      var timeInSamples := position.timeInSamples.OrFallback(0);
      var isPlaying := position.isPlaying;
      var didRenderAnyRegion := false;
      if isPlaying {
        var blockRange := WithStartAndLength(timeInSamples, numSamples);
        didRenderAnyRegion := RenderRegions(buffer, blockRange, regions, read);
      }
      if !didRenderAnyRegion {
        Clear(buffer, 0, numSamples);
      }
    }

    /** The region loop: every playback region in host order. */
    method RenderRegions(buffer: array2<real>, blockRange: SampleRange, regions: seq<PlaybackRegion>, read: StreamReader)
      returns (didRenderAnyRegion: bool)
      requires Valid() && tempBuffer != buffer
      requires WellFormed(blockRange) && Length(blockRange) == buffer.Length1 && buffer.Length0 == numChannels
      requires RegionsRenderable(regions, blockRange, numChannels, positionableSources, TempContents())
      requires Contributors(regions, blockRange) >= 2 ==> tempBuffer != null
      modifies buffer, tempBuffer, this`positionableSources
      ensures Valid()
      ensures var m := BlockRender.RenderRegions(Mix(old(Contents(buffer)), old(TempContents()), false, old(positionableSources)),
                                                 regions, blockRange, numChannels, read);
              && Contents(buffer) == m.out
              && TempContents() == m.temp
              && didRenderAnyRegion == m.rendered
              && positionableSources == m.readers
    {
      ghost var m0 := Mix(Contents(buffer), TempContents(), false, positionableSources);
      didRenderAnyRegion := false;
      var i := 0;
      while i < |regions|
        invariant 0 <= i <= |regions|
        invariant Valid()
        invariant Contributors(regions[..i], blockRange) <= Contributors(regions, blockRange)
        invariant forall r :: r in regions[..i] ==> r in regions
        invariant var m := BlockRender.RenderRegions(m0, regions[..i], blockRange, numChannels, read);
                  && Contents(buffer) == m.out
                  && TempContents() == m.temp
                  && didRenderAnyRegion == m.rendered
                  && positionableSources == m.readers
      {
        ContributorsOfPrefix(regions, i + 1, blockRange);
        didRenderAnyRegion := RenderNextRegion(buffer, blockRange, regions, i, didRenderAnyRegion, read, m0);
        i := i + 1;
      }
      assert regions[..i] == regions;
    }

    /** One turn of the region loop: the state after the first `i` regions
        becomes the state after the first `i + 1`. */
    method RenderNextRegion(buffer: array2<real>, blockRange: SampleRange, regions: seq<PlaybackRegion>, i: nat,
                            didRenderAnyRegion: bool, read: StreamReader, ghost m0: Mix)
      returns (didRenderNow: bool)
      requires Valid() && tempBuffer != buffer && i < |regions|
      requires WellFormed(blockRange) && Length(blockRange) == buffer.Length1 && buffer.Length0 == numChannels
      requires IsShaped(m0.out, numChannels, Length(blockRange)) && !m0.rendered
      requires RegionsRenderable(regions, blockRange, numChannels, m0.readers, m0.temp)
      requires Contributors(regions, blockRange) >= 2 ==> tempBuffer != null
      requires Contributors(regions[..i], blockRange) <= Contributors(regions, blockRange)
      requires Contributors(regions[..i + 1], blockRange) <= Contributors(regions, blockRange)
      requires forall r :: r in regions[..i] ==> r in regions
      requires var m := BlockRender.RenderRegions(m0, regions[..i], blockRange, numChannels, read);
               && Contents(buffer) == m.out
               && TempContents() == m.temp
               && didRenderAnyRegion == m.rendered
               && positionableSources == m.readers
      modifies buffer, tempBuffer, this`positionableSources
      ensures Valid()
      ensures forall r :: r in regions[..i + 1] ==> r in regions
      ensures var m := BlockRender.RenderRegions(m0, regions[..i + 1], blockRange, numChannels, read);
              && Contents(buffer) == m.out
              && TempContents() == m.temp
              && didRenderNow == m.rendered
              && positionableSources == m.readers
    {
      ghost var prev := BlockRender.RenderRegions(m0, regions[..i], blockRange, numChannels, read);
      assert regions[..i + 1] == regions[..i] + [regions[i]];
      RenderRegionsSnoc(m0, regions[..i], regions[i], blockRange, numChannels, read);
      RenderRegion(buffer, regions[i], blockRange, didRenderAnyRegion, read, prev);
      didRenderNow := didRenderAnyRegion || ComputeRenderRange(regions[i], blockRange).Some?;
    }

    /** `reader.setNextReadPosition (startInSource)` on the region's source. */
    method SeekReader(audioSource: SourceId, startInSource: int)
      requires Valid() && audioSource in positionableSources
      modifies this`positionableSources
      ensures Valid()
      ensures positionableSources == Reposition(old(positionableSources), audioSource, startInSource)
    {
      positionableSources := positionableSources[audioSource :=
                               positionableSources[audioSource].(nextReadPosition := startInSource)];
    }

    /** The body of the region loop for one region: clip it, position its
        reader, read it into the output (first region) or the scratch buffer
        (later ones), then clear around it or mix it in. */
    method RenderRegion(buffer: array2<real>, r: PlaybackRegion, blockRange: SampleRange,
                        didRenderAnyRegion: bool, read: StreamReader, ghost prev: Mix)
      requires Valid() && tempBuffer != buffer
      requires WellFormed(blockRange) && Length(blockRange) == buffer.Length1 && buffer.Length0 == numChannels
      requires IsShaped(prev.out, numChannels, Length(blockRange))
      requires Contents(buffer) == prev.out && TempContents() == prev.temp
      requires didRenderAnyRegion == prev.rendered && positionableSources == prev.readers
      requires ComputeRenderRange(r, blockRange).Some? ==>
                 r.modification.source in positionableSources && ModifiedBufferCovers(r, numChannels)
      requires didRenderAnyRegion && ComputeRenderRange(r, blockRange).Some? ==>
                 tempBuffer != null && TempFits(prev.temp, numChannels, Length(blockRange))
      modifies buffer, tempBuffer, this`positionableSources
      ensures Valid()
      ensures var m := RegionStep(prev, r, blockRange, numChannels, read);
              && Contents(buffer) == m.out
              && TempContents() == m.temp
              && positionableSources == m.readers
    {
      var plan := ComputeRenderRange(r, blockRange);
      if plan.None? {
        return;
      }
      SeekReader(r.modification.source, plan.value.startInSource);
      if didRenderAnyRegion {
        RenderLaterRegion(buffer, r, blockRange, plan.value, read, prev);
      } else {
        RenderFirstRegion(buffer, r, blockRange, plan.value, read, prev);
      }
    }

    /** The first contributing region goes straight into the output. */
    method RenderFirstRegion(buffer: array2<real>, r: PlaybackRegion, blockRange: SampleRange, p: RenderPlan,
                             read: StreamReader, ghost prev: Mix)
      requires tempBuffer != buffer
      requires WellFormed(blockRange) && Length(blockRange) == buffer.Length1 && buffer.Length0 == numChannels
      requires IsShaped(prev.out, numChannels, Length(blockRange))
      requires Contents(buffer) == prev.out && !prev.rendered
      requires ComputeRenderRange(r, blockRange) == Some(p)
      requires r.modification.source in prev.readers && ModifiedBufferCovers(r, numChannels)
      modifies buffer
      ensures Contents(buffer) == RegionStep(prev, r, blockRange, numChannels, read).out
      ensures TempContents() == old(TempContents())
    {
      WriteFirstRegion(buffer, r, p, numChannels, read);
      FirstRegionStep(prev, r, blockRange, numChannels, read, p);
    }

    /** A later contributing region is read into the scratch buffer and mixed in. */
    method RenderLaterRegion(buffer: array2<real>, r: PlaybackRegion, blockRange: SampleRange, p: RenderPlan,
                             read: StreamReader, ghost prev: Mix)
      requires tempBuffer != null && tempBuffer != buffer
      requires WellFormed(blockRange) && Length(blockRange) == buffer.Length1 && buffer.Length0 == numChannels
      requires IsShaped(prev.out, numChannels, Length(blockRange))
      requires Contents(buffer) == prev.out && TempContents() == prev.temp && prev.rendered
      requires ComputeRenderRange(r, blockRange) == Some(p)
      requires r.modification.source in prev.readers && ModifiedBufferCovers(r, numChannels)
      requires TempFits(prev.temp, numChannels, Length(blockRange))
      modifies buffer, tempBuffer
      ensures Contents(buffer) == RegionStep(prev, r, blockRange, numChannels, read).out
      ensures TempContents() == RegionStep(prev, r, blockRange, numChannels, read).temp
    {
      assert numChannels > 0 ==> |Contents(tempBuffer)[0]| == tempBuffer.Length1;
      MixLaterRegion(buffer, tempBuffer, r, p, numChannels, read);
      LaterRegionStep(prev, r, blockRange, numChannels, read, p);
    }
  }

  /** The first contributing region: read straight into the output, then
      `clear (0, startInBuffer)` and `clear (endInBuffer, remainingSamples)`
      where those are non-empty. */
  method WriteFirstRegion(buffer: array2<real>, r: PlaybackRegion, p: RenderPlan, numChannels: int, read: StreamReader)
    requires buffer.Length0 == numChannels
    requires 0 <= p.startInBuffer && 0 <= p.numSamplesToRead && p.startInBuffer + p.numSamplesToRead <= buffer.Length1
    requires ModificationSampleRange(r).start <= p.startInSource
    requires p.startInSource + p.numSamplesToRead <= ModificationSampleRange(r).end
    requires ModifiedBufferCovers(r, numChannels)
    modifies buffer
    ensures Contents(buffer) ==
              ClearOutsideSpan(ReadRegion(old(Contents(buffer)), r, p, numChannels, read),
                               p.startInBuffer, p.startInBuffer + p.numSamplesToRead, buffer.Length1)
  {
    ReadRegionInto(buffer, r, p, numChannels, read);
    if p.startInBuffer != 0 {
      Clear(buffer, 0, p.startInBuffer);
    }
    var endInBuffer := p.startInBuffer + p.numSamplesToRead;
    var remainingSamples := buffer.Length1 - endInBuffer;
    if remainingSamples != 0 {
      Clear(buffer, endInBuffer, remainingSamples);
    }
  }

  /** A later contributing region: read into the scratch buffer, then the
      `addFrom` loop over the channels, over the region's span. */
  method MixLaterRegion(buffer: array2<real>, tempBuffer: array2<real>, r: PlaybackRegion, p: RenderPlan,
                        numChannels: int, read: StreamReader)
    requires buffer != tempBuffer
    requires buffer.Length0 == numChannels && tempBuffer.Length0 == numChannels
    requires 0 <= p.startInBuffer && 0 <= p.numSamplesToRead && p.startInBuffer + p.numSamplesToRead <= buffer.Length1
    requires numChannels > 0 ==> buffer.Length1 <= tempBuffer.Length1
    requires ModificationSampleRange(r).start <= p.startInSource
    requires p.startInSource + p.numSamplesToRead <= ModificationSampleRange(r).end
    requires ModifiedBufferCovers(r, numChannels)
    modifies buffer, tempBuffer
    ensures Contents(tempBuffer) == ReadRegion(old(Contents(tempBuffer)), r, p, numChannels, read)
    ensures Contents(buffer) ==
              AddChannels(old(Contents(buffer)), Contents(tempBuffer), p.startInBuffer, p.numSamplesToRead, numChannels)
  {
    ReadRegionInto(tempBuffer, r, p, numChannels, read);
    AddChannelsInto(buffer, tempBuffer, p.startInBuffer, p.numSamplesToRead, numChannels);
  }

  /** Adds the scratch buffer into every channel of the output over
      `[start, start + count)`, channel by channel. */
  method AddChannelsInto(buffer: array2<real>, tempBuffer: array2<real>, start: int, count: int, numChannels: int)
    requires buffer != tempBuffer
    requires buffer.Length0 == numChannels && tempBuffer.Length0 == numChannels
    requires 0 <= start && 0 <= count && start + count <= buffer.Length1
    requires numChannels > 0 ==> buffer.Length1 <= tempBuffer.Length1
    modifies buffer
    ensures Contents(buffer) == AddChannels(old(Contents(buffer)), Contents(tempBuffer), start, count, numChannels)
  {
    ghost var temp := Contents(tempBuffer);
    var c := 0;
    while c < numChannels
      invariant 0 <= c <= numChannels
      invariant Contents(buffer) == AddChannels(old(Contents(buffer)), temp, start, count, c)
    {
      AddFrom(buffer, c, start, tempBuffer, c, start, count);
      c := c + 1;
    }
  }

  /** Reads one region into `readBuffer`: the `copyFrom` loops over the
      processed buffer, or the resampler's `getNextAudioBlock`. */
  method ReadRegionInto(readBuffer: array2<real>, r: PlaybackRegion, p: RenderPlan, numChannels: int, read: StreamReader)
    requires 0 <= numChannels <= readBuffer.Length0 && 0 <= p.numSamplesToRead
    requires numChannels > 0 ==> p.numSamplesToRead <= readBuffer.Length1
    requires ModificationSampleRange(r).start <= p.startInSource
    requires p.startInSource + p.numSamplesToRead <= ModificationSampleRange(r).end
    requires ModifiedBufferCovers(r, numChannels)
    modifies readBuffer
    ensures Contents(readBuffer) == ReadRegion(old(Contents(readBuffer)), r, p, numChannels, read)
  {
    var mod := r.modification;
    if mod.modifiedAudioBuffer.Some? && mod.isModified {
      var modBuffer := mod.modifiedAudioBuffer.value;
      if |modBuffer| == numChannels {
        CopyEachChannel(readBuffer, modBuffer, p.startInSource, p.numSamplesToRead, numChannels);
      } else if |modBuffer| == 1 {
        BroadcastMono(readBuffer, modBuffer, p.startInSource, p.numSamplesToRead, numChannels);
      }
    } else {
      Fill(readBuffer, Pull(read, mod.source, p.startInSource));
    }
  }

  /** Copies `count` samples of each processed channel, from `startInSource`,
      to the start of the same channel of the read buffer. */
  method CopyEachChannel(readBuffer: array2<real>, modBuffer: Channels, startInSource: int, count: int, numChannels: int)
    requires 0 <= numChannels <= readBuffer.Length0 && 0 <= count
    requires numChannels > 0 ==> count <= readBuffer.Length1
    requires |modBuffer| == numChannels && 0 <= startInSource
    requires forall c :: 0 <= c < |modBuffer| ==> startInSource + count <= |modBuffer[c]|
    modifies readBuffer
    ensures Contents(readBuffer) == CopyChannels(old(Contents(readBuffer)), modBuffer, false, startInSource, count, numChannels)
  {
    var c := 0;
    while c < numChannels
      invariant 0 <= c <= numChannels
      invariant Contents(readBuffer) == CopyChannels(old(Contents(readBuffer)), modBuffer, false, startInSource, count, c)
    {
      CopyFrom(readBuffer, c, 0, modBuffer[c], startInSource, count);
      c := c + 1;
    }
  }

  /** Copies `count` samples of the single processed channel, from
      `startInSource`, to the start of every channel of the read buffer. */
  method BroadcastMono(readBuffer: array2<real>, modBuffer: Channels, startInSource: int, count: int, numChannels: int)
    requires 0 <= numChannels <= readBuffer.Length0 && 0 <= count
    requires numChannels > 0 ==> count <= readBuffer.Length1
    requires |modBuffer| == 1 && 0 <= startInSource
    requires forall c :: 0 <= c < |modBuffer| ==> startInSource + count <= |modBuffer[c]|
    modifies readBuffer
    ensures Contents(readBuffer) == CopyChannels(old(Contents(readBuffer)), modBuffer, true, startInSource, count, numChannels)
  {
    var c := 0;
    while c < numChannels
      invariant 0 <= c <= numChannels
      invariant Contents(readBuffer) == CopyChannels(old(Contents(readBuffer)), modBuffer, true, startInSource, count, c)
    {
      CopyFrom(readBuffer, c, 0, modBuffer[0], startInSource, count);
      c := c + 1;
    }
  }
}
