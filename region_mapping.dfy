/** Mapping a playback region onto one host block: the two clipping passes of
    the renderer (song time, then modification time moved into song time) and
    the buffer and source offsets derived from what is left. */
module RegionMapping {
  import opened Wrappers
  import opened SampleRanges
  import opened AudioBuffers

  /** Identity of an ARA audio source; the renderer's maps are keyed by it. */
  type SourceId = nat

  /** An audio modification as the renderer sees it: its source, whether the
      inference job has marked it modified, and the processed buffer if any. */
  datatype AudioModification = AudioModification(
    source: SourceId,
    isModified: bool,
    modifiedAudioBuffer: Option<Channels>)

  /** A playback region: where it sits on the song timeline (in samples at
      the render sample rate) and which samples of its modification it plays
      (as given integer positions, compared with song positions directly).
      Head and tail time is not used. */
  datatype PlaybackRegion = PlaybackRegion(
    modification: AudioModification,
    startInPlaybackSamples: int,
    endInPlaybackSamples: int,
    startInAudioModificationSamples: int,
    endInAudioModificationSamples: int)

  /** What one region contributes to a block: how many samples, where they go
      in the block, and where they start in the modification. */
  datatype RenderPlan = RenderPlan(numSamplesToRead: int, startInBuffer: int, startInSource: int)

  /** `getSampleRange (sampleRate, IncludeHeadAndTail::no)`. */
  function PlaybackSampleRange(r: PlaybackRegion): SampleRange {
    MakeRange(r.startInPlaybackSamples, r.endInPlaybackSamples)
  }

  function ModificationSampleRange(r: PlaybackRegion): SampleRange {
    MakeRange(r.startInAudioModificationSamples, r.endInAudioModificationSamples)
  }

  /** Song time plus this offset is modification time. */
  function ModificationSampleOffset(r: PlaybackRegion): int {
    ModificationSampleRange(r).start - PlaybackSampleRange(r).start
  }

  /** The first clipping pass: the block against the region's song-time range. */
  function SongClip(r: PlaybackRegion, blockRange: SampleRange): SampleRange {
    Intersection(blockRange, PlaybackSampleRange(r))
  }

  /** The second clipping pass: the first result against the modification
      range moved to start where the region starts in song time. */
  function ModificationClip(r: PlaybackRegion, blockRange: SampleRange): SampleRange {
    Intersection(SongClip(r, blockRange), MovedToStartAt(ModificationSampleRange(r), PlaybackSampleRange(r).start))
  }

  /** The song-time sample `t` is played by region `r` during the block:
      it is in the block, inside the region on the timeline, and its
      modification-time position is inside the modification range. */
  ghost predicate Renders(r: PlaybackRegion, blockRange: SampleRange, t: int) {
    && Contains(blockRange, t)
    && Contains(PlaybackSampleRange(r), t)
    && Contains(ModificationSampleRange(r), t + ModificationSampleOffset(r))
  }

  /** The clipping and offset computation of one region in `processBlock`;
      `None` is the `continue` taken when either clipped range is empty. */
  function ComputeRenderRange(r: PlaybackRegion, blockRange: SampleRange): (plan: Option<RenderPlan>)
    requires WellFormed(blockRange)
    ensures plan.Some? ==>
              && 0 < plan.value.numSamplesToRead
              && 0 <= plan.value.startInBuffer
              && plan.value.startInBuffer + plan.value.numSamplesToRead <= Length(blockRange)
    ensures plan.Some? ==>
              && ModificationSampleRange(r).start <= plan.value.startInSource
              && plan.value.startInSource + plan.value.numSamplesToRead <= ModificationSampleRange(r).end
  {
    var renderRange := SongClip(r, blockRange);
    if IsEmpty(renderRange) then None
    else
      var clipped := ModificationClip(r, blockRange);
      if IsEmpty(clipped) then None
      else
        assert Contains(clipped, clipped.start) && Contains(clipped, clipped.end - 1);
        Some(RenderPlan(Length(clipped), clipped.start - blockRange.start,
                        clipped.start + ModificationSampleOffset(r)))
  }

  /** A region contributes to a block exactly when some sample of the block is
      rendered by it, and then the plan covers exactly those samples: the
      song-time sample `t` lands at buffer index `t - blockRange.start` and is
      read from modification position `t + offset`. */
  lemma RenderRangeIsExact(r: PlaybackRegion, blockRange: SampleRange, t: int)
    requires WellFormed(blockRange)
    ensures ComputeRenderRange(r, blockRange).None? ==> !Renders(r, blockRange, t)
    ensures ComputeRenderRange(r, blockRange).Some? ==>
              var p := ComputeRenderRange(r, blockRange).value;
              && (Renders(r, blockRange, t) <==>
                    p.startInBuffer <= t - blockRange.start < p.startInBuffer + p.numSamplesToRead)
              && p.startInSource + (t - blockRange.start - p.startInBuffer) == t + ModificationSampleOffset(r)
  {
    var clipped := ModificationClip(r, blockRange);
    assert Contains(clipped, t) <==> Renders(r, blockRange, t);
    EmptyIffNoSample(SongClip(r, blockRange));
    EmptyIffNoSample(clipped);
  }

  /** A region contributes exactly when it renders some sample of the block. */
  lemma ContributesIffSomeSampleRendered(r: PlaybackRegion, blockRange: SampleRange)
    requires WellFormed(blockRange)
    ensures ComputeRenderRange(r, blockRange).Some? <==> exists t :: Renders(r, blockRange, t)
  {
    if ComputeRenderRange(r, blockRange).Some? {
      var p := ComputeRenderRange(r, blockRange).value;
      RenderRangeIsExact(r, blockRange, blockRange.start + p.startInBuffer);
    } else {
      forall t ensures !Renders(r, blockRange, t) {
        RenderRangeIsExact(r, blockRange, t);
      }
    }
  }

  /** First pass: a block that misses the region on the timeline is skipped. */
  lemma SkippedOutsideSongRange(r: PlaybackRegion, blockRange: SampleRange)
    requires WellFormed(blockRange)
    requires forall t :: Contains(blockRange, t) ==> !Contains(PlaybackSampleRange(r), t)
    ensures ComputeRenderRange(r, blockRange).None?
  {
    EmptyIffNoSample(SongClip(r, blockRange));
  }

  /** Second pass: even when the block meets the region on the timeline, it is
      skipped when none of those samples falls inside the modification range. */
  lemma SkippedOutsideModificationRange(r: PlaybackRegion, blockRange: SampleRange)
    requires WellFormed(blockRange)
    requires forall t :: Contains(blockRange, t) && Contains(PlaybackSampleRange(r), t) ==>
               !Contains(ModificationSampleRange(r), t + ModificationSampleOffset(r))
    ensures ComputeRenderRange(r, blockRange).None?
  {
    EmptyIffNoSample(ModificationClip(r, blockRange));
  }
}
