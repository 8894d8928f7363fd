# HARP renderer and editor, modelled in Dafny

HARP is an ARA plug-in and standalone editor. It sends audio to a web
model and plays the processed result back in the host. This project models
two parts of it.

**The playback renderer** (`Source/ARA/PlaybackRenderer.h`). The live class in
that file only declares its methods. Their implementation is kept in comments
at lines 107-369, and that commented-out implementation is what is modelled:
- `prepareToPlay` keys one read chain per audio source in two maps.
- `releaseResources` empties the maps.
- `processBlock` renders one host block. It takes the processing lock and
  builds the block's song-time range. Each playback region is clipped twice:
  once against its song-time range, then against its modification range moved
  into song time. The buffer offset and the source offset are derived from
  what is left. Samples are read either from the region's processed buffer
  (copied per channel, or broadcast from a mono buffer) or from the source
  stream. The first contributing region is written into the output, which is
  then cleared around it. Later regions are read into the scratch buffer and
  added into the output over their span only. A block to which no region
  contributes is cleared.

The renderer is a class (`Playback.PlaybackRenderer`) with the maps and the
scratch buffer as fields. The output and scratch buffers are `array2<real>`.
Every method is proved against pure functions on buffer contents
(`BlockRender`, `AudioBuffers`). The two clipping passes and the offsets are
pure functions over JUCE `Range` semantics (`SampleRanges`, `RegionMapping`).
The lock is a boolean input. The resampling read chain is an opaque function
from (source, start position, channel, frame) to a sample.

**The standalone editor** (`src/MainComponent.h`):
- the working-copy path and the backup path built from the target file, with
  JUCE `File` semantics for stem, extension and parent directory;
- the normalisation of a model space URL;
- the mapping from model status to button state;
- the author line of the model card;
- the enable and text state of the process, cancel, save and load buttons
  across clicks and broadcaster callbacks;
- the file copies and moves made when committing;
- the transport's start/stop toggle.

The disk is a map from path to contents. The web model and the threads are
outside the model. What the model reports comes in as parameters.

Behaviour of the code that is modelled as written:
- `tempBuffer` is declared but never allocated, not even in `prepareToPlay`.
  `ProcessBlock` therefore requires a scratch buffer exactly when two or more
  regions contribute, because that is when the code dereferences it.
- The processed-buffer copy writes from offset 0 of the read buffer, not from
  the region's `startInBuffer`. The mix step adds from `startInBuffer`.
- The stream read fills the whole read buffer.
- Without the lock, `processBlock` returns `true` and leaves the output as it
  was. The lock is taken before `isPlaying` is checked, so a stopped
  transport's block is cleared only once the lock is held.
- A processed buffer of unsupported width writes nothing, yet its region
  still counts as rendered, and the output is cleared around its span.
- `showAudioResource` ignores its argument and loads `currentAudioFile`.

## Model

| member | source | states |
|---|---|---|
| SampleRanges.MakeRange | Source/ARA/PlaybackRenderer.h:231-232 | a `Range` keeps its start, is never inverted, and contains exactly the samples from the start up to the given end |
| SampleRanges.WithStartAndLength | Source/ARA/PlaybackRenderer.h:212 | the block range starts at the transport time, has `numSamples` samples and contains exactly those |
| SampleRanges.Intersection | Source/ARA/PlaybackRenderer.h:221 | an intersection contains exactly the samples both ranges contain |
| SampleRanges.MovedToStartAt | Source/ARA/PlaybackRenderer.h:235 | a moved range starts at the new start, keeps its length, and contains `t` iff the original contains the shifted sample |
| SampleRanges.EmptyIffNoSample | Source/ARA/PlaybackRenderer.h:223-227 | a range is empty iff it contains no sample, so `isEmpty` is the right skip test |
| RegionMapping.ComputeRenderRange | Source/ARA/PlaybackRenderer.h:212-264 | for a contributing region: `0 < numSamplesToRead`, `0 <= startInBuffer`, `startInBuffer + numSamplesToRead <= numSamples`, and the source span lies inside the modification range |
| RegionMapping.RenderRangeIsExact | Source/ARA/PlaybackRenderer.h:220-264 | a skipped region plays no sample of the block; otherwise song sample `t` is played iff it lands in `[startInBuffer, startInBuffer + numSamplesToRead)`, and it is read at modification position `t + offset` |
| RegionMapping.ContributesIffSomeSampleRendered | Source/ARA/PlaybackRenderer.h:220-241 | a region contributes iff it plays some sample of the block |
| RegionMapping.SkippedOutsideSongRange | Source/ARA/PlaybackRenderer.h:220-227 | a block that misses the region on the timeline skips it |
| RegionMapping.SkippedOutsideModificationRange | Source/ARA/PlaybackRenderer.h:231-241 | a block that meets the region on the timeline but not inside its modification range still skips it |
| AudioBuffers.Cleared | Source/ARA/PlaybackRenderer.h:329-337 | `clear` zeroes every channel over the span and keeps every other sample |
| AudioBuffers.CopiedFrom | Source/ARA/PlaybackRenderer.h:281-286 | `copyFrom` overwrites one channel over the span with the source samples and keeps everything else |
| AudioBuffers.AddedFrom | Source/ARA/PlaybackRenderer.h:325 | `addFrom` adds the source samples into one channel over the span and keeps everything else |
| AudioBuffers.Filled | Source/ARA/PlaybackRenderer.h:305-307 | a stream read sets every sample of the buffer to what the stream delivers there |
| AudioBuffers.Clear | Source/ARA/PlaybackRenderer.h:348 | clearing an array in place leaves exactly `Cleared` of its old contents |
| AudioBuffers.CopyFrom | Source/ARA/PlaybackRenderer.h:281-286 | copying in place leaves exactly `CopiedFrom` of the old contents |
| AudioBuffers.AddFrom | Source/ARA/PlaybackRenderer.h:325 | adding in place leaves exactly `AddedFrom` of the old contents |
| AudioBuffers.Fill | Source/ARA/PlaybackRenderer.h:305-307 | a stream read in place leaves exactly `Filled` |
| BlockRender.CopyChannels | Source/ARA/PlaybackRenderer.h:278-298 | after the copy loop over `k` channels, channel `c < k` holds the processed samples from `startInSource` in its first `numSamplesToRead` frames (from source channel `c`, or channel 0 when mono); every other sample is unchanged |
| BlockRender.AddChannels | Source/ARA/PlaybackRenderer.h:324-325 | after the mix loop, each channel is the old output plus the scratch buffer over `[startInBuffer, startInBuffer + numSamplesToRead)` and unchanged elsewhere |
| BlockRender.ReadRegionContents | Source/ARA/PlaybackRenderer.h:273-307 | a processed buffer of matching width is copied per channel, a mono one is broadcast to all channels, one of any other width writes nothing; without one, the whole buffer comes from the stream at `startInSource` |
| BlockRender.ClearOutsideSpan | Source/ARA/PlaybackRenderer.h:329-337 | after the two conditional clears, the output holds its samples inside the region's span and zero everywhere else |
| BlockRender.RegionStep | Source/ARA/PlaybackRenderer.h:220-340 | one loop turn keeps buffer shapes and map keys; a skipped region changes nothing; a contributing one sets `didRenderAnyRegion` and moves its reader to `startInSource` |
| BlockRender.FirstRegionSilentOutsideSpan | Source/ARA/PlaybackRenderer.h:327-339 | the first contributing region leaves the output silent outside its span, holding what was read inside it, with the scratch buffer untouched |
| BlockRender.LaterRegionMixesOnlyOverSpan | Source/ARA/PlaybackRenderer.h:321-326 | a later contributing region adds the scratch buffer over its span; every other output sample keeps its value |
| BlockRender.RenderRegions | Source/ARA/PlaybackRenderer.h:214-341 | the region loop keeps shapes and map keys, and has rendered something iff some region contributes; with no contributor nothing changes |
| BlockRender.RenderBlock | Source/ARA/PlaybackRenderer.h:200-350 | a block renders something iff the transport plays and a region contributes; otherwise every output sample is zero and the scratch buffer and readers are unchanged |
| BlockRender.UnplayedSampleStaysSilent | Source/ARA/PlaybackRenderer.h:214-341 | once a region has been rendered, an output sample that none of the remaining regions plays stays zero through the loop |
| BlockRender.UnplayedSampleIsSilent | Source/ARA/PlaybackRenderer.h:344-349 | after a whole block, every output sample that no region plays is zero, whether or not anything contributed |
| Playback.Emplace | Source/ARA/PlaybackRenderer.h:172-173 | `emplace` adds the key; an existing entry is kept, a new key gets the new value, and other entries are unchanged |
| Playback.WithEntries | Source/ARA/PlaybackRenderer.h:130-175 | after preparing, every region's source has an entry; existing entries are kept and new ones are the fresh entry |
| Playback.WithEntriesExtend | Source/ARA/PlaybackRenderer.h:130-174 | taking one more region into account is exactly one `emplace` of its source |
| Playback.PrepareAgainChangesNothing | Source/ARA/PlaybackRenderer.h:136 | preparing again for the same regions, with any configuration, neither adds nor replaces an entry |
| Playback.PlaybackRenderer.constructor | Source/ARA/PlaybackRenderer.h:94-99 | a new renderer has 2 channels, 48000 Hz, 128 samples per block, empty maps and no scratch buffer |
| Playback.PlaybackRenderer.PrepareToPlay | Source/ARA/PlaybackRenderer.h:113-177 | stores the configuration and leaves both maps equal to `WithEntries` of the old maps; both maps keep the same keys |
| Playback.PlaybackRenderer.ReleaseResources | Source/ARA/PlaybackRenderer.h:180-187 | both maps become empty and the scratch buffer is reset; the configuration is kept |
| Playback.PlaybackRenderer.ProcessBlock | Source/ARA/PlaybackRenderer.h:189-351 | always returns `true`; without the lock, the output, scratch buffer and readers are untouched; with it, they become `RenderBlock` of their old values |
| Playback.PlaybackRenderer.RenderRegions | Source/ARA/PlaybackRenderer.h:214-341 | the in-place region loop leaves the output, the scratch buffer, `didRenderAnyRegion` and the readers equal to `BlockRender.RenderRegions` |
| Playback.PlaybackRenderer.RenderNextRegion | Source/ARA/PlaybackRenderer.h:214-341 | one loop turn carries the state for the first `i` regions to the state for the first `i + 1` |
| Playback.PlaybackRenderer.RenderRegion | Source/ARA/PlaybackRenderer.h:220-340 | one region's body in place gives exactly `RegionStep` |
| Playback.PlaybackRenderer.SeekReader | Source/ARA/PlaybackRenderer.h:266 | `setNextReadPosition` moves only the region's reader, to `startInSource` |
| Playback.PlaybackRenderer.RenderFirstRegion | Source/ARA/PlaybackRenderer.h:327-340 | the first contributing region in place gives the output of `RegionStep` and leaves the scratch buffer alone |
| Playback.PlaybackRenderer.RenderLaterRegion | Source/ARA/PlaybackRenderer.h:321-326 | a later contributing region in place gives the output and scratch buffer of `RegionStep` |
| Playback.WriteFirstRegion | Source/ARA/PlaybackRenderer.h:270-339 | reading into the output and clearing around the span leaves `ClearOutsideSpan` of the read |
| Playback.MixLaterRegion | Source/ARA/PlaybackRenderer.h:270-326 | the scratch buffer becomes the read and the output becomes `AddChannels` of it |
| Playback.AddChannelsInto | Source/ARA/PlaybackRenderer.h:324-325 | the `addFrom` loop in place leaves exactly `AddChannels` |
| Playback.ReadRegionInto | Source/ARA/PlaybackRenderer.h:270-307 | the read in place leaves exactly `ReadRegion` of the old contents |
| Playback.CopyEachChannel | Source/ARA/PlaybackRenderer.h:278-287 | the per-channel copy loop in place leaves exactly `CopyChannels` |
| Playback.BroadcastMono | Source/ARA/PlaybackRenderer.h:289-298 | the mono copy loop in place leaves exactly the broadcast `CopyChannels` |
| EditorStrings.LastIndexOf | src/MainComponent.h:899-900 | `lastIndexOfChar` returns -1 or an index holding the character |
| EditorStrings.LastIndexOfIsLast | src/MainComponent.h:899-900 | no occurrence lies after the index found |
| EditorStrings.ContainsIffOccurs | src/MainComponent.h:573 | `contains` holds iff the substring occurs at some position |
| EditorStrings.FileExtension | src/MainComponent.h:900 | an extension is never longer than the path |
| EditorStrings.ExtensionShape | src/MainComponent.h:900 | the extension is a tail of the path with no separator; it is empty, or a dot followed by no dot; it is empty iff no dot follows the last separator |
| EditorStrings.StemShape | src/MainComponent.h:899 | a stem holds no separator, and holds no dot when there is no extension |
| EditorStrings.ParentDirectory | src/MainComponent.h:463 | the parent directory is empty iff the path is |
| EditorStrings.DecoratedParts | src/MainComponent.h:462-466 | a name built as `dir/` + stem + suffix + extension splits back into that directory, the decorated stem and the same extension, and differs from the original path |
| EditorStrings.WorkingCopyParts | src/MainComponent.h:897-901 | the working copy lies in `<Documents>/HARP`, has the target's stem plus `_harp` and the target's extension, and is never the target |
| EditorStrings.BackupParts | src/MainComponent.h:462-466 | the backup lies in the target's parent directory, has the target's stem plus `_BACKUP` and the target's extension, and is never the target |
| EditorStrings.NestedPathRoundTrip | src/MainComponent.h:463-465 | a path below a named directory is its parent, `/`, its stem and its extension put back together |
| EditorStrings.BackupInsertsSuffix | src/MainComponent.h:462-466 | for a file below a named directory, the backup is the target's path with `_BACKUP` inserted just before the extension |
| EditorStrings.AuthorLabel | src/MainComponent.h:805-807 | the author line is empty iff the author is; otherwise it is `by ` followed by the author |
| EditorStrings.SpaceUrl | src/MainComponent.h:572-579 | a URL containing `localhost`, `huggingface.co` or `http` is kept unchanged, and only such a URL is; any other URL gets the spaces prefix; the result is always a full URL |
| EditorStrings.SpaceUrlIdempotent | src/MainComponent.h:572-579 | normalising twice equals normalising once |
| EditorStrings.ClassifyStatus | src/MainComponent.h:587-594 | a status is `Ready` iff it is `Status.LOADED` or `Status.FINISHED`, and `Busy` iff it is `Status.PROCESSING`, `Status.STARTING` or `Status.SENDING` |
| Editor.CopyFile | src/MainComponent.h:468 | `copyFileTo` succeeds iff the source is the destination or exists; on success the destination holds the source's contents; a failure changes nothing; no other file changes |
| Editor.MoveFile | src/MainComponent.h:471 | `moveFileTo` succeeds iff the source is the destination or exists; moving a file onto itself or failing changes nothing; a real move puts the contents at the destination and removes the source; no other file changes |
| Editor.BackupIsNotWorkingCopy | src/MainComponent.h:462-466 | the backup of a target and its working copy are different files |
| Editor.CommitKeepsBackup | src/MainComponent.h:456-475 | after committing, the backup holds the old target, the target and the new working copy hold the processed audio, and no other file changes |
| Editor.ProcessingText | src/MainComponent.h:414 | the button text is `processing ` + the model name + `...` |
| Editor.MainComponent.constructor | src/MainComponent.h:338-643 | process is enabled iff the model is ready or its status is ready; cancel is enabled iff the status is busy; save is locked; load is open; the status, model path and card labels show what the model reports; the disk is untouched, no file is current and the transport is empty at position 0 |
| Editor.MainComponent.OpenInitialFile | src/MainComponent.h:386-390 | with no initial file nothing changes; with one, it becomes the target, its working copy is made and current, and the stopped transport holds the copy iff it exists, at position 0 |
| Editor.StatusChecked | src/MainComponent.h:587-594 | a ready status opens process with text `process` and keeps cancel; a busy status opens cancel with the processing text and keeps process enabled as it was; any other status changes none of the three |
| Editor.MainComponent.SetModelCard | src/MainComponent.h:800-808 | the name and description labels show the card, and the author label shows `AuthorLabel` |
| Editor.MainComponent.ResetUI | src/MainComponent.h:793-798 | the card labels become empty |
| Editor.MainComponent.OnProcessClick | src/MainComponent.h:410-450 | process is locked with the processing text, cancel is opened, save is locked, the job list is exactly one job, and the job thread is signalled once |
| Editor.MainComponent.OnLoadClick | src/MainComponent.h:490-583 | the card is cleared; the URL is queued; load and process are locked; the description shows the loading hint; the space link is `SpaceUrl` of the URL |
| Editor.MainComponent.OnLoadFailure | src/MainComponent.h:529-538 | a failed or timed-out load locks saving |
| Editor.MainComponent.OnSaveClick | src/MainComponent.h:456-475 | the disk becomes `CommitFiles` of the old disk; the target is kept; a fresh working copy is current and reloaded into the stopped transport at position 0 (held iff it exists, then with zoom and waveform reset); saving is locked |
| Editor.MainComponent.ReplaceTarget | src/MainComponent.h:462-471 | the target is copied to its backup, then the working copy is moved onto the target |
| Editor.MainComponent.AddNewAudioFile | src/MainComponent.h:893-912 | the target is remembered, its working copy path is current, the disk gains the copy, and the transport is stopped at position 0, holding the working copy iff it exists; on success zoom and waveform are reset, otherwise kept |
| Editor.MainComponent.ShowAudioResource | src/MainComponent.h:880-891 | the current working copy is loaded whatever the argument; the transport ends stopped at position 0; on success the zoom is reset and the waveform shows the copy, on failure both are kept |
| Editor.MainComponent.LoadUrlIntoTransport | src/MainComponent.h:914-945 | the transport is stopped, emptied and back at position 0; loading succeeds iff the file exists, and then the transport holds it |
| Editor.MainComponent.StartOrStop | src/MainComponent.h:947-958 | a playing transport stops; a stopped one with a source rewinds to 0 and plays, so with a source the playing state toggles |
| Editor.MainComponent.OnModelLoaded | src/MainComponent.h:1018-1033 | the card is shown, process and load are opened, and the load text is `load` |
| Editor.MainComponent.OnProcessFinished | src/MainComponent.h:1034-1044 | the processed file is reloaded into the stopped transport at position 0 (zoom and waveform reset iff it exists); the process text is `process`; process and save are open; cancel is locked |
| Editor.MainComponent.ChangeListenerCallback | src/MainComponent.h:1014-1053 | a dropped file becomes the new target with a working copy shown in the stopped transport; the load message shows the card and opens process and load; the process message reloads the working copy, reopens process and save and locks cancel; the status timer updates only the status label; any other broadcaster changes nothing; each branch leaves every other field unchanged |

## Left out

- Editor.MainComponent.constructor: only the case with no initial file is modelled in the constructor. Opening a local initial file (src/MainComponent.h:386-390) is `OpenInitialFile`, run on the newly built editor; folding it into the constructor made that one proof too costly for the verifier.
- The processing lock and the job threads. Lock acquisition is a boolean input, and the background jobs are outside the model.
- The resampling chain (`ResamplingAudioSource`, `BufferingAudioReader`, `ARAAudioSourceReader`, the shared time-slice thread), the resampling ratio and the read-ahead size. These are foreign JUCE/ARA calls and floating-point arithmetic. The stream read is an opaque function, and a reader source records only whether it is buffered and where its next read starts.
- Playback.PlaybackRenderer.RenderRegion: the read position advanced by the stream read itself is not modelled. Only the explicit `setNextReadPosition` is, because the advance happens inside the resampler.
- Samples are real numbers. Float rounding in `addFrom` is not modelled.
- The `jassert`s on block size and channel count in `processBlock` (`Source/ARA/PlaybackRenderer.h:201-202`) become preconditions of `ProcessBlock`.
- Playback.PlaybackRenderer.ProcessBlock: two more preconditions come from assumptions in the code, not from its `jassert`s:
  - Every contributing region's audio source must have an entry in `positionableSources`. The code dereferences `find(...)->second` without checking (`Source/ARA/PlaybackRenderer.h:245-253`), so its behaviour for a source missing from the map is not modelled.
  - A processed buffer of width 1 or `numChannels` must cover the region's whole modification range, from a non-negative start, on every channel (`BlockRender.ModifiedBufferCovers`). The code's only check is the `jassert` that `numSamplesToRead` fits in the buffer (`Source/ARA/PlaybackRenderer.h:276`); this is an assumption about whoever produces the buffer. A read past the buffer's end is not modelled.
- Sample-rate units: the modification positions of a region (`getStartInAudioModificationSamples`) are taken as given integers and compared directly with song-time positions, as the code does (`Source/ARA/PlaybackRenderer.h:231-238`). They count at the audio source's own rate, and the stream is resampled by `sampleRate / audioSource->getSampleRate()` (`Source/ARA/PlaybackRenderer.h:167`). The model does not capture what happens when the two rates differ.
- The `realtime` flag of `processBlock` is accepted and ignored, as in the code.
- File path normalisation, `createDirectory`, and the special Documents location. Paths are plain strings with `/` as separator, and the Documents folder is a constructor parameter.
- Audio decoding in `loadURLIntoTransport`. A file loads iff it exists on the modelled disk.
- The transport's `position` is the position last set by the editor: `setPosition (0)` in `startOrStop`, and 0 after `setSource` in `loadURLIntoTransport`, whether or not a source is loaded. Its advance during playback, which happens on the audio thread, is not modelled.
- Editor.MainComponent.StartOrStop: `AudioTransportSource::start` only plays when a source is loaded, so the toggle is stated only for a loaded transport.
- EditorStrings.BackupInsertsSuffix: it requires the target to lie below a named directory, and its name not to start with its only dot. For a hidden name like `.wav`, JUCE reads the dot both as the stem and as the extension, so the backup repeats it.
- The cancel button's `model->cancel()`, the `model == nullptr` branch of the process button (the model is never null), the control component (`ctrlComponent`), and the alert windows. These are foreign calls or UI.
- The jobs left in `customJobs` are cleared without being deleted. Memory is not modelled.
- Layout, painting, the zoom slider's pixel mapping (`Source/Util/TimeToViewScaling.h`), file choosers and audio-device setup. These are UI and I/O.
- The web model interfaces (`Source/DeepLearning/*`) and the ARA document controller. They are declarations only and are not part of this model.
