# obs-gstreamer in Dafny

A model of the logic inside obs-gstreamer. This OBS Studio plugin wires OBS
sources, filters and encoders to GStreamer pipelines that users write as
text. The GStreamer engine stays opaque. Whether a pipeline description
parses, whether an appsink pad is linked, and what an appsink hands back
are all parameters of the model. What gets modelled and proved is the
plugin's own logic:

- **`source.dfy`, module `GstreamerSource`** (`gstreamer-source.c`). This
  is the "GStreamer Source" instance record (`data_t`): the pipeline, the
  restart timer id (`timeout_id`, where 0 means no restart is pending),
  and the video and audio counters. It also covers the pure mapping tables
  from GStreamer caps to OBS formats, colour ranges, colour spaces, speaker
  layouts and audio formats. Each video output is recorded as the sample's
  `GstVideoInfo` and the frame's time stamp; `ObsFrame` is the
  `obs_source_frame` built from them (`FrameOf`). The class `Source` holds the fields. Each of
  its methods is specified by a transition function on the value
  `SourceState`, and the restart rules are lemmas about those functions.
- **`encoder.dfy`, module `GstreamerEncoder`** (`gstreamer-encoder.c`).
  This covers:
  - the output-format `switch`, including its fall-through from RGBA,
    BGRA and BGRX into I444;
  - the keyframe interval;
  - the nested loop that packs the planes of a frame into one buffer
    (`FillBuffer`/`CopyPlane`, proved against the function `Packed`);
  - the PTS arithmetic;
  - rebasing packet times on the first output buffer;
  - the once-only scan for an H.264 Annex B IDR start code that fixes the
    codec extra data (`ScanCodecData`, proved against `FirstIdr`).
- **`filter.dfy`, module `GstreamerFilter`** (`gstreamer-filter.c`). The
  first frame sets the frame size and builds the pipeline. `update` tears
  it down. A sample is copied back into the frame's first plane, in
  place, only when its size equals `frame_size`.
- **`legacy.dfy`, module `LegacySource`** (`gstreamer.c`). This is the
  older standalone source. It lays out planes by hand, uses a smaller
  channel table, and has its own start/stop/update/show/hide rules.
- **`media.dfy`** holds the shared vocabulary:
  - `Opt.Option`, for pointers that may be NULL;
  - `Machine`, the C integer widths (`uint32_t`, `guint64`, `gint`,
    `int64_t`) written out as explicit wrap-around;
  - `Gst` and `Obs`, the enumerations of the two APIs that the plugin
    interprets.

Three behaviours of the code are easy to misread:

- The encoder caches, as codec extra data, the bytes *before* the first
  `00 00 00 01` start code whose NAL header has `nal_unit_type` 5. Type 5
  is an IDR slice, as defined in section 7.4.1, Table 7-1 of ITU-T H.264.
  The cached bytes do not include that start code.
- The encoder's packed RGB formats (RGBA, BGRA, BGRX) have no `break`, so
  they fall through to the I444 case. They get `width * height * 3` bytes
  and the caps name "I444". The filter gives the same formats
  `width * height * 4` bytes.
- Frames without pipeline time stamps are numbered 0, 1, 2, …, with no
  frame duration applied. The encoder's input PTS is
  `pts * (GST_SECOND / (fps_num / fps_den))`, with integer division. This
  truncates non-integer frame rates (see `InputPtsNtscRate`).

## Model

| member | source | states |
|---|---|---|
| GstreamerSource.Defaults | gstreamer-source.c:387-402 | time stamps off, appsinks synced, restart on EOS but not on error, a 2000 ms restart timeout, `stop_on_hide` and `clear_on_end` on |
| GstreamerSource.VideoFormatOf | gstreamer-source.c:150-181 | a sample's format maps to NONE exactly when it is outside the nine formats the appsink accepts; RGBx and RGBA (and only they) both become RGBA |
| GstreamerSource.VideoFormatInjective | gstreamer-source.c:150-181 | apart from RGBx, two GStreamer formats never share an OBS format |
| GstreamerSource.RangeOf | gstreamer-source.c:121-132 | range 0-255 gives full range with `full_range` set, 16-235 gives partial, anything else default; `full_range` is set iff the range is full |
| GstreamerSource.ColorspaceOf | gstreamer-source.c:134-144 | BT709 gives 709 and BT601 gives 601, each iff; anything else default |
| GstreamerSource.SpeakersOf | gstreamer-source.c:215-242 | a layout is known iff the channel count is in {1,2,3,4,5,6,8}, and a known layout carries exactly that many channels |
| GstreamerSource.SpeakersInjective | gstreamer-source.c:215-242 | distinct channel counts never share a known layout |
| GstreamerSource.AudioFormatOf | gstreamer-source.c:244-262 | U8/S16LE/S32LE/F32LE map to 8-bit/16-bit/32-bit/float, each iff; everything else is unknown |
| GstreamerSource.FrameOf | gstreamer-source.c:112-181 | the frame has the given time stamp, the caps' width and height, the first three strides and offsets of the video info, the mapped format, range and colour space, and `full_range` iff the range is 0-255 |
| GstreamerSource.AudioFrames | gstreamer-source.c:205 | the frame count is the number of whole frames of `bpf` bytes in the buffer |
| GstreamerSource.Initial | gstreamer-source.c:352-355 | a fresh record has no pipeline, no pending restart and no output |
| GstreamerSource.StartSpec | gstreamer-source.c:277-348 | a successful start plays a new pipeline with the linked appsinks and sync flags, resets both counters and keeps any pending timer; a failed one clears the video, keeps the counters and leaves a pipeline only if GStreamer returned a partial one |
| GstreamerSource.StopSpec | gstreamer-source.c:363-379 | stop always zeroes the timer id, drops the pipeline, and clears the video only when there was a pipeline; nothing else changes |
| GstreamerSource.StartPipeSpec | gstreamer-source.c:39-49 | the restart callback leaves no restart pending and clears the old pipeline's video, then starts. A successful start is a playing pipeline with fresh appsinks and zero counters; a failed one adds a second clear |
| GstreamerSource.CreateSpec | gstreamer-source.c:350-361 | with `stop_on_hide` nothing starts. Without it a pipeline exists afterwards iff the description parsed or GStreamer returned a partial one |
| GstreamerSource.ShowSpec | gstreamer-source.c:465-469 | show changes nothing while a pipeline exists; otherwise a parsed description plays from zero counters |
| GstreamerSource.HideSpec | gstreamer-source.c:471-475 | hide changes nothing without `stop_on_hide`; with it, it leaves no pipeline and no pending restart |
| GstreamerSource.UpdateSpec | gstreamer-source.c:451-463 | update installs the settings and cancels any restart. Hidden with `stop_on_hide`, no pipeline remains; otherwise a parsed description plays with the new sync flags and zero counters |
| GstreamerSource.BusSpec | gstreamer-source.c:51-91 | EOS rewinds the pipeline with `restart_on_eos`, and otherwise clears the video iff `clear_on_end`. ERROR sets the pipeline to NULL state, clears the video iff `clear_on_end`, and schedules a restart (fresh non-zero id, interval `restart_timeout` as `guint`) iff `restart_on_error` is set and none is pending. WARNING and other messages change nothing. No message touches the counters or the audio |
| GstreamerSource.VideoSampleSpec | gstreamer-source.c:93-189 | one frame is appended: the frame of the sample's video info (`FrameOf`). It is stamped with the PTS when pipeline time stamps are on, and otherwise with the frame count, which then increases by one. Nothing else changes |
| GstreamerSource.AudioSampleSpec | gstreamer-source.c:191-270 | one packet is appended with `size / bpf` frames, the caps rate, and the mapped speakers and format. Its time stamp is the PTS with pipeline time stamps, and otherwise the synthesised stamp from the audio count, which then increases by one. Nothing else changes |
| GstreamerSource.ErrorWhilePendingKeepsTimer | gstreamer-source.c:64-79 | a second ERROR while a restart is pending leaves the timer id and interval unchanged |
| GstreamerSource.EosRewinds | gstreamer-source.c:57-60 | EOS with `restart_on_eos` seeks the same pipeline back to 0 without rebuilding or clearing it |
| GstreamerSource.EosClears | gstreamer-source.c:61-63 | EOS without `restart_on_eos` clears the video exactly when `clear_on_end` is set |
| GstreamerSource.WarningChangesNothing | gstreamer-source.c:80-85 | a WARNING leaves the whole state unchanged |
| GstreamerSource.StopIdempotent | gstreamer-source.c:363-379 | stopping twice equals stopping once |
| GstreamerSource.RestartFiresOnce | gstreamer-source.c:39-49 | after the restart callback no restart is pending. A successful restart is a fresh pipeline with both counters at zero, and the old pipeline's video was cleared |
| GstreamerSource.StopCancelsRestart | gstreamer-source.c:363-368 | a restart scheduled by an ERROR is cancelled by stop, and no later EOS or WARNING brings it back |
| GstreamerSource.ShowHideRules | gstreamer-source.c:465-475 | show starts only without a pipeline; hide stops only with `stop_on_hide` |
| GstreamerSource.UpdateRestarts | gstreamer-source.c:451-463 | update takes the new settings, cancels any restart and stops, then runs a fresh playing pipeline with zero counters unless hidden with `stop_on_hide` |
| GstreamerSource.DefaultBehaviour | gstreamer-source.c:387-402 | with the default settings create does not start, EOS rewinds the pipeline, and an ERROR never schedules a restart |
| GstreamerSource.CreateStartsUnlessStopOnHide | gstreamer-source.c:357-358 | create starts the pipeline exactly when `stop_on_hide` is off |
| GstreamerSource.FeedVideo | gstreamer-source.c:93-189 | a run of samples appends one video frame per sample after the earlier output, and keeps the settings |
| GstreamerSource.FeedVideoKeeps | gstreamer-source.c:93-189 | over a run of samples only the video and the frame count change, and the k-th new frame is built from the k-th sample's video info |
| GstreamerSource.SyntheticVideoTimestamps | gstreamer-source.c:107-110 | without pipeline time stamps, the frames of a run are numbered on from the frame count, in arrival order, each from its own sample's video info; earlier output is kept and the count grows by the run's length |
| GstreamerSource.TimestampsAfterStart | gstreamer-source.c:340-341 | after a successful start, frames without pipeline time stamps are stamped 0, 1, 2, …, each from its own sample's video info |
| GstreamerSource.Source.constructor | gstreamer-source.c:350-361 | a new instance is created, started unless `stop_on_hide` is set |
| GstreamerSource.Source.Start | gstreamer-source.c:277-348 | the new state is `StartSpec` of the old |
| GstreamerSource.Source.Stop | gstreamer-source.c:363-379 | the new state is `StopSpec` of the old |
| GstreamerSource.Source.StartPipe | gstreamer-source.c:39-49 | zeroes the timer id, stops, starts, and returns false so the timer fires once |
| GstreamerSource.Source.BusCallback | gstreamer-source.c:51-91 | the new state is `BusSpec` of the old, and the watch is kept (true) |
| GstreamerSource.Source.Show | gstreamer-source.c:465-469 | the new state is `ShowSpec` of the old |
| GstreamerSource.Source.Hide | gstreamer-source.c:471-475 | the new state is `HideSpec` of the old |
| GstreamerSource.Source.Update | gstreamer-source.c:451-463 | the new state is `UpdateSpec` of the old |
| GstreamerSource.Source.VideoNewSample | gstreamer-source.c:93-189 | the new state is `VideoSampleSpec` of the old |
| GstreamerSource.Source.AudioNewSample | gstreamer-source.c:191-270 | the new state is `AudioSampleSpec` of the old |
| GstreamerEncoder.Defaults | gstreamer-encoder.c:250-256 | x264, 2500 kbit/s, CBR, a 2-second keyframe interval |
| GstreamerEncoder.ArmSize | gstreamer-encoder.c:57-104 | a case's buffer size fits in `uint32_t` and equals `width * height * factor / divisor` whenever that product does not wrap |
| GstreamerEncoder.RunArms | gstreamer-encoder.c:54-108 | running the cases from a given one yields a named format; a case with `break` yields its own format and size |
| GstreamerEncoder.RawCapsFor | gstreamer-encoder.c:54-108 | the caps format is empty iff no case is labelled with the output format, and then the buffer size is 0 |
| GstreamerEncoder.CaseIndex | gstreamer-encoder.c:54-108 | the switch jumps to the first case labelled with the format, or to `default` when there is none |
| GstreamerEncoder.RawCapsPlanar420 | gstreamer-encoder.c:55-64 | I420 and NV12 announce their own names and a buffer of w·h·3/2 bytes, when w·h·3 fits in `uint32_t` |
| GstreamerEncoder.RawCapsPacked422 | gstreamer-encoder.c:65-79 | YVYU, YUY2 and UYVY announce their own names and a buffer of w·h·2 bytes, when w·h·2 fits in `uint32_t` |
| GstreamerEncoder.RawCapsI444 | gstreamer-encoder.c:87-103 | RGBA, BGRA, BGRX and I444 all announce "I444" and a buffer of w·h·3 bytes, when w·h·3 fits in `uint32_t` |
| GstreamerEncoder.RawCapsDefault | gstreamer-encoder.c:104-107 | every other format announces "" and a zero-size buffer |
| GstreamerEncoder.PackedRgbFallsThrough | gstreamer-encoder.c:87-103 | the packed RGB formats end up with exactly the caps of I444 |
| GstreamerEncoder.TruncDiv | gstreamer-encoder.c:118-119 | `long long` division truncates toward zero: the quotient brackets the dividend from the side of zero |
| GstreamerEncoder.KeyInt | gstreamer-encoder.c:118-119 | the keyframe interval is `keyint_sec * fps_num / fps_den`, truncated toward zero |
| GstreamerEncoder.StageFor | gstreamer-encoder.c:110-126 | an encoder element is chosen iff `encoder_type` is "x264" or "nvh264enc" |
| GstreamerEncoder.SameKeyframeInterval | gstreamer-encoder.c:114-126 | x264 `key-int-max` and NVENC `gop-size` get the same interval |
| GstreamerEncoder.PlaneCount | gstreamer-encoder.c:183 | the planes copied are exactly those before the first zero line size |
| GstreamerEncoder.PackedFrom | gstreamer-encoder.c:182-190 | the kept bytes of the planes from `j` on fill the buffer from where plane `j` starts, cut at the buffer's end, to where the copied planes end |
| GstreamerEncoder.Packed | gstreamer-encoder.c:182-190 | the buffer's contents are as long as the sum of `linesize[j] * height` over the copied planes, cut at `buffer_size` |
| GstreamerEncoder.PackedFromAt | gstreamer-encoder.c:182-190 | byte `p` of plane `j` lands at plane `j`'s start plus `p`, for every byte that lands inside the buffer |
| GstreamerEncoder.PackedRowAt | gstreamer-encoder.c:185-188 | row `i` of plane `j` lands at Σ_{k<j} linesize[k]·h + i·linesize[j], for every byte that lands inside the buffer |
| GstreamerEncoder.Fill | gstreamer-encoder.c:185-187 | `gst_buffer_fill` copies `n` source bytes to the offset, clipped at the end of the buffer, reading only the bytes it keeps, and changes nothing else |
| GstreamerEncoder.CopyPlane | gstreamer-encoder.c:184-189 | the inner loop writes plane `j`'s rows at their packed positions up to the buffer's end, advances the offset by `linesize[j] * height` and changes nothing outside that range |
| GstreamerEncoder.FillBuffer | gstreamer-encoder.c:179-190 | the buffer of `buffer_size` bytes holds the packed frame, up to the buffer's end. A plane needs only the rows that land inside the buffer |
| GstreamerEncoder.Nv12Packed | gstreamer-encoder.c:179-190 | for an OBS NV12 frame with even height, where the chroma plane has `height / 2` rows and follows luma in one allocation, the copy reads only bytes that exist. The `w·h·3/2` buffer is exactly luma then chroma |
| GstreamerEncoder.I420Packed | gstreamer-encoder.c:179-190 | for an OBS I420 frame with even sizes, plane 1's `height` rows run from U on into V, and plane 2 falls past the buffer. The `w·h·3/2` buffer is exactly Y, U, V |
| GstreamerEncoder.InputPts | gstreamer-encoder.c:192 | the input PTS is `pts * (GST_SECOND / (fps_num / fps_den))` with integer division, exact when it fits in 64 bits |
| GstreamerEncoder.InputPtsAt30Fps | gstreamer-encoder.c:192 | at 30 fps frame `n` is stamped `n * 33333333` ns |
| GstreamerEncoder.InputPtsNtscRate | gstreamer-encoder.c:192 | at 30000/1001 fps the integer frame rate is 29, so frame 29970 is not stamped 1001 s |
| GstreamerEncoder.NextOffset | gstreamer-encoder.c:205-206 | the offset is taken from an output buffer only while it is still `GST_CLOCK_TIME_NONE` |
| GstreamerEncoder.Rebased | gstreamer-encoder.c:233-234 | `(int64_t)t - (int64_t)offset` is `t - offset` whenever `offset <= t < 2^63` |
| GstreamerEncoder.FirstIdr | gstreamer-encoder.c:216-224 | the scan result is the first index holding `00 00 00 01` plus an IDR NAL header, or the buffer length when there is none |
| GstreamerEncoder.FirstIdrUnique | gstreamer-encoder.c:216-224 | an index with those two properties is the scan result |
| GstreamerEncoder.ScanCodecData | gstreamer-encoder.c:213-224 | the loop stops at the first IDR start code (bytes past the end never match) and so computes `FirstIdr` |
| GstreamerEncoder.NextCodecData | gstreamer-encoder.c:212-228 | once set, the codec data never changes; otherwise it becomes the prefix before the first IDR start code, left unset when that prefix is empty |
| GstreamerEncoder.CodecDataBeforeIdr | gstreamer-encoder.c:212-228 | with the first IDR start code at `k > 0`, the codec data is exactly the `k` bytes before it |
| GstreamerEncoder.CodecDataWithoutIdr | gstreamer-encoder.c:216-227 | without an IDR start code the whole buffer becomes the codec data |
| GstreamerEncoder.PacketOf | gstreamer-encoder.c:230-242 | the packet holds the sample's bytes and size, time base 10^9/1, keyframe iff not DELTA_UNIT, and pts/dts rebased on the offset |
| GstreamerEncoder.CreatedState | gstreamer-encoder.c:145-150 | a created encoder is playing, has the switch's caps, no offset (`GST_CLOCK_TIME_NONE`) and no codec data |
| GstreamerEncoder.EncodeSpec | gstreamer-encoder.c:173-248 | every call pushes one buffer of `buffer_size` bytes with the input PTS; only a pulled sample updates the offset and the codec data |
| GstreamerEncoder.EncodeRun | gstreamer-encoder.c:173-248 | a run of encode calls pushes one buffer per call, in order, each of `buffer_size` bytes with that call's input PTS. It keeps the settings, output info, caps and pipeline |
| GstreamerEncoder.SetOnce | gstreamer-encoder.c:205-228 | once set, the offset and the codec data survive any further encode calls |
| GstreamerEncoder.FirstPacketAtZero | gstreamer-encoder.c:205-233 | the first packet of an instance has PTS 0 |
| GstreamerEncoder.Encoder.constructor | gstreamer-encoder.c:43-153 | the fields are those of `CreatedState` |
| GstreamerEncoder.Encoder.Create | gstreamer-encoder.c:133-152 | create returns an instance iff the pipeline parses |
| GstreamerEncoder.Encoder.Encode | gstreamer-encoder.c:173-248 | always returns true. `received_packet` is set iff a sample was pulled, and is otherwise left as the caller had it. The packet is `PacketOf` the sample. The pushed buffer holds the packed frame, for any frame whose planes hold the rows that land inside the buffer. The new state is `EncodeSpec` of the old |
| GstreamerEncoder.Encoder.GetExtraData | gstreamer-encoder.c:310-323 | returns false until the codec data is set, then its bytes and size |
| GstreamerEncoder.Encoder.Update | gstreamer-encoder.c:325-328 | accepts any settings |
| GstreamerEncoder.Encoder.Destroy | gstreamer-encoder.c:155-171 | releases the pipeline and changes nothing else |
| GstreamerFilter.SizeOf | gstreamer-filter.c:146-180 | a frame size, computed in `uint32_t` and stored in a `gint`, lies in the `gint` range (exact values: `SizeNoWrap`) |
| GstreamerFilter.CapsFor | gstreamer-filter.c:144-184 | a frame size and caps name exist iff the format is one of the eight the filter supports, and the newer source reads each caps name back as the same OBS format |
| GstreamerFilter.SizeNoWrap | gstreamer-filter.c:146-180 | the `uint32_t` size `width * height * factor / divisor`, stored in a `gint`, is exact whenever `width * height * factor` is below 2^31 |
| GstreamerFilter.FrameSizeTable | gstreamer-filter.c:146-180 | I420/NV12 get w·h·3/2, YVYU/YUY2/UYVY get w·h·2, RGBA/BGRA/BGRX get w·h·4, and BGRX is named "BGRx" |
| GstreamerFilter.Created | gstreamer-filter.c:63-71 | a new filter has no pipeline and a zero frame size |
| GstreamerFilter.BuildSpec | gstreamer-filter.c:140-214 | the build takes the frame size from the frame, or keeps it for an unsupported format (caps name ""); it yields a playing pipeline iff the description parses |
| GstreamerFilter.FilterVideoSpec | gstreamer-filter.c:137-226 | an existing pipeline and frame size are kept; the frame is pushed with its own timestamp as PTS unless the build failed, in which case nothing is pushed and no pipeline remains |
| GstreamerFilter.UpdateSpec | gstreamer-filter.c:119-134 | update leaves no pipeline, appsrc or appsink; without a pipeline nothing but the settings changes |
| GstreamerFilter.FixedUntilUpdate | gstreamer-filter.c:142-214 | while a pipeline exists, any run of frames keeps it and the frame size, pushing one buffer per frame |
| GstreamerFilter.UpdateThenFrame | gstreamer-filter.c:119-180 | after an update, the next supported frame sets the frame size again |
| GstreamerFilter.ParseFailureLeavesFrame | gstreamer-filter.c:194-202 | a parse failure leaves no pipeline, pushes nothing and never copies back |
| GstreamerFilter.UpdateIdempotent | gstreamer-filter.c:119-134 | updating twice equals updating once |
| GstreamerFilter.Filter.constructor | gstreamer-filter.c:63-71 | the fields are those of `Created` |
| GstreamerFilter.Filter.FilterVideo | gstreamer-filter.c:137-239 | the new state is `FilterVideoSpec` of the old; the frame's bytes are overwritten by the sample iff a sample of exactly `frame_size` bytes was pulled, and are otherwise untouched |
| GstreamerFilter.Filter.Update | gstreamer-filter.c:119-134 | the new state is `UpdateSpec` of the old |
| GstreamerFilter.Filter.Destroy | gstreamer-filter.c:73-85 | handles are released iff there is a pipeline; otherwise nothing changes |
| LegacySource.Defaults | gstreamer.c:238-244 | pipeline time stamps are off by default |
| LegacySource.PlaneLayout | gstreamer.c:61-101 | there are eight planes and plane 0 starts at the buffer. The format is NONE iff the caps format is not one of the seven laid out. Only I420 and NV12 have more than one plane |
| LegacySource.LayoutTable | gstreamer.c:61-101 | line sizes and offsets per format: I420 [w, w/2, w/2] at [0, w·h, w·h + w·h/4]; NV12 [w, w] at [0, w·h]; BGRA (reported as BGRX) and RGBA 4·w; UYVY, YUY2 and YVYU 2·w; anything else NONE with no line sizes. Unused entries stay zero |
| LegacySource.I420PlanesTile | gstreamer.c:63-70 | with line sizes w, w/2, w/2 and offsets w·h and w·h + w·h/4, the three I420 planes tile a w·h·3/2 buffer for even sizes |
| LegacySource.NV12PlanesTile | gstreamer.c:71-76 | with line sizes w, w and offset w·h, the NV12 planes tile a w·h·3/2 buffer for even heights |
| LegacySource.AgreesWithSourceExceptBGRA | gstreamer.c:77-80 | the legacy format mapping equals the newer source's, except that BGRA is reported as BGRX |
| LegacySource.SpeakersOf | gstreamer.c:135-151 | a layout is known iff the channel count is 1, 2, 6 or 8, and it carries that many channels |
| LegacySource.SpeakersNarrowerThanSource | gstreamer.c:135-151 | every known legacy layout matches the newer source's; 3, 4 and 5 channels are unknown here only |
| LegacySource.AudioFrames | gstreamer.c:129 | `size / channels / 2` is the number of whole 16-bit frames, `size / (2 * channels)`, when it fits in `uint32_t` |
| LegacySource.Created | gstreamer.c:210-218 | create starts nothing |
| LegacySource.StartSpec | gstreamer.c:166-208 | the parse result always replaces the pipeline, and a pipeline already there is orphaned; success plays and resets the frame count; failure keeps the count and whatever GStreamer returned |
| LegacySource.StopSpec | gstreamer.c:220-230 | stop leaves no pipeline and changes nothing else |
| LegacySource.UpdateSpec | gstreamer.c:257-266 | update installs the settings; without a pipeline nothing else changes. Otherwise a parsed description plays the new pipeline from frame 0, and a failed one keeps the count |
| LegacySource.ShowSpec | gstreamer.c:268-271 | show always starts, orphaning a running pipeline; a parsed description plays from frame 0 |
| LegacySource.HideSpec | gstreamer.c:273-276 | hide drops the pipeline and changes nothing else |
| LegacySource.VideoSampleSpec | gstreamer.c:35-109 | one frame with the sample's layout is appended, stamped with the PTS, or with the frame count, which is then post-incremented |
| LegacySource.AudioSampleSpec | gstreamer.c:111-159 | one 16-bit packet is appended with the caps rate, the legacy speakers, `size / (2 * channels)` frames, and the PTS or 0 as time stamp |
| LegacySource.StopIdempotent | gstreamer.c:220-230 | stopping twice equals stopping once, and stopping without a pipeline changes nothing |
| LegacySource.UpdateRules | gstreamer.c:257-266 | update does nothing without a pipeline; otherwise it stops and then starts, so a successful restart plays from frame 0 and orphans nothing |
| LegacySource.ShowWhileRunningOrphans | gstreamer.c:268-276 | show while a pipeline runs orphans that pipeline; a hide first avoids it |
| LegacySource.FailedStartKeepsCount | gstreamer.c:176-183 | a failed start keeps the frame count |
| LegacySource.FeedVideo | gstreamer.c:35-109 | a run of samples appends one frame per sample, with that sample's width and height, after the earlier output; only the video and the frame count change |
| LegacySource.SyntheticTimestamps | gstreamer.c:56 | without pipeline time stamps, frames are numbered on from the frame count |
| LegacySource.TimestampsAfterStart | gstreamer.c:205 | after a successful start, frames without pipeline time stamps are stamped 0, 1, 2, … |
| LegacySource.Legacy.constructor | gstreamer.c:210-218 | the fields are those of `Created` |
| LegacySource.Legacy.Start | gstreamer.c:166-208 | the new state is `StartSpec` of the old |
| LegacySource.Legacy.Stop | gstreamer.c:220-236 | the new state is `StopSpec` of the old |
| LegacySource.Legacy.Update | gstreamer.c:257-266 | the new state is `UpdateSpec` of the old |
| LegacySource.Legacy.Show | gstreamer.c:268-271 | the new state is `StartSpec` of the old |
| LegacySource.Legacy.Hide | gstreamer.c:273-276 | the new state is `StopSpec` of the old |
| LegacySource.Legacy.VideoNewSample | gstreamer.c:35-109 | the new state is `VideoSampleSpec` of the old |
| LegacySource.Legacy.AudioNewSample | gstreamer.c:111-159 | the new state is `AudioSampleSpec` of the old |

## Left out

- The GStreamer engine is not modelled. Pipeline parsing, element states,
  seeking, appsrc/appsink, bus watches and pad-link checks are all opaque.
  The outcome of a parse (`Gst.Launch`, including a partial pipeline), the
  linked flags of the `video`/`audio` pads, and pulled samples are
  parameters. The pipeline itself is a small value recording its state,
  its configured appsinks, and the seeks issued on it.
- Threads and real time are not modelled. The appsink callbacks run on
  streaming threads, and the restart timer fires from the GLib main loop.
  The model is sequential. A pending restart is only the `timeout_id`
  field plus the interval it was scheduled with, and the id
  `g_timeout_add` returns is a non-zero parameter.
- GstreamerSource.AudioSampleSpec: the synthesised audio time stamp
  `audio_count++ * GST_SECOND * (frames / (double)rate)` is floating
  point. It is recorded by its inputs (count, frames, rate) and not
  evaluated.
- `video_format_get_parameters` is an OBS call that fills colour
  matrices. Only its inputs (colour space, range) are recorded.
- Logging (`blog`), the properties UI, `on_apply_clicked`,
  `check_feature`, the name callbacks and `obs_module_load` are left out.
  They are host glue with no state. `gstreamer-output.c` and `test/main.c`
  are not part of this model.
- Pipeline descriptions built with `g_strdup_printf` are reduced to the
  parts the plugin computes. These are the caps format and size, the
  encoder element and its bitrate and keyframe interval, and the user
  description text.
- Settings are one `obs_data_t` that the host edits in place and that
  every instance reads through a pointer. `update` is modelled as
  receiving the already-edited settings.
- GstreamerSource.Source.VideoNewSample, LegacySource.Legacy.VideoNewSample:
  the `gint64 frame_count` and `audio_count` are unbounded here. Their
  64-bit overflow, after 2^63 frames, is not modelled.
- LegacySource.PlaneLayout: `width * height` and `width * 4` are `gint`
  products. Their signed overflow is undefined in C and is not modelled.
  Widths and heights are taken as non-negative, as GStreamer caps give
  them.
- LegacySource.AudioSampleSpec: the channel count from the caps is at
  least 1. The C code would divide by zero otherwise.
- GstreamerEncoder.ScanCodecData: the loop reads `data[size + 4]` while it
  only checks `size < info.size`. Bytes past the end of the buffer are
  taken to never match, so the scan never reads outside the buffer.
- GstreamerEncoder.PlaneCount: the plane loop in C stops only at a zero
  line size. Here the end of the eight-entry `linesize` array also stops
  it.
- GstreamerEncoder.ValidFrame: each plane's `data` is modelled as the bytes
  readable from its pointer. OBS's single allocation, where later planes
  follow earlier ones, appears only through the frames that `Nv12Packed`
  and `I420Packed` build. The bytes past the packed frame in the new buffer
  are left unstated, as `gst_buffer_new_allocate` leaves them.
- GstreamerEncoder.FillBuffer: the running `gint32 offset` is unbounded
  here. Frames larger than 2^31 bytes are not modelled.
- GstreamerFilter.Filter.FilterVideo: the frame's first plane must hold at
  least `frame_size` bytes, and `frame_size` must not be negative. The
  wrapped input buffer and the copy-back both assume this. The filter's
  bus watch only logs and is left out.
- The encoder's `create` reads `obs_get_video_info`. The result is passed
  in as `OutputInfo`, and its frame rate must have a non-zero
  denominator. The PTS arithmetic also needs a non-zero integer frame
  rate, as the C code does.
