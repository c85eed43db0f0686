/**
 * The "GStreamer Source" of gstreamer-source.c: a user pipeline whose `video`
 * and `audio` branches feed two appsinks, whose samples are translated into
 * OBS frames and audio packets, and whose errors and end-of-stream drive a
 * restart policy.
 *
 * The pure part maps GStreamer formats, colorimetry and channel counts to
 * their OBS counterparts. The imperative part is the per-instance record
 * (`data_t`) with the fields `pipe`, `frame_count`, `audio_count` and
 * `timeout_id`, modelled as the class `Source`; each of its methods is
 * specified by a transition function on the value `SourceState`, and the
 * restart rules are proved as lemmas about those functions.
 */
module GstreamerSource {
  import opened Opt
  import Machine
  import Gst
  import Obs

  // ---------------------------------------------------------------------
  // Settings
  // ---------------------------------------------------------------------

  /** The keys of the source's `obs_data_t` settings. */
  datatype Settings = Settings(
    pipeline: string,
    useTimestampsVideo: bool,
    useTimestampsAudio: bool,
    syncAppsinkVideo: bool,
    syncAppsinkAudio: bool,
    restartOnEos: bool,
    restartOnError: bool,
    restartTimeout: int,
    stopOnHide: bool,
    clearOnEnd: bool)

  /** `gstreamer_source_get_defaults`. */
  function Defaults(): (d: Settings)
    ensures !d.useTimestampsVideo && !d.useTimestampsAudio && d.syncAppsinkVideo && d.syncAppsinkAudio
    ensures d.restartOnEos && !d.restartOnError && d.restartTimeout == 2000
    ensures d.stopOnHide && d.clearOnEnd
  {
    Settings(
      pipeline := "videotestsrc is-live=true ! video/x-raw, framerate=30/1, width=960, height=540 ! video. "
        + "audiotestsrc wave=ticks is-live=true ! audio/x-raw, channels=2, rate=44100 ! audio.",
      useTimestampsVideo := false,
      useTimestampsAudio := false,
      syncAppsinkVideo := true,
      syncAppsinkAudio := true,
      restartOnEos := true,
      restartOnError := false,
      restartTimeout := 2000,
      stopOnHide := true,
      clearOnEnd := true)
  }

  // ---------------------------------------------------------------------
  // Format translation (video_new_sample, audio_new_sample)
  // ---------------------------------------------------------------------

  /** The raw video formats the source's video appsink accepts. */
  const VideoCapsFormats: set<Gst.VideoFormat> :=
    {Gst.I420, Gst.NV12, Gst.BGRA, Gst.BGRx, Gst.RGBx, Gst.RGBA, Gst.YUY2, Gst.YVYU, Gst.UYVY}

  /** The OBS format a sample's GStreamer format is delivered as. */
  function VideoFormatOf(f: Gst.VideoFormat): (r: Obs.VideoFormat)
    ensures r == Obs.FormatNone <==> f !in VideoCapsFormats
    ensures r == Obs.RGBA <==> f == Gst.RGBA || f == Gst.RGBx
  {
    match f
    case I420 => Obs.I420
    case NV12 => Obs.NV12
    case BGRA => Obs.BGRA
    case BGRx => Obs.BGRX
    case RGBx => Obs.RGBA
    case RGBA => Obs.RGBA
    case UYVY => Obs.UYVY
    case YUY2 => Obs.YUY2
    case YVYU => Obs.YVYU
    case _ => Obs.FormatNone
  }

  /** Apart from RGBx, which OBS receives as RGBA, no two formats share an OBS format. */
  lemma VideoFormatInjective(f: Gst.VideoFormat, g: Gst.VideoFormat)
    requires VideoFormatOf(f) == VideoFormatOf(g) != Obs.FormatNone
    requires f != Gst.RGBx && g != Gst.RGBx
    ensures f == g
  {
  }

  /** The OBS range and `full_range` flag for a sample's colour range. */
  function RangeOf(r: Gst.ColorRange): (res: (Obs.VideoRange, bool))
    ensures res.1 <==> res.0 == Obs.RangeFull
    ensures res.0 == Obs.RangeFull <==> r == Gst.Range0To255
    ensures res.0 == Obs.RangePartial <==> r == Gst.Range16To235
  {
    match r
    case Range0To255 => (Obs.RangeFull, true)
    case Range16To235 => (Obs.RangePartial, false)
    case RangeUnknown => (Obs.RangeDefault, false)
  }

  /** The OBS colour space for a sample's colour matrix. */
  function ColorspaceOf(m: Gst.ColorMatrix): (cs: Obs.Colorspace)
    ensures cs == Obs.Cs709 <==> m == Gst.MatrixBT709
    ensures cs == Obs.Cs601 <==> m == Gst.MatrixBT601
  {
    match m
    case MatrixBT709 => Obs.Cs709
    case MatrixBT601 => Obs.Cs601
    case MatrixOther => Obs.CsDefault
  }

  /** The channel counts the source's audio appsink accepts. */
  const AudioCapsChannels: set<int> := {1, 2, 3, 4, 5, 6, 8}

  /** The OBS speaker layout for a sample's channel count. */
  function SpeakersOf(channels: int): (s: Obs.Speakers)
    ensures s != Obs.SpeakersUnknown <==> channels in AudioCapsChannels
    ensures s != Obs.SpeakersUnknown ==> Obs.ChannelCount(s) == channels
  {
    match channels
    case 1 => Obs.Mono
    case 2 => Obs.Stereo
    case 3 => Obs.TwoPointOne
    case 4 => Obs.FourPointZero
    case 5 => Obs.FourPointOne
    case 6 => Obs.FivePointOne
    case 8 => Obs.SevenPointOne
    case _ => Obs.SpeakersUnknown
  }

  /** The speaker mapping is injective on the channel counts it knows. */
  lemma SpeakersInjective(a: int, b: int)
    requires SpeakersOf(a) == SpeakersOf(b) != Obs.SpeakersUnknown
    ensures a == b
  {
    assert Obs.ChannelCount(SpeakersOf(a)) == a;
  }

  /** The OBS sample format for a sample's GStreamer audio format. */
  function AudioFormatOf(f: Gst.AudioFormat): (r: Obs.AudioFormat)
    ensures r == Obs.AudioUnknown <==> f == Gst.OtherAudio
    ensures r == Obs.U8Bit <==> f == Gst.U8
    ensures r == Obs.Bit16 <==> f == Gst.S16LE
    ensures r == Obs.Bit32 <==> f == Gst.S32LE
    ensures r == Obs.Float <==> f == Gst.F32LE
  {
    match f
    case U8 => Obs.U8Bit
    case S16LE => Obs.Bit16
    case S32LE => Obs.Bit32
    case F32LE => Obs.Float
    case OtherAudio => Obs.AudioUnknown
  }

  /** A per-plane array of a `GstVideoInfo` (`GST_VIDEO_MAX_PLANES` entries). */
  type PlaneArray = a: seq<int> | |a| == 4 witness [0, 0, 0, 0]

  /** What `gst_video_info_from_caps` reports about a video sample. */
  datatype VideoInfo = VideoInfo(
    width: int,
    height: int,
    stride: PlaneArray,
    offset: PlaneArray,
    range: Gst.ColorRange,
    matrix: Gst.ColorMatrix,
    format: Gst.VideoFormat)

  /**
   * An `obs_source_frame` as the source fills it. `range` and `colorspace`
   * are the arguments handed to `video_format_get_parameters`.
   */
  datatype Frame = Frame(
    timestamp: nat,
    width: int,
    height: int,
    linesize: seq<int>,
    dataOffset: seq<int>,
    fullRange: bool,
    range: Obs.VideoRange,
    colorspace: Obs.Colorspace,
    format: Obs.VideoFormat)

  /** The frame `video_new_sample` outputs for a sample, given its timestamp. */
  function FrameOf(info: VideoInfo, timestamp: nat): (fr: Frame)
    ensures fr.timestamp == timestamp && fr.width == info.width && fr.height == info.height
    ensures fr.linesize == info.stride[..3] && fr.dataOffset == info.offset[..3]
    ensures fr.format == VideoFormatOf(info.format)
    ensures (fr.range, fr.fullRange) == RangeOf(info.range)
    ensures fr.fullRange <==> info.range == Gst.Range0To255
    ensures fr.colorspace == ColorspaceOf(info.matrix)
  {
    Frame(
      timestamp := timestamp,
      width := info.width,
      height := info.height,
      linesize := info.stride[..3],
      dataOffset := info.offset[..3],
      fullRange := RangeOf(info.range).1,
      range := RangeOf(info.range).0,
      colorspace := ColorspaceOf(info.matrix),
      format := VideoFormatOf(info.format))
  }

  /** What `gst_audio_info_from_caps` reports about an audio sample. */
  datatype AudioInfo = AudioInfo(channels: int, rate: int, bpf: nat, format: Gst.AudioFormat)

  /**
   * The audio timestamp: the buffer's PTS, or the synthesised
   * `audio_count * GST_SECOND * (frames / rate)` given by its inputs (that
   * product is computed in floating point and is not evaluated here).
   */
  datatype AudioTimestamp = PipelineTime(pts: nat) | Synthesized(index: nat, frames: nat, rate: int)

  /** An `obs_source_audio` as the source fills it. */
  datatype AudioPacket = AudioPacket(
    frames: nat,
    samplesPerSec: int,
    timestamp: AudioTimestamp,
    speakers: Obs.Speakers,
    format: Obs.AudioFormat)

  /** The number of whole audio frames in a buffer of `size` bytes, as a `uint32_t`. */
  function AudioFrames(size: nat, bpf: nat): (frames: nat)
    requires bpf > 0
    ensures size < Machine.TWO_32 ==> frames * bpf <= size < (frames + 1) * bpf
  {
    Machine.U32(size / bpf)
  }

  // ---------------------------------------------------------------------
  // Instance state and its transitions
  // ---------------------------------------------------------------------

  /** Which appsinks `start` left in the pipeline, and whether they sync to the clock. */
  datatype Branches =
    | Unconfigured
    | Configured(videoSink: bool, audioSink: bool, videoSync: bool, audioSync: bool)

  /**
   * The opaque GStreamer pipeline: its state, its branches, and how many
   * flushing seeks to time 0 were issued on it.
   */
  datatype Pipeline = Pipeline(state: Gst.State, branches: Branches, rewinds: nat)

  /**
   * What the source hands to `obs_source_output_video`: NULL, or the frame
   * of a sample, recorded as the sample's video info and the frame's time
   * stamp. `ObsFrame` is the `obs_source_frame` OBS receives.
   */
  datatype VideoOutput = Cleared | Video(info: VideoInfo, timestamp: nat)
  {
    function ObsFrame(): Frame
      requires Video?
    {
      FrameOf(info, timestamp)
    }
  }

  /**
   * The value of one source instance: its settings, the `data_t` fields, the
   * interval of the pending restart timer, and everything it has output.
   */
  datatype SourceState = SourceState(
    settings: Settings,
    pipe: Option<Pipeline>,
    frameCount: nat,
    audioCount: nat,
    timeoutId: nat,
    timeoutInterval: nat,
    video: seq<VideoOutput>,
    audio: seq<AudioPacket>)

  /** A zero-filled record (`g_new0`) holding `settings`. */
  function Initial(settings: Settings): (s: SourceState)
    ensures s.pipe.None? && s.timeoutId == 0 && s.video == [] && s.audio == []
  {
    SourceState(settings, None, 0, 0, 0, 0, [], [])
  }

  /** `start`: build the pipeline, configure its appsinks, reset the counters and play. */
  function StartSpec(s: SourceState, launch: Gst.Launch, videoLinked: bool, audioLinked: bool): (t: SourceState)
    ensures t.settings == s.settings && t.timeoutId == s.timeoutId && t.audio == s.audio
    ensures launch.Launched? ==>
              && t.pipe == Some(Pipeline(Gst.Playing,
                                         Configured(videoLinked, audioLinked,
                                                    s.settings.syncAppsinkVideo, s.settings.syncAppsinkAudio),
                                         0))
              && t.frameCount == 0 && t.audioCount == 0 && t.video == s.video
    ensures launch.LaunchFailed? ==>
              && t.pipe.Some? == launch.partial
              && t.frameCount == s.frameCount && t.audioCount == s.audioCount
              && t.video == s.video + [Cleared]
  {
    match launch
    case LaunchFailed(partial) =>
      s.(pipe := if partial then Some(Pipeline(Gst.Null, Unconfigured, 0)) else None,
         video := s.video + [Cleared])
    case Launched =>
      var branches := Configured(videoLinked, audioLinked,
                                 s.settings.syncAppsinkVideo, s.settings.syncAppsinkAudio);
      s.(pipe := Some(Pipeline(Gst.Playing, branches, 0)), frameCount := 0, audioCount := 0)
  }

  /** `stop`: cancel a pending restart, then release the pipeline, if any, and clear the video. */
  function StopSpec(s: SourceState): (t: SourceState)
    ensures t.timeoutId == 0 && t.pipe.None?
    ensures t.video == if s.pipe.Some? then s.video + [Cleared] else s.video
    ensures t == s.(timeoutId := 0, pipe := None, video := t.video)
  {
    var cancelled := s.(timeoutId := 0);
    if cancelled.pipe.None? then cancelled
    else cancelled.(pipe := None, video := cancelled.video + [Cleared])
  }

  /** A pipeline after `gst_element_set_state`; setting the state of NULL does nothing. */
  function WithState(pipe: Option<Pipeline>, state: Gst.State): Option<Pipeline>
  {
    if pipe.Some? then Some(pipe.value.(state := state)) else None
  }

  /** A pipeline after `gst_element_seek_simple` to time 0. */
  function Rewound(pipe: Option<Pipeline>): Option<Pipeline>
  {
    if pipe.Some? then Some(pipe.value.(rewinds := pipe.value.rewinds + 1)) else None
  }

  /**
   * `bus_callback`. `freshId` is the (non-zero) id `g_timeout_add` would
   * return if a restart is scheduled.
   */
  function BusSpec(s: SourceState, msg: Gst.Message, freshId: nat): (t: SourceState)
    requires freshId > 0
    ensures t.settings == s.settings && t.frameCount == s.frameCount && t.audio == s.audio
    ensures !msg.Error? ==> t.timeoutId == s.timeoutId
    ensures t.audioCount == s.audioCount
    ensures msg.Error? ==>
              && t.pipe == WithState(s.pipe, Gst.Null)
              && t.video == (if s.settings.clearOnEnd then s.video + [Cleared] else s.video)
              && (t.timeoutId != s.timeoutId <==> s.settings.restartOnError && s.timeoutId == 0)
              && (t.timeoutId != s.timeoutId ==> t.timeoutId == freshId)
    ensures t.timeoutId != s.timeoutId ==> t.timeoutInterval == Machine.U32(s.settings.restartTimeout)
    ensures t.timeoutId == s.timeoutId ==> t.timeoutInterval == s.timeoutInterval
    ensures msg.Eos? && s.settings.restartOnEos ==> t.pipe == Rewound(s.pipe) && t.video == s.video
    ensures msg.Eos? && !s.settings.restartOnEos ==>
              && t.pipe == s.pipe
              && t.video == (if s.settings.clearOnEnd then s.video + [Cleared] else s.video)
    ensures msg.Warning? || msg.OtherMessage? ==> t == s
  {
    match msg
    case Eos =>
      if s.settings.restartOnEos then s.(pipe := Rewound(s.pipe))
      else if s.settings.clearOnEnd then s.(video := s.video + [Cleared])
      else s
    case Error(_) =>
      var halted := s.(pipe := WithState(s.pipe, Gst.Null));
      var cleared := if s.settings.clearOnEnd then halted.(video := halted.video + [Cleared]) else halted;
      if s.settings.restartOnError && s.timeoutId == 0 then
        cleared.(timeoutId := freshId, timeoutInterval := Machine.U32(s.settings.restartTimeout))
      else cleared
    case Warning(_) => s
    case OtherMessage => s
  }

  /** `start_pipe`, the restart timer's callback: forget the timer, stop, start. */
  function StartPipeSpec(s: SourceState, launch: Gst.Launch, videoLinked: bool, audioLinked: bool): (t: SourceState)
    ensures t.timeoutId == 0 && t.settings == s.settings && t.audio == s.audio
    ensures launch.Launched? ==>
              && t.pipe == Some(Pipeline(Gst.Playing,
                                         Configured(videoLinked, audioLinked,
                                                    s.settings.syncAppsinkVideo, s.settings.syncAppsinkAudio),
                                         0))
              && t.frameCount == 0 && t.audioCount == 0
    ensures t.video == s.video + (if s.pipe.Some? then [Cleared] else [])
                               + (if launch.LaunchFailed? then [Cleared] else [])
  {
    StartSpec(StopSpec(s.(timeoutId := 0)), launch, videoLinked, audioLinked)
  }

  /** `gstreamer_source_create`: start at once unless the source only plays when shown. */
  function CreateSpec(settings: Settings, launch: Gst.Launch, videoLinked: bool, audioLinked: bool): (t: SourceState)
    ensures t.settings == settings && t.timeoutId == 0 && t.audio == []
    ensures settings.stopOnHide ==> t == Initial(settings)
    ensures !settings.stopOnHide ==> (t.pipe.Some? <==> launch.Launched? || launch.partial)
  {
    if !settings.stopOnHide then StartSpec(Initial(settings), launch, videoLinked, audioLinked)
    else Initial(settings)
  }

  /** `gstreamer_source_show`: start only when there is no pipeline. */
  function ShowSpec(s: SourceState, launch: Gst.Launch, videoLinked: bool, audioLinked: bool): (t: SourceState)
    ensures s.pipe.Some? ==> t == s
    ensures s.pipe.None? && launch.Launched? ==>
              t.pipe.Some? && t.pipe.value.state == Gst.Playing && t.frameCount == 0 && t.audioCount == 0
    ensures t.settings == s.settings && t.timeoutId == s.timeoutId
  {
    if s.pipe.None? then StartSpec(s, launch, videoLinked, audioLinked) else s
  }

  /** `gstreamer_source_hide`: stop only when `stop_on_hide` is set. */
  function HideSpec(s: SourceState): (t: SourceState)
    ensures !s.settings.stopOnHide ==> t == s
    ensures s.settings.stopOnHide ==> t.pipe.None? && t.timeoutId == 0
    ensures t.settings == s.settings && t.frameCount == s.frameCount && t.audio == s.audio
  {
    if s.settings.stopOnHide then StopSpec(s) else s
  }

  /**
   * `gstreamer_source_update` with the (already changed) settings and whether
   * OBS is showing the source: always stop, then restart unless hidden with
   * `stop_on_hide`.
   */
  function UpdateSpec(s: SourceState, settings: Settings, showing: bool,
                      launch: Gst.Launch, videoLinked: bool, audioLinked: bool): (t: SourceState)
    ensures t.settings == settings && t.timeoutId == 0 && t.audio == s.audio
    ensures settings.stopOnHide && !showing ==> t.pipe.None? && t.frameCount == s.frameCount
    ensures !(settings.stopOnHide && !showing) && launch.Launched? ==>
              && t.pipe == Some(Pipeline(Gst.Playing,
                                         Configured(videoLinked, audioLinked,
                                                    settings.syncAppsinkVideo, settings.syncAppsinkAudio),
                                         0))
              && t.frameCount == 0 && t.audioCount == 0
  {
    var stopped := StopSpec(s.(settings := settings));
    if settings.stopOnHide && !showing then stopped
    else StartSpec(stopped, launch, videoLinked, audioLinked)
  }

  /** `video_new_sample`: output one frame, numbering it when pipeline time stamps are off. */
  function VideoSampleSpec(s: SourceState, info: VideoInfo, pts: Gst.ClockTime): (t: SourceState)
    ensures |t.video| == |s.video| + 1 && t.video[..|s.video|] == s.video
    ensures t.video[|s.video|] == Video(info, if s.settings.useTimestampsVideo then pts else s.frameCount)
    ensures t.frameCount == if s.settings.useTimestampsVideo then s.frameCount else s.frameCount + 1
    ensures t == s.(video := t.video, frameCount := t.frameCount)
  {
    if s.settings.useTimestampsVideo then
      s.(video := s.video + [Video(info, pts)])
    else
      s.(video := s.video + [Video(info, s.frameCount)], frameCount := s.frameCount + 1)
  }

  /** `audio_new_sample` for a mapped buffer of `size` bytes. */
  function AudioSampleSpec(s: SourceState, info: AudioInfo, size: nat, pts: Gst.ClockTime): (t: SourceState)
    requires info.bpf > 0
    ensures |t.audio| == |s.audio| + 1 && t.audio[..|s.audio|] == s.audio
    ensures t.audio[|s.audio|].speakers == SpeakersOf(info.channels)
    ensures t.audio[|s.audio|].format == AudioFormatOf(info.format)
    ensures t.audio[|s.audio|].frames == AudioFrames(size, info.bpf)
    ensures t.audioCount == if s.settings.useTimestampsAudio then s.audioCount else s.audioCount + 1
    ensures t.audio[|s.audio|].samplesPerSec == info.rate
    ensures t.audio[|s.audio|].timestamp ==
              if s.settings.useTimestampsAudio then PipelineTime(pts)
              else Synthesized(s.audioCount, AudioFrames(size, info.bpf), info.rate)
    ensures t == s.(audio := t.audio, audioCount := t.audioCount)
  {
    var frames := AudioFrames(size, info.bpf);
    var ts := if s.settings.useTimestampsAudio then PipelineTime(pts)
              else Synthesized(s.audioCount, frames, info.rate);
    var packet := AudioPacket(frames, info.rate, ts, SpeakersOf(info.channels), AudioFormatOf(info.format));
    s.(audio := s.audio + [packet],
       audioCount := if s.settings.useTimestampsAudio then s.audioCount else s.audioCount + 1)
  }

  // ---------------------------------------------------------------------
  // Properties of the transitions
  // ---------------------------------------------------------------------

  /**
   * A second ERROR while a restart is pending leaves the pending timer alone:
   * faults before the timer fires never stack restarts.
   */
  lemma ErrorWhilePendingKeepsTimer(s: SourceState, first: nat, second: nat, e1: string, e2: string)
    requires first > 0 && second > 0
    ensures var t := BusSpec(s, Gst.Error(e1), first);
            var u := BusSpec(t, Gst.Error(e2), second);
            u.timeoutId == t.timeoutId && u.timeoutInterval == t.timeoutInterval
            && (s.settings.restartOnError ==> t.timeoutId != 0)
  {
  }

  /** On EOS with `restart_on_eos` the pipeline is rewound in place, not rebuilt. */
  lemma EosRewinds(s: SourceState, id: nat)
    requires id > 0 && s.settings.restartOnEos && s.pipe.Some?
    ensures var t := BusSpec(s, Gst.Eos, id);
            t.pipe.Some? && t.pipe.value.rewinds == s.pipe.value.rewinds + 1
            && t.pipe.value.state == s.pipe.value.state
            && t.pipe.value.branches == s.pipe.value.branches
            && t.video == s.video && t.timeoutId == s.timeoutId
  {
  }

  /** On EOS without `restart_on_eos`, the video is cleared exactly when `clear_on_end` is set. */
  lemma EosClears(s: SourceState, id: nat)
    requires id > 0 && !s.settings.restartOnEos
    ensures var t := BusSpec(s, Gst.Eos, id);
            t.pipe == s.pipe
            && t.video == if s.settings.clearOnEnd then s.video + [Cleared] else s.video
  {
  }

  /** A WARNING changes nothing. */
  lemma WarningChangesNothing(s: SourceState, text: string, id: nat)
    requires id > 0
    ensures BusSpec(s, Gst.Warning(text), id) == s
  {
  }

  /** Stopping twice is the same as stopping once. */
  lemma StopIdempotent(s: SourceState)
    ensures StopSpec(StopSpec(s)) == StopSpec(s)
  {
  }

  /** After the restart callback no restart is pending, and the pipeline was rebuilt from scratch. */
  lemma RestartFiresOnce(s: SourceState, launch: Gst.Launch, videoLinked: bool, audioLinked: bool)
    ensures var t := StartPipeSpec(s, launch, videoLinked, audioLinked);
            t.timeoutId == 0
            && (launch.Launched? ==> t.pipe.Some? && t.pipe.value.rewinds == 0 && t.frameCount == 0 && t.audioCount == 0)
            && (s.pipe.Some? ==> Cleared in t.video[|s.video|..])
  {
    var stopped := StopSpec(s.(timeoutId := 0));
    if s.pipe.Some? {
      assert stopped.video[|s.video|] == Cleared;
      assert StartPipeSpec(s, launch, videoLinked, audioLinked).video[|s.video|] == Cleared;
    }
  }

  /**
   * `stop` after an ERROR cancels the restart it scheduled: once stopped, a
   * WARNING or EOS never brings a timer back.
   */
  lemma StopCancelsRestart(s: SourceState, e: string, id: nat, later: Gst.Message, id2: nat)
    requires id > 0 && id2 > 0 && !later.Error?
    ensures BusSpec(StopSpec(BusSpec(s, Gst.Error(e), id)), later, id2).timeoutId == 0
  {
  }

  /** `show` starts only without a pipeline; `hide` stops only with `stop_on_hide`. */
  lemma ShowHideRules(s: SourceState, launch: Gst.Launch, videoLinked: bool, audioLinked: bool)
    ensures s.pipe.Some? ==> ShowSpec(s, launch, videoLinked, audioLinked) == s
    ensures s.pipe.None? ==> ShowSpec(s, launch, videoLinked, audioLinked) == StartSpec(s, launch, videoLinked, audioLinked)
    ensures !s.settings.stopOnHide ==> HideSpec(s) == s
    ensures s.settings.stopOnHide ==> HideSpec(s).pipe.None? && HideSpec(s).timeoutId == 0
  {
  }

  /**
   * `update` always tears down and cancels, and then runs with a fresh
   * pipeline unless the source is hidden with `stop_on_hide`.
   */
  lemma UpdateRestarts(s: SourceState, settings: Settings, showing: bool,
                       launch: Gst.Launch, videoLinked: bool, audioLinked: bool)
    ensures var t := UpdateSpec(s, settings, showing, launch, videoLinked, audioLinked);
            t.settings == settings && t.timeoutId == 0
            && (settings.stopOnHide && !showing ==> t.pipe.None?)
            && (!(settings.stopOnHide && !showing) && launch.Launched? ==>
                  t.pipe.Some? && t.pipe.value.state == Gst.Playing && t.frameCount == 0 && t.audioCount == 0)
  {
  }

  /** With the default settings, `create` waits for `show`, EOS rewinds the pipeline, and errors never restart. */
  lemma DefaultBehaviour(launch: Gst.Launch, videoLinked: bool, audioLinked: bool, e: string, id: nat)
    requires id > 0
    ensures CreateSpec(Defaults(), launch, videoLinked, audioLinked) == Initial(Defaults())
    ensures forall s: SourceState :: s.settings == Defaults() ==>
              BusSpec(s, Gst.Error(e), id).timeoutId == s.timeoutId
    ensures forall s: SourceState :: s.settings == Defaults() ==>
              BusSpec(s, Gst.Eos, id).pipe == Rewound(s.pipe)
  {
  }

  /** `create` starts the pipeline exactly when `stop_on_hide` is off. */
  lemma CreateStartsUnlessStopOnHide(settings: Settings, videoLinked: bool, audioLinked: bool)
    ensures CreateSpec(settings, Gst.Launched, videoLinked, audioLinked).pipe.Some? <==> !settings.stopOnHide
  {
  }

  /** A run of video samples, delivered one after the other. */
  function FeedVideo(s: SourceState, samples: seq<(VideoInfo, Gst.ClockTime)>): (t: SourceState)
    ensures |t.video| == |s.video| + |samples| && t.video[..|s.video|] == s.video
    ensures t.settings == s.settings
    decreases |samples|
  {
    if samples == [] then s
    else
      var s1 := VideoSampleSpec(s, samples[0].0, samples[0].1);
      var t := FeedVideo(s1, samples[1..]);
      assert t.video[..|s.video|] == t.video[..|s1.video|][..|s.video|];
      t
  }

  /**
   * A run of video samples changes only the video output and the frame
   * counter, and outputs, in order, one frame of each sample.
   */
  lemma {:induction false} FeedVideoKeeps(s: SourceState, samples: seq<(VideoInfo, Gst.ClockTime)>)
    ensures var t := FeedVideo(s, samples);
            && t == s.(video := t.video, frameCount := t.frameCount)
            && forall k :: |s.video| <= k < |t.video| ==>
                 t.video[k].Video? && t.video[k].info == samples[k - |s.video|].0
    decreases |samples|
  {
    if samples != [] {
      var s1 := VideoSampleSpec(s, samples[0].0, samples[0].1);
      FeedVideoKeeps(s1, samples[1..]);
      var t := FeedVideo(s1, samples[1..]);
      assert t == FeedVideo(s, samples);
      assert t.video[..|s1.video|][|s.video|] == s1.video[|s.video|];
    }
  }

  /**
   * Without pipeline time stamps, the frames of a run are numbered
   * consecutively from the current frame count, whatever their PTS.
   */
  lemma {:induction false} SyntheticVideoTimestamps(s: SourceState, samples: seq<(VideoInfo, Gst.ClockTime)>)
    requires !s.settings.useTimestampsVideo
    ensures var t := FeedVideo(s, samples);
            && |t.video| == |s.video| + |samples|
            && t.video[..|s.video|] == s.video
            && t.frameCount == s.frameCount + |samples|
            && t.settings == s.settings
            && forall i :: 0 <= i < |samples| ==>
                 t.video[|s.video| + i] == Video(samples[i].0, s.frameCount + i)
    decreases |samples|
  {
    if samples != [] {
      var s1 := VideoSampleSpec(s, samples[0].0, samples[0].1);
      SyntheticVideoTimestamps(s1, samples[1..]);
      var t := FeedVideo(s1, samples[1..]);
      assert t == FeedVideo(s, samples);
      forall i | 0 <= i < |samples|
        ensures t.video[|s.video| + i] == Video(samples[i].0, s.frameCount + i)
      {
        if i == 0 {
          assert t.video[..|s1.video|][|s.video|] == s1.video[|s.video|];
        } else {
          assert samples[1..][i - 1] == samples[i];
        }
      }
      assert t.video[..|s.video|] == t.video[..|s1.video|][..|s.video|];
    }
  }

  /** After a successful start, frames without pipeline time stamps are numbered 0, 1, 2, ... */
  lemma TimestampsAfterStart(s: SourceState, videoLinked: bool, audioLinked: bool,
                             samples: seq<(VideoInfo, Gst.ClockTime)>)
    requires !s.settings.useTimestampsVideo
    ensures var t := FeedVideo(StartSpec(s, Gst.Launched, videoLinked, audioLinked), samples);
            forall i :: 0 <= i < |samples| ==> t.video[|s.video| + i] == Video(samples[i].0, i)
  {
    var s0 := StartSpec(s, Gst.Launched, videoLinked, audioLinked);
    assert s0.frameCount == 0 && s0.video == s.video && !s0.settings.useTimestampsVideo;
    SyntheticVideoTimestamps(s0, samples);
  }

  // ---------------------------------------------------------------------
  // The instance record
  // ---------------------------------------------------------------------

  /** One source instance (`data_t`); its methods are the plugin's callbacks. */
  class Source {
    var settings: Settings
    var pipe: Option<Pipeline>
    var frameCount: nat
    var audioCount: nat
    var timeoutId: nat
    var timeoutInterval: nat
    var video: seq<VideoOutput>
    var audio: seq<AudioPacket>

    /** The instance as a value. */
    function Snapshot(): SourceState
      reads this
    {
      SourceState(settings, pipe, frameCount, audioCount, timeoutId, timeoutInterval, video, audio)
    }

    /** `gstreamer_source_create`. */
    constructor (settings: Settings, launch: Gst.Launch, videoLinked: bool, audioLinked: bool)
      ensures Snapshot() == CreateSpec(settings, launch, videoLinked, audioLinked)
      ensures settings.stopOnHide ==> pipe.None?
    {
      this.settings := settings;
      pipe := None;
      frameCount := 0;
      audioCount := 0;
      timeoutId := 0;
      timeoutInterval := 0;
      video := [];
      audio := [];
      new;
      if !settings.stopOnHide {
        Start(launch, videoLinked, audioLinked);
      }
    }

    /** `start`. */
    method Start(launch: Gst.Launch, videoLinked: bool, audioLinked: bool)
      modifies this
      ensures Snapshot() == StartSpec(old(Snapshot()), launch, videoLinked, audioLinked)
      ensures launch.Launched? ==> frameCount == 0 && audioCount == 0
    {
      match launch {
        case LaunchFailed(partial) =>
          pipe := if partial then Some(Pipeline(Gst.Null, Unconfigured, 0)) else None;
          video := video + [Cleared];
          return;
        case Launched =>
      }
      var branches := Configured(videoLinked, audioLinked,
                                 settings.syncAppsinkVideo, settings.syncAppsinkAudio);
      pipe := Some(Pipeline(Gst.Null, branches, 0));
      frameCount := 0;
      audioCount := 0;
      pipe := WithState(pipe, Gst.Playing);
    }

    /** `stop` (and `gstreamer_source_destroy`, which only frees the record afterwards). */
    method Stop()
      modifies this
      ensures Snapshot() == StopSpec(old(Snapshot()))
      ensures timeoutId == 0 && pipe.None?
    {
      if timeoutId != 0 {
        timeoutId := 0;
      }
      if pipe.None? {
        return;
      }
      pipe := None;
      video := video + [Cleared];
    }

    /** `start_pipe`; returns FALSE so that GLib drops the timer after this one run. */
    method StartPipe(launch: Gst.Launch, videoLinked: bool, audioLinked: bool) returns (again: bool)
      modifies this
      ensures Snapshot() == StartPipeSpec(old(Snapshot()), launch, videoLinked, audioLinked)
      ensures !again && timeoutId == 0
    {
      timeoutId := 0;
      Stop();
      Start(launch, videoLinked, audioLinked);
      again := false;
    }

    /** `bus_callback`; returns TRUE so that the watch stays installed. */
    method BusCallback(msg: Gst.Message, freshId: nat) returns (keep: bool)
      requires freshId > 0
      modifies this
      ensures Snapshot() == BusSpec(old(Snapshot()), msg, freshId)
      ensures keep
    {
      keep := true;
      match msg {
        case Eos =>
          if settings.restartOnEos {
            pipe := Rewound(pipe);
          } else if settings.clearOnEnd {
            video := video + [Cleared];
          }
        case Error(_) =>
          pipe := WithState(pipe, Gst.Null);
          if settings.clearOnEnd {
            video := video + [Cleared];
          }
          if settings.restartOnError && timeoutId == 0 {
            timeoutId := freshId;
            timeoutInterval := Machine.U32(settings.restartTimeout);
          }
        case Warning(_) =>
        case OtherMessage =>
      }
    }

    /** `gstreamer_source_show`. */
    method Show(launch: Gst.Launch, videoLinked: bool, audioLinked: bool)
      modifies this
      ensures Snapshot() == ShowSpec(old(Snapshot()), launch, videoLinked, audioLinked)
    {
      if pipe.None? {
        Start(launch, videoLinked, audioLinked);
      }
    }

    /** `gstreamer_source_hide`. */
    method Hide()
      modifies this
      ensures Snapshot() == HideSpec(old(Snapshot()))
    {
      if settings.stopOnHide {
        Stop();
      }
    }

    /**
     * `gstreamer_source_update`. OBS passes the record's own (edited)
     * settings object, so the new settings replace the old ones; `showing` is
     * `obs_source_showing`.
     */
    method Update(newSettings: Settings, showing: bool,
                  launch: Gst.Launch, videoLinked: bool, audioLinked: bool)
      modifies this
      ensures Snapshot() == UpdateSpec(old(Snapshot()), newSettings, showing, launch, videoLinked, audioLinked)
      ensures timeoutId == 0
    {
      settings := newSettings;
      Stop();
      if newSettings.stopOnHide && !showing {
        return;
      }
      Start(launch, videoLinked, audioLinked);
    }

    /** `video_new_sample`. */
    method VideoNewSample(info: VideoInfo, pts: Gst.ClockTime)
      modifies this
      ensures Snapshot() == VideoSampleSpec(old(Snapshot()), info, pts)
    {
      var timestamp: nat;
      if settings.useTimestampsVideo {
        timestamp := pts;
      } else {
        timestamp := frameCount;
        frameCount := frameCount + 1;
      }
      video := video + [Video(info, timestamp)];
    }

    /** `audio_new_sample` for a mapped buffer of `size` bytes. */
    method AudioNewSample(info: AudioInfo, size: nat, pts: Gst.ClockTime)
      requires info.bpf > 0
      modifies this
      ensures Snapshot() == AudioSampleSpec(old(Snapshot()), info, size, pts)
    {
      var frames := AudioFrames(size, info.bpf);
      var timestamp: AudioTimestamp;
      if settings.useTimestampsAudio {
        timestamp := PipelineTime(pts);
      } else {
        timestamp := Synthesized(audioCount, frames, info.rate);
        audioCount := audioCount + 1;
      }
      audio := audio + [AudioPacket(frames, info.rate, timestamp, SpeakersOf(info.channels), AudioFormatOf(info.format))];
    }
  }
}
