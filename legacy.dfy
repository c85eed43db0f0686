/**
 * The original single-file "GStreamer Source" of gstreamer.c: the user
 * pipeline is completed with fixed `video` and `audio` appsink branches,
 * started on show and on update, stopped on hide, and every sample is
 * handed to OBS with a plane layout computed from the caps.
 */
module LegacySource {
  import opened Opt
  import Machine
  import Gst
  import Obs
  import GstreamerSource

  /** The two settings the legacy source reads. */
  datatype LegacySettings = LegacySettings(pipeline: string, useTimestamps: bool)

  /** `get_defaults`. */
  function Defaults(): (s: LegacySettings)
    ensures !s.useTimestamps
  {
    LegacySettings(
      "videotestsrc is-live=true ! video/x-raw, framerate=30/1, width=960, height=540 ! video. "
      + "audiotestsrc wave=ticks is-live=true ! audio.",
      false)
  }

  // ---------------------------------------------------------------------
  // Plane layout of a video sample
  // ---------------------------------------------------------------------

  /** `MAX_AV_PLANES`: the length of the frame's `data` and `linesize` arrays. */
  const MAX_AV_PLANES: nat := 8

  /** The GStreamer formats the legacy video callback lays out. */
  const LegacyFormats: set<Gst.VideoFormat> :=
    {Gst.I420, Gst.NV12, Gst.BGRA, Gst.RGBA, Gst.UYVY, Gst.YUY2, Gst.YVYU}

  /**
   * The layout of an `obs_source_frame`: its format, the line size of each
   * plane and the offset of each plane's start from `data[0]`; the
   * zero-initialised entries are line size 0 and no plane (a NULL pointer).
   */
  datatype Layout = Layout(format: Obs.VideoFormat, linesize: seq<nat>, offset: seq<Option<nat>>)

  /** A layout whose first planes are given and whose remaining entries stay zero. */
  function Planes(format: Obs.VideoFormat, linesize: seq<nat>, offset: seq<nat>): (l: Layout)
    requires |linesize| <= MAX_AV_PLANES && |offset| <= MAX_AV_PLANES
    ensures |l.linesize| == MAX_AV_PLANES && |l.offset| == MAX_AV_PLANES
    ensures forall i :: 0 <= i < |linesize| ==> l.linesize[i] == linesize[i]
    ensures forall i :: |linesize| <= i < MAX_AV_PLANES ==> l.linesize[i] == 0
    ensures forall i :: 0 <= i < |offset| ==> l.offset[i] == Some(offset[i])
    ensures forall i :: |offset| <= i < MAX_AV_PLANES ==> l.offset[i].None?
  {
    Layout(format,
           seq(MAX_AV_PLANES, i requires 0 <= i => if i < |linesize| then linesize[i] else 0),
           seq(MAX_AV_PLANES, i requires 0 <= i => if i < |offset| then Some(offset[i]) else None))
  }

  /** The format switch of `video_new_sample`: the frame's format, line sizes and plane offsets. */
  function PlaneLayout(f: Gst.VideoFormat, width: nat, height: nat): (l: Layout)
    ensures |l.linesize| == MAX_AV_PLANES && |l.offset| == MAX_AV_PLANES
    ensures l.offset[0] == Some(0)
    ensures l.format == Obs.FormatNone <==> f !in LegacyFormats
    ensures f !in {Gst.I420, Gst.NV12} ==> forall i :: 1 <= i < MAX_AV_PLANES ==> l.offset[i].None? && l.linesize[i] == 0
  {
    match f
    case I420 => Planes(Obs.I420, [width, width / 2, width / 2], [0, width * height, width * height + width * height / 4])
    case NV12 => Planes(Obs.NV12, [width, width], [0, width * height])
    case BGRA => Planes(Obs.BGRX, [width * 4], [0])
    case RGBA => Planes(Obs.RGBA, [width * 4], [0])
    case UYVY => Planes(Obs.UYVY, [width * 2], [0])
    case YUY2 => Planes(Obs.YUY2, [width * 2], [0])
    case YVYU => Planes(Obs.YVYU, [width * 2], [0])
    case _ => Planes(Obs.FormatNone, [], [0])
  }

  /**
   * The line sizes and plane offsets of every arm of the format switch:
   * I420 has a full-width luma plane and two half-width chroma planes at
   * `width * height` and `width * height * 5 / 4` (as `w*h + w*h/4`), NV12
   * a full-width interleaved chroma plane at `width * height`, the packed
   * RGB formats four bytes and the packed YUV formats two bytes per pixel.
   */
  lemma {:induction false} LayoutTable(f: Gst.VideoFormat, width: nat, height: nat)
    ensures var l := PlaneLayout(f, width, height);
            && (f == Gst.I420 ==>
                  && l.format == Obs.I420
                  && l.linesize[0] == width && l.linesize[1] == width / 2 && l.linesize[2] == width / 2
                  && l.offset[1] == Some(width * height)
                  && l.offset[2] == Some(width * height + width * height / 4)
                  && forall i :: 3 <= i < MAX_AV_PLANES ==> l.linesize[i] == 0 && l.offset[i].None?)
            && (f == Gst.NV12 ==>
                  && l.format == Obs.NV12
                  && l.linesize[0] == width && l.linesize[1] == width
                  && l.offset[1] == Some(width * height)
                  && forall i :: 2 <= i < MAX_AV_PLANES ==> l.linesize[i] == 0 && l.offset[i].None?)
            && (f == Gst.BGRA ==> l.format == Obs.BGRX && l.linesize[0] == 4 * width)
            && (f == Gst.RGBA ==> l.format == Obs.RGBA && l.linesize[0] == 4 * width)
            && (f == Gst.UYVY ==> l.format == Obs.UYVY && l.linesize[0] == 2 * width)
            && (f == Gst.YUY2 ==> l.format == Obs.YUY2 && l.linesize[0] == 2 * width)
            && (f == Gst.YVYU ==> l.format == Obs.YVYU && l.linesize[0] == 2 * width)
            && (f !in LegacyFormats ==>
                  l.format == Obs.FormatNone && forall i :: 0 <= i < MAX_AV_PLANES ==> l.linesize[i] == 0)
  {
  }

  /**
   * For even dimensions the three I420 planes tile the buffer: the U plane
   * starts where the `height` rows of Y end, the V plane where the
   * `height / 2` rows of U end, and the V plane ends at `width * height * 3 / 2`.
   */
  lemma I420PlanesTile(width: nat, height: nat)
    requires width % 2 == 0 && height % 2 == 0
    ensures var l := PlaneLayout(Gst.I420, width, height);
            && l.offset[1] == Some(l.linesize[0] * height)
            && l.offset[2] == Some(l.offset[1].value + l.linesize[1] * (height / 2))
            && l.offset[2].value + l.linesize[2] * (height / 2) == width * height * 3 / 2
  {
    var hw, hh := width / 2, height / 2;
    assert width == 2 * hw && height == 2 * hh;
    assert width * height == 4 * (hw * hh) by {
      assert width * height == (2 * hw) * (2 * hh);
    }
    assert width * height / 4 == hw * hh;
    assert width * height * 3 / 2 == 6 * (hw * hh);
    assert hw * (height / 2) == hw * hh;
  }

  /** For an even height the NV12 chroma plane starts after the luma rows and ends at `width * height * 3 / 2`. */
  lemma NV12PlanesTile(width: nat, height: nat)
    requires height % 2 == 0
    ensures var l := PlaneLayout(Gst.NV12, width, height);
            && l.offset[1] == Some(l.linesize[0] * height)
            && l.offset[1].value + l.linesize[1] * (height / 2) == width * height * 3 / 2
  {
    var hh := height / 2;
    assert height == 2 * hh;
    assert width * height == 2 * (width * hh);
    assert width * height * 3 / 2 == 3 * (width * hh);
  }

  /**
   * The legacy mapping agrees with the newer source's for every format it
   * lays out except BGRA, which it reports as BGRX.
   */
  lemma AgreesWithSourceExceptBGRA(f: Gst.VideoFormat, width: nat, height: nat)
    ensures f in LegacyFormats && f != Gst.BGRA ==>
              PlaneLayout(f, width, height).format == GstreamerSource.VideoFormatOf(f)
    ensures PlaneLayout(Gst.BGRA, width, height).format == Obs.BGRX != GstreamerSource.VideoFormatOf(Gst.BGRA)
  {
  }

  // ---------------------------------------------------------------------
  // Audio sample conversion
  // ---------------------------------------------------------------------

  /** The channel counts the legacy audio callback names. */
  const LegacyChannels: set<int> := {1, 2, 6, 8}

  /** The channel switch of `audio_new_sample`. */
  function SpeakersOf(channels: int): (s: Obs.Speakers)
    ensures s != Obs.SpeakersUnknown <==> channels in LegacyChannels
    ensures s != Obs.SpeakersUnknown ==> Obs.ChannelCount(s) == channels
  {
    match channels
    case 1 => Obs.Mono
    case 2 => Obs.Stereo
    case 6 => Obs.FivePointOne
    case 8 => Obs.SevenPointOne
    case _ => Obs.SpeakersUnknown
  }

  /** The legacy mapping names fewer layouts than the newer source: 3, 4 and 5 channels are unknown to it. */
  lemma SpeakersNarrowerThanSource(channels: int)
    ensures SpeakersOf(channels) != Obs.SpeakersUnknown ==> SpeakersOf(channels) == GstreamerSource.SpeakersOf(channels)
    ensures channels in {3, 4, 5} ==>
              SpeakersOf(channels) == Obs.SpeakersUnknown != GstreamerSource.SpeakersOf(channels)
  {
  }

  /** Dividing twice is dividing by the product. */
  lemma {:induction false} DivDiv(a: nat, b: nat, c: nat)
    requires b > 0 && c > 0
    ensures a / b / c == a / (b * c)
  {
    var q, r := a / b, a % b;
    var q2, r2 := q / c, q % c;
    assert a == b * q + r;
    assert q == c * q2 + r2;
    Regroup(b, c, q2, r2, r);
    RemainderBound(b, c, r2, r);
    DivUnique(a, b * c, q2, b * r2 + r);
  }

  /** `b * (c * q + s) + r` regrouped around the product `b * c`. */
  lemma Regroup(b: nat, c: nat, q: nat, s: nat, r: nat)
    ensures b * (c * q + s) + r == (b * c) * q + (b * s + r)
  {
  }

  /** Mixed-radix digits below their radices stay below the product of the radices. */
  lemma RemainderBound(b: nat, c: nat, s: nat, r: nat)
    requires s < c && r < b
    ensures b * s + r < b * c
  {
    MulLe(b, s, c - 1);
    assert b * (c - 1) == b * c - b;
  }

  /** `x * y` grows with `y`. */
  lemma MulLe(x: nat, y: nat, z: nat)
    requires y <= z
    ensures x * y <= x * z
  {
  }

  /** Euclidean division has a unique quotient. */
  lemma DivUnique(a: nat, d: nat, q: nat, r: nat)
    requires d > 0 && a == d * q + r && r < d
    ensures a / d == q
  {
    var q0, r0 := a / d, a % d;
    var k: int := q - q0;
    assert d * k == r0 - r by {
      assert d * q0 + r0 == d * q + r;
      assert d * q == d * q0 + d * k;
    }
  }

  /**
   * `info.size / channels / 2` stored in the `uint32_t` frame count: the
   * number of whole 16-bit frames in the buffer.
   */
  function AudioFrames(size: nat, channels: nat): (frames: nat)
    requires channels >= 1
    ensures frames < Machine.TWO_32
    ensures size / (channels * 2) < Machine.TWO_32 ==> frames == size / (channels * 2)
  {
    DivDiv(size, channels, 2);
    Machine.U32(size / channels / 2)
  }

  // ---------------------------------------------------------------------
  // Instance state and its transitions
  // ---------------------------------------------------------------------

  /** The opaque pipeline object: the user description it was built from and its state. */
  datatype LegacyPipe = LegacyPipe(description: string, state: Gst.State)

  /** A frame handed to `obs_source_output_video` (its pixel bytes are the buffer's). */
  datatype LegacyFrame = LegacyFrame(width: nat, height: nat, timestamp: nat, layout: Layout)

  /** An audio packet handed to `obs_source_output_audio`. */
  datatype LegacyAudio = LegacyAudio(frames: nat, format: Obs.AudioFormat, rate: nat,
                                     timestamp: nat, speakers: Obs.Speakers)

  /**
   * The value of one instance (`data_t`) with its settings. `orphaned`
   * counts pipelines whose pointer was overwritten by `start` without being
   * stopped or released; `video` and `audio` are what was handed to OBS.
   */
  datatype LegacyState = LegacyState(
    settings: LegacySettings,
    pipe: Option<LegacyPipe>,
    frameCount: nat,
    orphaned: nat,
    video: seq<LegacyFrame>,
    audio: seq<LegacyAudio>)

  /** `create`: the zero-filled record; nothing is started. */
  function Created(settings: LegacySettings): (s: LegacyState)
    ensures s.pipe.None? && s.frameCount == 0 && s.orphaned == 0 && s.video == [] && s.audio == []
  {
    LegacyState(settings, None, 0, 0, [], [])
  }

  /**
   * `start`: the parse result always replaces `pipe`; a successful start
   * resets the frame count and plays, a failed one keeps what GStreamer
   * returned (possibly a partial pipeline) and leaves the count alone.
   */
  function StartSpec(s: LegacyState, launch: Gst.Launch): (t: LegacyState)
    ensures t.settings == s.settings && t.video == s.video && t.audio == s.audio
    ensures t.orphaned == s.orphaned + (if s.pipe.Some? then 1 else 0)
    ensures launch.Launched? ==>
              t.pipe == Some(LegacyPipe(s.settings.pipeline, Gst.Playing)) && t.frameCount == 0
    ensures launch.LaunchFailed? ==>
              t.frameCount == s.frameCount && (t.pipe.Some? <==> launch.partial)
              && (t.pipe.Some? ==> t.pipe.value.state == Gst.Null)
  {
    var orphaned := s.orphaned + (if s.pipe.Some? then 1 else 0);
    match launch
    case Launched =>
      s.(pipe := Some(LegacyPipe(s.settings.pipeline, Gst.Playing)), frameCount := 0, orphaned := orphaned)
    case LaunchFailed(partial) =>
      s.(pipe := if partial then Some(LegacyPipe(s.settings.pipeline, Gst.Null)) else None, orphaned := orphaned)
  }

  /** `stop`: release the pipeline if there is one. */
  function StopSpec(s: LegacyState): (t: LegacyState)
    ensures t.pipe.None?
    ensures t.settings == s.settings && t.frameCount == s.frameCount && t.orphaned == s.orphaned
    ensures t.video == s.video && t.audio == s.audio
  {
    s.(pipe := None)
  }

  /** `update`: nothing happens without a pipeline; otherwise stop, then start with the new settings. */
  function UpdateSpec(s: LegacyState, settings: LegacySettings, launch: Gst.Launch): (t: LegacyState)
    ensures t.settings == settings && t.orphaned == s.orphaned
    ensures s.pipe.None? ==> t == s.(settings := settings)
    ensures t.video == s.video && t.audio == s.audio
    ensures s.pipe.Some? && launch.Launched? ==>
              t.pipe == Some(LegacyPipe(settings.pipeline, Gst.Playing)) && t.frameCount == 0
    ensures s.pipe.Some? && launch.LaunchFailed? ==> t.frameCount == s.frameCount && (t.pipe.Some? <==> launch.partial)
  {
    var edited := s.(settings := settings);
    if s.pipe.None? then edited else StartSpec(StopSpec(edited), launch)
  }

  /** `show` starts unconditionally. */
  function ShowSpec(s: LegacyState, launch: Gst.Launch): (t: LegacyState)
    ensures t.orphaned == s.orphaned + (if s.pipe.Some? then 1 else 0)
    ensures launch.Launched? ==> t.pipe.Some? && t.pipe.value.state == Gst.Playing && t.frameCount == 0
  {
    StartSpec(s, launch)
  }

  /** `hide` stops. */
  function HideSpec(s: LegacyState): (t: LegacyState)
    ensures t.pipe.None? && t == s.(pipe := None)
  {
    StopSpec(s)
  }

  /**
   * `video_new_sample`: the frame takes the buffer PTS when pipeline time
   * stamps are on, and otherwise the frame count, which is then incremented.
   */
  function VideoSampleSpec(s: LegacyState, f: Gst.VideoFormat, width: nat, height: nat, pts: Gst.ClockTime): (t: LegacyState)
    ensures |t.video| == |s.video| + 1
    ensures t.video == s.video + [LegacyFrame(width, height, t.video[|s.video|].timestamp, PlaneLayout(f, width, height))]
    ensures s.settings.useTimestamps ==> t.video[|s.video|].timestamp == pts && t.frameCount == s.frameCount
    ensures !s.settings.useTimestamps ==> t.video[|s.video|].timestamp == s.frameCount && t.frameCount == s.frameCount + 1
    ensures t.settings == s.settings && t.pipe == s.pipe && t.audio == s.audio && t.orphaned == s.orphaned
  {
    var ts := if s.settings.useTimestamps then pts as nat else s.frameCount;
    var count := if s.settings.useTimestamps then s.frameCount else s.frameCount + 1;
    s.(video := s.video + [LegacyFrame(width, height, ts, PlaneLayout(f, width, height))], frameCount := count)
  }

  /**
   * `audio_new_sample`: always 16-bit, the rate from the caps, the PTS or
   * 0 as time stamp. GStreamer caps never carry fewer than one channel.
   */
  function AudioSampleSpec(s: LegacyState, channels: nat, rate: nat, size: nat, pts: Gst.ClockTime): (t: LegacyState)
    requires channels >= 1
    ensures |t.audio| == |s.audio| + 1 && t.audio[..|s.audio|] == s.audio
    ensures var a := t.audio[|s.audio|];
            && a.format == Obs.Bit16 && a.rate == rate && a.speakers == SpeakersOf(channels)
            && (size / (channels * 2) < Machine.TWO_32 ==> a.frames == size / (channels * 2))
            && a.timestamp == (if s.settings.useTimestamps then pts else 0)
    ensures t.frameCount == s.frameCount && t.video == s.video && t.pipe == s.pipe
  {
    var ts := if s.settings.useTimestamps then pts as nat else 0;
    var packet := LegacyAudio(AudioFrames(size, channels), Obs.Bit16, rate, ts, SpeakersOf(channels));
    s.(audio := s.audio + [packet])
  }

  // ---------------------------------------------------------------------
  // Properties of the transitions
  // ---------------------------------------------------------------------

  /** Stopping twice is the same as stopping once, and a stop without a pipeline changes nothing. */
  lemma StopIdempotent(s: LegacyState)
    ensures StopSpec(StopSpec(s)) == StopSpec(s)
    ensures s.pipe.None? ==> StopSpec(s) == s
  {
  }

  /**
   * Without a pipeline, update only records the new settings; with one,
   * it restarts from a zero frame count without orphaning the old pipeline.
   */
  lemma UpdateRules(s: LegacyState, settings: LegacySettings, launch: Gst.Launch)
    ensures s.pipe.None? ==> UpdateSpec(s, settings, launch) == s.(settings := settings)
    ensures s.pipe.Some? && launch.Launched? ==>
              && UpdateSpec(s, settings, launch).pipe == Some(LegacyPipe(settings.pipeline, Gst.Playing))
              && UpdateSpec(s, settings, launch).frameCount == 0
    ensures UpdateSpec(s, settings, launch).orphaned == s.orphaned
  {
  }

  /** Showing while a pipeline runs starts a second one and orphans the first; hiding first does not. */
  lemma ShowWhileRunningOrphans(s: LegacyState, launch: Gst.Launch)
    requires s.pipe.Some?
    ensures ShowSpec(s, launch).orphaned == s.orphaned + 1
    ensures ShowSpec(HideSpec(s), launch).orphaned == s.orphaned
  {
  }

  /** A failed start keeps counting frames from where the previous run left off. */
  lemma FailedStartKeepsCount(s: LegacyState, partial: bool)
    ensures StartSpec(s, Gst.LaunchFailed(partial)).frameCount == s.frameCount
  {
  }

  /** A run of video samples: format, width, height and PTS of each. */
  function FeedVideo(s: LegacyState, samples: seq<(Gst.VideoFormat, nat, nat, Gst.ClockTime)>): (t: LegacyState)
    ensures |t.video| == |s.video| + |samples| && t.video[..|s.video|] == s.video
    ensures t == s.(video := t.video, frameCount := t.frameCount)
    ensures forall k :: |s.video| <= k < |t.video| ==>
              t.video[k].width == samples[k - |s.video|].1 && t.video[k].height == samples[k - |s.video|].2
    decreases |samples|
  {
    if samples == [] then s
    else
      var s1 := VideoSampleSpec(s, samples[0].0, samples[0].1, samples[0].2, samples[0].3);
      var t := FeedVideo(s1, samples[1..]);
      assert t.video[..|s.video|] == t.video[..|s1.video|][..|s.video|];
      t
  }

  /** Without pipeline time stamps, the frames of a run are numbered on from the frame count. */
  lemma {:induction false} SyntheticTimestamps(s: LegacyState, samples: seq<(Gst.VideoFormat, nat, nat, Gst.ClockTime)>)
    requires !s.settings.useTimestamps
    ensures var t := FeedVideo(s, samples);
            && t.video[..|s.video|] == s.video
            && t.frameCount == s.frameCount + |samples|
            && forall k :: |s.video| <= k < |t.video| ==> t.video[k].timestamp == s.frameCount + (k - |s.video|)
    decreases |samples|
  {
    if samples != [] {
      var s1 := VideoSampleSpec(s, samples[0].0, samples[0].1, samples[0].2, samples[0].3);
      SyntheticTimestamps(s1, samples[1..]);
      var t := FeedVideo(s1, samples[1..]);
      assert t == FeedVideo(s, samples);
      assert t.video[..|s1.video|][|s.video|] == s1.video[|s.video|];
      assert t.video[..|s.video|] == t.video[..|s1.video|][..|s.video|];
    }
  }

  /** After a successful start (or show), frames without pipeline time stamps are numbered 0, 1, 2, ... */
  lemma TimestampsAfterStart(s: LegacyState, samples: seq<(Gst.VideoFormat, nat, nat, Gst.ClockTime)>)
    requires !s.settings.useTimestamps
    ensures var t := FeedVideo(StartSpec(s, Gst.Launched), samples);
            forall k :: |s.video| <= k < |t.video| ==> t.video[k].timestamp == k - |s.video|
  {
    var started := StartSpec(s, Gst.Launched);
    assert started.frameCount == 0 && started.video == s.video && !started.settings.useTimestamps;
    SyntheticTimestamps(started, samples);
  }

  // ---------------------------------------------------------------------
  // The instance record
  // ---------------------------------------------------------------------

  /** One legacy source instance (`data_t`); its methods are the plugin's callbacks. */
  class Legacy {
    var settings: LegacySettings
    var pipe: Option<LegacyPipe>
    var frameCount: nat
    var orphaned: nat
    var video: seq<LegacyFrame>
    var audio: seq<LegacyAudio>

    /** The instance as a value. */
    function Snapshot(): LegacyState
      reads this
    {
      LegacyState(settings, pipe, frameCount, orphaned, video, audio)
    }

    /** `create`. */
    constructor (settings: LegacySettings)
      ensures Snapshot() == Created(settings)
    {
      this.settings := settings;
      pipe := None;
      frameCount := 0;
      orphaned := 0;
      video := [];
      audio := [];
    }

    /** `start`, with `launch` the outcome of parsing the completed pipeline description. */
    method Start(launch: Gst.Launch)
      modifies this
      ensures Snapshot() == StartSpec(old(Snapshot()), launch)
    {
      if pipe.Some? {
        orphaned := orphaned + 1;
      }
      if launch.LaunchFailed? {
        pipe := if launch.partial then Some(LegacyPipe(settings.pipeline, Gst.Null)) else None;
        return;
      }
      pipe := Some(LegacyPipe(settings.pipeline, Gst.Null));
      frameCount := 0;
      pipe := Some(pipe.value.(state := Gst.Playing));
    }

    /** `stop` (and `destroy`, which then frees the record). */
    method Stop()
      modifies this
      ensures Snapshot() == StopSpec(old(Snapshot()))
    {
      if pipe.None? {
        return;
      }
      pipe := None;
    }

    /** `update`, with the settings object already holding the new values. */
    method Update(newSettings: LegacySettings, launch: Gst.Launch)
      modifies this
      ensures Snapshot() == UpdateSpec(old(Snapshot()), newSettings, launch)
    {
      settings := newSettings;
      if pipe.None? {
        return;
      }
      Stop();
      Start(launch);
    }

    /** `show`. */
    method Show(launch: Gst.Launch)
      modifies this
      ensures Snapshot() == ShowSpec(old(Snapshot()), launch)
    {
      Start(launch);
    }

    /** `hide`. */
    method Hide()
      modifies this
      ensures Snapshot() == HideSpec(old(Snapshot()))
    {
      Stop();
    }

    /** `video_new_sample` for a sample with caps format `f`, `width`, `height` and buffer PTS `pts`. */
    method VideoNewSample(f: Gst.VideoFormat, width: nat, height: nat, pts: Gst.ClockTime)
      modifies this
      ensures Snapshot() == VideoSampleSpec(old(Snapshot()), f, width, height, pts)
    {
      var ts: nat;
      if settings.useTimestamps {
        ts := pts;
      } else {
        ts := frameCount;
        frameCount := frameCount + 1;
      }
      video := video + [LegacyFrame(width, height, ts, PlaneLayout(f, width, height))];
    }

    /** `audio_new_sample` for a buffer of `size` bytes. */
    method AudioNewSample(channels: nat, rate: nat, size: nat, pts: Gst.ClockTime)
      requires channels >= 1
      modifies this
      ensures Snapshot() == AudioSampleSpec(old(Snapshot()), channels, rate, size, pts)
    {
      var frames := Machine.U32(size / channels / 2);
      var ts: nat := if settings.useTimestamps then pts else 0;
      audio := audio + [LegacyAudio(frames, Obs.Bit16, rate, ts, SpeakersOf(channels))];
    }
  }
}
