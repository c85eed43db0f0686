/**
 * The "GStreamer Filter" of gstreamer-filter.c: each video frame of the
 * filtered source is pushed through `appsrc ! <user pipeline> ! videoconvert
 * ! appsink`, built lazily from the first frame's format, and the result is
 * copied back into the frame in place when its size matches.
 */
module GstreamerFilter {
  import opened Opt
  import Machine
  import Gst
  import Obs
  import GstreamerSource

  /** `gstreamer_filter_get_defaults`: the default user pipeline. */
  const DEFAULT_PIPELINE: string := "videoflip video-direction=horiz"

  // ---------------------------------------------------------------------
  // Frame format and size
  // ---------------------------------------------------------------------

  /** The OBS formats the filter can build a pipeline for. */
  const FilterFormats: set<Obs.VideoFormat> :=
    {Obs.I420, Obs.NV12, Obs.YVYU, Obs.YUY2, Obs.UYVY, Obs.RGBA, Obs.BGRA, Obs.BGRX}

  /** The caps format name and the byte size (`gint frame_size`) of a frame. */
  datatype FrameCaps = FrameCaps(format: string, size: int)

  /** A frame size computed in `uint32_t` and stored in a `gint`. */
  function SizeOf(width: nat, height: nat, factor: nat, divisor: nat): (size: int)
    requires divisor > 0
    ensures -(Machine.TWO_31 as int) <= size < Machine.TWO_31
  {
    Machine.ToInt32(Machine.U32(Machine.U32(width * height) * factor) / divisor)
  }

  /**
   * The format switch of `gstreamer_filter_filter_video`; `None` is the
   * `default` case that logs "invalid video format" and assigns nothing.
   * The caps name of each supported format is read back by the source as
   * the same OBS format.
   */
  function CapsFor(f: Obs.VideoFormat, width: nat, height: nat): (r: Option<FrameCaps>)
    ensures r.None? <==> f !in FilterFormats
    ensures r.Some? ==>
              && Gst.FromName(r.value.format) != Gst.Other
              && GstreamerSource.VideoFormatOf(Gst.FromName(r.value.format)) == f
  {
    match f
    case I420 => Some(FrameCaps("I420", SizeOf(width, height, 3, 2)))
    case NV12 => Some(FrameCaps("NV12", SizeOf(width, height, 3, 2)))
    case YVYU => Some(FrameCaps("YVYU", SizeOf(width, height, 2, 1)))
    case YUY2 => Some(FrameCaps("YUY2", SizeOf(width, height, 2, 1)))
    case UYVY => Some(FrameCaps("UYVY", SizeOf(width, height, 2, 1)))
    case RGBA => Some(FrameCaps("RGBA", SizeOf(width, height, 4, 1)))
    case BGRA => Some(FrameCaps("BGRA", SizeOf(width, height, 4, 1)))
    case BGRX => Some(FrameCaps("BGRx", SizeOf(width, height, 4, 1)))
    case _ => None
  }

  /** `width * height * factor` neither wraps in 32 bits nor turns negative in a `gint` when it is below 2^31. */
  lemma SizeNoWrap(width: nat, height: nat, factor: nat, divisor: nat)
    requires 1 <= factor && divisor > 0 && width * height * factor < Machine.TWO_31
    ensures SizeOf(width, height, factor, divisor) == width * height * factor / divisor
  {
    var area := width * height;
    var scaled := area * factor;
    MulMonotone(area, factor);
    assert Machine.U32(area) == area;
    assert Machine.U32(area * factor) == scaled;
    DivAtMost(scaled, divisor);
    assert Machine.U32(area) * factor == scaled;
  }

  /** Multiplying by a positive factor does not shrink a natural number. */
  lemma MulMonotone(x: nat, factor: nat)
    requires 1 <= factor
    ensures x <= x * factor
  {
  }

  /** Dividing by a positive divisor does not grow a natural number. */
  lemma DivAtMost(x: nat, divisor: nat)
    requires divisor > 0
    ensures x / divisor <= x
  {
    var q := x / divisor;
    assert x == divisor * q + x % divisor;
    assert q <= q * divisor by { MulMonotone(q, divisor); }
  }

  /**
   * Frame sizes: 4:2:0 is w·h·3/2, packed 4:2:2 is w·h·2 and packed RGB is
   * w·h·4 bytes, as long as w·h·4 fits in a `gint`.
   */
  lemma FrameSizeTable(f: Obs.VideoFormat, width: nat, height: nat)
    requires width * height * 4 < Machine.TWO_31
    ensures f in {Obs.I420, Obs.NV12} ==> CapsFor(f, width, height).value.size == width * height * 3 / 2
    ensures f in {Obs.YVYU, Obs.YUY2, Obs.UYVY} ==> CapsFor(f, width, height).value.size == width * height * 2
    ensures f in {Obs.RGBA, Obs.BGRA, Obs.BGRX} ==> CapsFor(f, width, height).value.size == width * height * 4
    ensures f == Obs.BGRX ==> CapsFor(f, width, height).value.format == "BGRx"
  {
    assert width * height * 3 <= width * height * 4;
    assert width * height * 2 <= width * height * 4;
    SizeNoWrap(width, height, 3, 2);
    SizeNoWrap(width, height, 2, 1);
    SizeNoWrap(width, height, 4, 1);
  }

  // ---------------------------------------------------------------------
  // Instance state and its transitions
  // ---------------------------------------------------------------------

  /** The properties of an `obs_source_frame` the filter reads, apart from its bytes. */
  datatype FrameInfo = FrameInfo(format: Obs.VideoFormat, width: nat, height: nat, timestamp: nat)

  /** The opaque pipeline: the caps it was built for, the user description, and its state. */
  datatype FilterPipeline = FilterPipeline(width: nat, height: nat, format: string, description: string, state: Gst.State)

  /** A buffer pushed into the appsrc: its PTS and its size. */
  datatype Pushed = Pushed(pts: nat, size: int)

  /** The value of one filter instance (`data_t`) and its settings' pipeline text. */
  datatype FilterState = FilterState(
    description: string,
    pipe: Option<FilterPipeline>,
    appsrc: bool,
    appsink: bool,
    frameSize: int,
    pushed: seq<Pushed>)

  /** The zero-filled record of `gstreamer_filter_create`. */
  function Created(description: string): (s: FilterState)
    ensures s.pipe.None? && !s.appsrc && !s.appsink && s.frameSize == 0 && s.pushed == []
  {
    FilterState(description, None, false, false, 0, [])
  }

  /**
   * The lazy build at the top of `gstreamer_filter_filter_video`, run when
   * there is no pipeline: the frame size is taken from this frame (kept for
   * an unsupported format), then the pipeline is parsed.
   */
  function BuildSpec(s: FilterState, frame: FrameInfo, launch: Gst.Launch): (t: FilterState)
    requires s.pipe.None?
    ensures t.description == s.description && t.pushed == s.pushed
    ensures CapsFor(frame.format, frame.width, frame.height).None? ==> t.frameSize == s.frameSize
    ensures CapsFor(frame.format, frame.width, frame.height).Some? ==>
              t.frameSize == CapsFor(frame.format, frame.width, frame.height).value.size
    ensures t.pipe.Some? <==> launch.Launched?
    ensures launch.Launched? ==> t.appsrc && t.appsink && t.pipe.value.state == Gst.Playing
    ensures launch.Launched? && CapsFor(frame.format, frame.width, frame.height).None? ==> t.pipe.value.format == ""
  {
    var caps := CapsFor(frame.format, frame.width, frame.height);
    var size := if caps.Some? then caps.value.size else s.frameSize;
    var format := if caps.Some? then caps.value.format else "";
    match launch
    case LaunchFailed(_) => s.(frameSize := size, pipe := None)
    case Launched =>
      s.(frameSize := size,
         pipe := Some(FilterPipeline(frame.width, frame.height, format, s.description, Gst.Playing)),
         appsrc := true, appsink := true)
  }

  /** Whether `gstreamer_filter_filter_video` gets as far as pushing the frame. */
  predicate Pushes(s: FilterState, launch: Gst.Launch)
  {
    s.pipe.Some? || launch.Launched?
  }

  /** The state after `gstreamer_filter_filter_video`. */
  function FilterVideoSpec(s: FilterState, frame: FrameInfo, launch: Gst.Launch): (t: FilterState)
    ensures t.description == s.description
    ensures s.pipe.Some? ==> t.pipe == s.pipe && t.frameSize == s.frameSize
    ensures Pushes(s, launch) ==> t.pipe.Some? && t.pushed == s.pushed + [Pushed(frame.timestamp, t.frameSize)]
    ensures !Pushes(s, launch) ==> t.pipe.None? && t.pushed == s.pushed
  {
    var built := if s.pipe.None? then BuildSpec(s, frame, launch) else s;
    if !Pushes(s, launch) then built
    else built.(pushed := built.pushed + [Pushed(frame.timestamp, built.frameSize)])
  }

  /** Whether the pulled sample is copied back: only a sample of exactly `frame_size` bytes is. */
  predicate CopiesBack(s: FilterState, frame: FrameInfo, launch: Gst.Launch, sample: Option<seq<bv8>>)
  {
    Pushes(s, launch) && sample.Some? && |sample.value| == FilterVideoSpec(s, frame, launch).frameSize
  }

  /** `gstreamer_filter_update`: tear the pipeline down so that the next frame rebuilds it. */
  function UpdateSpec(s: FilterState, description: string): (t: FilterState)
    ensures t.pipe.None? && !(s.pipe.Some? && (t.appsrc || t.appsink))
    ensures t.description == description && t.frameSize == s.frameSize && t.pushed == s.pushed
    ensures s.pipe.None? ==> t == s.(description := description)
  {
    var changed := s.(description := description);
    if s.pipe.Some? then changed.(pipe := None, appsrc := false, appsink := false) else changed
  }

  // ---------------------------------------------------------------------
  // Properties of the transitions
  // ---------------------------------------------------------------------

  /** Once built, the pipeline and the frame size stay fixed until the next update. */
  lemma {:induction false} FixedUntilUpdate(s: FilterState, frames: seq<FrameInfo>, launches: seq<Gst.Launch>)
    requires s.pipe.Some? && |frames| == |launches|
    ensures var t := FilterRun(s, frames, launches);
            t.pipe == s.pipe && t.frameSize == s.frameSize && |t.pushed| == |s.pushed| + |frames|
    decreases |frames|
  {
    if frames != [] {
      FixedUntilUpdate(FilterVideoSpec(s, frames[0], launches[0]), frames[1..], launches[1..]);
    }
  }

  /** A run of frames through the filter, with the parse outcome each would meet. */
  function FilterRun(s: FilterState, frames: seq<FrameInfo>, launches: seq<Gst.Launch>): FilterState
    requires |frames| == |launches|
    decreases |frames|
  {
    if frames == [] then s
    else FilterRun(FilterVideoSpec(s, frames[0], launches[0]), frames[1..], launches[1..])
  }

  /** After an update, the next frame's format decides the frame size again. */
  lemma UpdateThenFrame(s: FilterState, description: string, frame: FrameInfo)
    requires frame.format in FilterFormats
    ensures FilterVideoSpec(UpdateSpec(s, description), frame, Gst.Launched).frameSize
            == CapsFor(frame.format, frame.width, frame.height).value.size
  {
  }

  /** A pipeline that fails to parse leaves no pipeline, pushes nothing and copies nothing back. */
  lemma ParseFailureLeavesFrame(s: FilterState, frame: FrameInfo, partial: bool, sample: Option<seq<bv8>>)
    requires s.pipe.None?
    ensures FilterVideoSpec(s, frame, Gst.LaunchFailed(partial)).pipe.None?
    ensures FilterVideoSpec(s, frame, Gst.LaunchFailed(partial)).pushed == s.pushed
    ensures !CopiesBack(s, frame, Gst.LaunchFailed(partial), sample)
  {
  }

  /** Updating twice is the same as updating once. */
  lemma UpdateIdempotent(s: FilterState, description: string)
    ensures UpdateSpec(UpdateSpec(s, description), description) == UpdateSpec(s, description)
  {
  }

  // ---------------------------------------------------------------------
  // The instance record
  // ---------------------------------------------------------------------

  /** One filter instance (`data_t`). */
  class Filter {
    var description: string
    var pipe: Option<FilterPipeline>
    var appsrc: bool
    var appsink: bool
    var frameSize: int
    var pushed: seq<Pushed>

    /** The instance as a value. */
    function Snapshot(): FilterState
      reads this
    {
      FilterState(description, pipe, appsrc, appsink, frameSize, pushed)
    }

    /** `gstreamer_filter_create`. */
    constructor (description: string)
      ensures Snapshot() == Created(description)
    {
      this.description := description;
      pipe := None;
      appsrc := false;
      appsink := false;
      frameSize := 0;
      pushed := [];
    }

    /**
     * `gstreamer_filter_filter_video`. `data` is the frame's first plane,
     * overwritten in place; `launch` is the parse outcome if a pipeline is
     * built, `sample` what `gst_app_sink_pull_sample` returns. The frame's
     * memory holds at least `frame_size` bytes.
     */
    method FilterVideo(frame: FrameInfo, data: array<bv8>, launch: Gst.Launch, sample: Option<seq<bv8>>)
      requires 0 <= FilterVideoSpec(Snapshot(), frame, launch).frameSize <= data.Length
      modifies this, data
      ensures Snapshot() == FilterVideoSpec(old(Snapshot()), frame, launch)
      ensures CopiesBack(old(Snapshot()), frame, launch, sample) ==>
                data[..] == sample.value + old(data[..])[frameSize..]
      ensures !CopiesBack(old(Snapshot()), frame, launch, sample) ==> data[..] == old(data[..])
    {
      if pipe.None? {
        var caps := CapsFor(frame.format, frame.width, frame.height);
        var format := "";
        if caps.Some? {
          frameSize := caps.value.size;
          format := caps.value.format;
        }
        if launch.LaunchFailed? {
          pipe := None;
          return;
        }
        pipe := Some(FilterPipeline(frame.width, frame.height, format, description, Gst.Null));
        appsrc := true;
        appsink := true;
        pipe := Some(pipe.value.(state := Gst.Playing));
      }
      pushed := pushed + [Pushed(frame.timestamp, frameSize)];
      if sample.None? {
        return;
      }
      var bytes := sample.value;
      if |bytes| == frameSize {
        forall p | 0 <= p < frameSize {
          data[p] := bytes[p];
        }
        assert data[..] == bytes + old(data[..])[frameSize..];
      }
    }

    /** `gstreamer_filter_update` with the (already edited) pipeline text. */
    method Update(newDescription: string)
      modifies this
      ensures Snapshot() == UpdateSpec(old(Snapshot()), newDescription)
    {
      description := newDescription;
      if pipe.Some? {
        pipe := None;
        appsrc := false;
        appsink := false;
      }
    }

    /** `gstreamer_filter_destroy`: the pipeline handles are released only when there is a pipeline. */
    method Destroy() returns (released: bool)
      modifies this
      ensures released <==> old(pipe).Some?
      ensures pipe.None?
      ensures !released ==> Snapshot() == old(Snapshot())
    {
      released := pipe.Some?;
      if released {
        pipe := None;
      }
    }
  }
}
