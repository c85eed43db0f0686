/** The optional value used wherever the C code has a pointer that may be NULL. */
module Opt {
  datatype Option<+T> = None | Some(value: T)
}

/**
 * The fixed-width integer arithmetic of the C sources, written out explicitly.
 * Dafny integers are unbounded; these functions say where the C types wrap.
 */
module Machine {
  const TWO_32: nat := 0x1_0000_0000
  const TWO_31: nat := 0x8000_0000
  const TWO_64: nat := 0x1_0000_0000_0000_0000
  const TWO_63: nat := 0x8000_0000_0000_0000

  /** The value of `x` stored in an unsigned 32-bit variable (`uint32_t`, `guint`). */
  function U32(x: int): (r: nat)
    ensures r < TWO_32
    ensures 0 <= x < TWO_32 ==> r == x
    ensures (r - x) % TWO_32 == 0
  {
    x % TWO_32
  }

  /** The value of `x` stored in an unsigned 64-bit variable (`guint64`, `GstClockTime`). */
  function U64(x: int): (r: nat)
    ensures r < TWO_64
    ensures 0 <= x < TWO_64 ==> r == x
    ensures (r - x) % TWO_64 == 0
  {
    x % TWO_64
  }

  /** Two's-complement reinterpretation of an unsigned 32-bit value as a `gint`. */
  function ToInt32(x: nat): (r: int)
    requires x < TWO_32
    ensures -(TWO_31 as int) <= r < TWO_31
    ensures x < TWO_31 ==> r == x
    ensures (x - r) % TWO_32 == 0
  {
    if x < TWO_31 then x else x - TWO_32
  }

  /** The cast `(int64_t)x` of an unsigned 64-bit value. */
  function ToInt64(x: nat): (r: int)
    requires x < TWO_64
    ensures -(TWO_63 as int) <= r < TWO_63
    ensures x < TWO_63 ==> r == x
    ensures (x - r) % TWO_64 == 0
  {
    if x < TWO_63 then x else x - TWO_64
  }

  /** Signed 64-bit wrap-around of an `int64_t` subtraction. */
  function WrapI64(x: int): (r: int)
    ensures -(TWO_63 as int) <= r < TWO_63
    ensures -(TWO_63 as int) <= x < TWO_63 ==> r == x
    ensures (x - r) % TWO_64 == 0
  {
    (x + TWO_63) % TWO_64 - TWO_63
  }
}

/** The parts of the GStreamer API that the plugin interprets. */
module Gst {
  import Machine

  /** `GST_SECOND`: clock times are in nanoseconds. */
  const SECOND: nat := 1_000_000_000

  /** `GST_CLOCK_TIME_NONE`, the all-ones 64-bit clock time. */
  const CLOCK_TIME_NONE: nat := Machine.TWO_64 - 1

  /** A `GstClockTime`: an unsigned 64-bit count of nanoseconds. */
  type ClockTime = t: nat | t < Machine.TWO_64

  /** Element states (`GST_STATE_*`). */
  datatype State = Null | Ready | Paused | Playing

  /**
   * Raw video formats (`GST_VIDEO_FORMAT_*`) named by the plugin; every
   * other format is `Other`.
   */
  datatype VideoFormat = I420 | NV12 | BGRA | BGRx | RGBx | RGBA | UYVY | YUY2 | YVYU | I444 | Other

  /** The caps name of a format (`gst_video_format_to_string`). */
  function Name(f: VideoFormat): (s: string)
    requires f != Other
  {
    match f
    case I420 => "I420"
    case NV12 => "NV12"
    case BGRA => "BGRA"
    case BGRx => "BGRx"
    case RGBx => "RGBx"
    case RGBA => "RGBA"
    case UYVY => "UYVY"
    case YUY2 => "YUY2"
    case YVYU => "YVYU"
    case I444 => "I444"
  }

  /** `gst_video_format_from_string`, restricted to the formats named above. */
  function FromName(s: string): (f: VideoFormat)
    ensures f != Other ==> Name(f) == s
  {
    if s == "I420" then I420
    else if s == "NV12" then NV12
    else if s == "BGRA" then BGRA
    else if s == "BGRx" then BGRx
    else if s == "RGBx" then RGBx
    else if s == "RGBA" then RGBA
    else if s == "UYVY" then UYVY
    else if s == "YUY2" then YUY2
    else if s == "YVYU" then YVYU
    else if s == "I444" then I444
    else Other
  }

  /** Caps names identify formats: parsing a printed name gives the format back. */
  lemma NameRoundTrip(f: VideoFormat)
    requires f != Other
    ensures FromName(Name(f)) == f
  {
  }

  /** `GstVideoColorRange`. */
  datatype ColorRange = Range0To255 | Range16To235 | RangeUnknown

  /** `GstVideoColorMatrix`. */
  datatype ColorMatrix = MatrixBT709 | MatrixBT601 | MatrixOther

  /** Raw audio formats (`GST_AUDIO_FORMAT_*`) named by the plugin. */
  datatype AudioFormat = U8 | S16LE | S32LE | F32LE | OtherAudio

  /** Bus messages that the plugin distinguishes (`GST_MESSAGE_*`). */
  datatype Message = Eos | Error(text: string) | Warning(text: string) | OtherMessage

  /**
   * The outcome of `gst_parse_launch` on a pipeline description. On failure
   * GStreamer may still hand back a partially built pipeline (`partial`).
   */
  datatype Launch = Launched | LaunchFailed(partial: bool)
}

/** The parts of the OBS Studio API that the plugin produces or consumes. */
module Obs {
  /** `enum video_format`; formats the plugin does not name are `OtherFormat`. */
  datatype VideoFormat = FormatNone | I420 | NV12 | YVYU | YUY2 | UYVY | RGBA | BGRA | BGRX | I444 | OtherFormat

  /** `enum video_range_type`. */
  datatype VideoRange = RangeDefault | RangePartial | RangeFull

  /** `enum video_colorspace`. */
  datatype Colorspace = CsDefault | Cs601 | Cs709

  /** `enum speaker_layout`. */
  datatype Speakers = SpeakersUnknown | Mono | Stereo | TwoPointOne | FourPointZero | FourPointOne | FivePointOne | SevenPointOne

  /** The number of channels a speaker layout carries (`get_audio_channels`). */
  function ChannelCount(s: Speakers): nat
  {
    match s
    case SpeakersUnknown => 0
    case Mono => 1
    case Stereo => 2
    case TwoPointOne => 3
    case FourPointZero => 4
    case FourPointOne => 5
    case FivePointOne => 6
    case SevenPointOne => 8
  }

  /** `enum audio_format`. */
  datatype AudioFormat = AudioUnknown | U8Bit | Bit16 | Bit32 | Float

  /** `enum obs_encoder_type`. */
  datatype EncoderType = EncoderAudio | EncoderVideo
}
