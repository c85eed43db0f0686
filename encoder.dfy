/**
 * The "GStreamer Encoder" of gstreamer-encoder.c: raw OBS frames are copied
 * into a GStreamer buffer, pushed into `appsrc ! ... ! x264enc/nvh264enc !
 * h264parse ! appsink`, and the H.264 access units pulled from the appsink
 * become OBS packets, with time stamps rebased on the first output buffer and
 * the stream's parameter sets cached once as codec extra data.
 */
module GstreamerEncoder {
  import opened Opt
  import Machine
  import Gst
  import Obs

  // ---------------------------------------------------------------------
  // Settings and output video information
  // ---------------------------------------------------------------------

  /** The keys of the encoder's `obs_data_t` settings. */
  datatype EncoderSettings = EncoderSettings(encoderType: string, bitrate: int, rateControl: string, keyintSec: int)

  /** `gstreamer_encoder_get_defaults`. */
  function Defaults(): (d: EncoderSettings)
    ensures d.encoderType == "x264" && d.rateControl == "CBR"
    ensures d.bitrate == 2500 && d.keyintSec == 2
  {
    EncoderSettings(encoderType := "x264", bitrate := 2500, rateControl := "CBR", keyintSec := 2)
  }

  /** The fields of `obs_video_info` the encoder reads; all are `uint32_t`. */
  datatype OutputInfo = OutputInfo(format: Obs.VideoFormat, width: nat, height: nat, fpsNum: nat, fpsDen: nat)

  // ---------------------------------------------------------------------
  // Raw caps: the output-format switch of gstreamer_encoder_create
  // ---------------------------------------------------------------------

  /**
   * One `case` of the switch: its label (`tag`), the format string and buffer size
   * it assigns (`width * height * factor / divisor`, in `uint32_t`), and
   * whether it ends with `break`.
   */
  datatype Arm = Arm(tag: Obs.VideoFormat, format: string, factor: nat, divisor: nat, breaks: bool)

  /** The switch's cases in source order. The RGBA, BGRA and BGRX cases have no `break`. */
  const FormatSwitch: seq<Arm> := [
    Arm(Obs.I420, "I420", 3, 2, true),
    Arm(Obs.NV12, "NV12", 3, 2, true),
    Arm(Obs.YVYU, "YVYU", 2, 1, true),
    Arm(Obs.YUY2, "YUY2", 2, 1, true),
    Arm(Obs.UYVY, "UYVY", 2, 1, true),
    Arm(Obs.RGBA, "RGBA", 3, 1, false),
    Arm(Obs.BGRA, "BGRA", 3, 1, false),
    Arm(Obs.BGRX, "BGRX", 3, 1, false),
    Arm(Obs.I444, "I444", 3, 1, true)
  ]

  /** The raw video caps the encoder's appsrc announces, and the size of each input buffer. */
  datatype RawCaps = RawCaps(format: string, bufferSize: nat)

  /** The size one case assigns, with the C operators' 32-bit wrap-around. */
  function ArmSize(arm: Arm, width: nat, height: nat): (size: nat)
    requires arm.divisor > 0
    ensures size < Machine.TWO_32
    ensures width * height * arm.factor < Machine.TWO_32 ==> size == width * height * arm.factor / arm.divisor
  {
    if 1 <= arm.factor && width * height * arm.factor < Machine.TWO_32 then
      NoWrap(width, height, arm.factor);
      Machine.U32(Machine.U32(width * height) * arm.factor) / arm.divisor
    else
      Machine.U32(Machine.U32(width * height) * arm.factor) / arm.divisor
  }

  /** Execute the cases from index `i` on until one ends with `break` (C fall-through). */
  function RunArms(i: nat, width: nat, height: nat, acc: RawCaps): (r: RawCaps)
    ensures i >= |FormatSwitch| ==> r == acc
    ensures i < |FormatSwitch| ==> r.format != "" && r.bufferSize < Machine.TWO_32
    ensures i < |FormatSwitch| && FormatSwitch[i].breaks ==>
              r == RawCaps(FormatSwitch[i].format, ArmSize(FormatSwitch[i], width, height))
    decreases |FormatSwitch| - i
  {
    if i >= |FormatSwitch| then acc
    else
      var arm := FormatSwitch[i];
      var caps := RawCaps(arm.format, ArmSize(arm, width, height));
      if arm.breaks then caps else RunArms(i + 1, width, height, caps)
  }

  /** The index of the first case labelled `f`, or `|FormatSwitch|` for the `default` case. */
  function CaseIndex(f: Obs.VideoFormat, i: nat): (k: nat)
    requires i <= |FormatSwitch|
    ensures i <= k <= |FormatSwitch|
    ensures k < |FormatSwitch| ==> FormatSwitch[k].tag == f
    ensures forall j :: i <= j < k ==> FormatSwitch[j].tag != f
    decreases |FormatSwitch| - i
  {
    if i == |FormatSwitch| || FormatSwitch[i].tag == f then i else CaseIndex(f, i + 1)
  }

  /**
   * The output-format switch: jump to the matching case and fall through;
   * an unhandled format keeps the zero-filled size and the empty format.
   */
  function RawCapsFor(f: Obs.VideoFormat, width: nat, height: nat): (r: RawCaps)
    ensures r.format == "" <==> forall j :: 0 <= j < |FormatSwitch| ==> FormatSwitch[j].tag != f
    ensures r.format == "" ==> r.bufferSize == 0
  {
    var k := CaseIndex(f, 0);
    if k == |FormatSwitch| then RawCaps("", 0) else RunArms(k, width, height, RawCaps("", 0))
  }

  /** `a * b` in 32-bit unsigned arithmetic does not wrap when the product fits. */
  lemma NoWrap(width: nat, height: nat, factor: nat)
    requires 1 <= factor && width * height * factor < Machine.TWO_32
    ensures Machine.U32(width * height) == width * height
    ensures Machine.U32(width * height * factor) == width * height * factor
  {
    assert width * height <= width * height * factor;
  }

  /** The 4:2:0 formats announce their own name and a buffer of w·h·3/2 bytes. */
  lemma RawCapsPlanar420(f: Obs.VideoFormat, width: nat, height: nat)
    requires f == Obs.I420 || f == Obs.NV12
    requires width * height * 3 < Machine.TWO_32
    ensures RawCapsFor(f, width, height) == RawCaps(if f == Obs.I420 then "I420" else "NV12", width * height * 3 / 2)
  {
    NoWrap(width, height, 3);
    var k := CaseIndex(f, 0);
    assert FormatSwitch[k].tag == f;
  }

  /** The packed 4:2:2 formats announce their own name and a buffer of w·h·2 bytes. */
  lemma RawCapsPacked422(f: Obs.VideoFormat, width: nat, height: nat)
    requires f == Obs.YVYU || f == Obs.YUY2 || f == Obs.UYVY
    requires width * height * 2 < Machine.TWO_32
    ensures RawCapsFor(f, width, height) ==
              RawCaps(if f == Obs.YVYU then "YVYU" else if f == Obs.YUY2 then "YUY2" else "UYVY", width * height * 2)
  {
    NoWrap(width, height, 2);
    var k := CaseIndex(f, 0);
    assert FormatSwitch[k].tag == f;
  }

  /**
   * I444 announces "I444" and a buffer of w·h·3 bytes, and RGBA, BGRA and
   * BGRX fall through into the I444 case and announce exactly the same.
   */
  lemma RawCapsI444(f: Obs.VideoFormat, width: nat, height: nat)
    requires f == Obs.RGBA || f == Obs.BGRA || f == Obs.BGRX || f == Obs.I444
    requires width * height * 3 < Machine.TWO_32
    ensures RawCapsFor(f, width, height) == RawCaps("I444", width * height * 3)
  {
    if f != Obs.I444 {
      PackedRgbFallsThrough(f, width, height);
    }
    NoWrap(width, height, 3);
    assert CaseIndex(Obs.I444, 0) == 8;
  }

  /** Every format without a case takes the `default` path: an empty format and a zero size. */
  lemma RawCapsDefault(f: Obs.VideoFormat, width: nat, height: nat)
    requires f != Obs.I420 && f != Obs.NV12 && f != Obs.YVYU && f != Obs.YUY2 && f != Obs.UYVY
    requires f != Obs.RGBA && f != Obs.BGRA && f != Obs.BGRX && f != Obs.I444
    ensures RawCapsFor(f, width, height) == RawCaps("", 0)
  {
    var k := CaseIndex(f, 0);
    if k < |FormatSwitch| {
      assert false;
    }
  }

  /** The fall-through: the packed RGB formats end up with exactly the I444 caps. */
  lemma PackedRgbFallsThrough(f: Obs.VideoFormat, width: nat, height: nat)
    requires f in {Obs.RGBA, Obs.BGRA, Obs.BGRX}
    ensures RawCapsFor(f, width, height) == RawCapsFor(Obs.I444, width, height)
    ensures RawCapsFor(f, width, height).format == "I444"
  {
    var k := CaseIndex(f, 0);
    assert FormatSwitch[k].tag == f;
    assert FormatSwitch[8].tag == Obs.I444;
    assert CaseIndex(Obs.I444, 0) == 8;
  }

  // ---------------------------------------------------------------------
  // Encoder element and keyframe interval
  // ---------------------------------------------------------------------

  /** C's `long long` division, which truncates toward zero. */
  function TruncDiv(a: int, b: nat): (q: int)
    requires b > 0
    ensures a >= 0 ==> 0 <= q * b <= a < (q + 1) * b
    ensures a < 0 ==> (q - 1) * b < a <= q * b <= 0
  {
    if a >= 0 then
      DivBounds(a, b);
      a / b
    else
      DivBounds(-a, b);
      var m := (-a) / b;
      assert (-m) * b == -(m * b) && (-m - 1) * b == -((m + 1) * b);
      -m
  }

  /** The quotient of natural numbers brackets the dividend between two multiples of the divisor. */
  lemma DivBounds(a: nat, b: nat)
    requires b > 0
    ensures 0 <= (a / b) * b <= a < (a / b + 1) * b
  {
    var q, r := a / b, a % b;
    assert a == b * q + r && 0 <= r < b;
    assert (q + 1) * b == q * b + b;
  }

  /** The keyframe interval in frames: `keyint_sec * fps_num / fps_den`. */
  function KeyInt(keyintSec: int, fpsNum: nat, fpsDen: nat): (k: int)
    requires fpsDen > 0
    ensures keyintSec >= 0 ==> 0 <= k * fpsDen <= keyintSec * fpsNum < (k + 1) * fpsDen
    ensures keyintSec < 0 ==> (k - 1) * fpsDen < keyintSec * fpsNum <= k * fpsDen <= 0
  {
    TruncDiv(keyintSec * fpsNum, fpsDen)
  }

  /** The encoder element spliced into the pipeline description. */
  datatype EncoderStage =
    | X264(bitrate: int, keyIntMax: int)
    | NvH264(bitrate: int, gopSize: int)
    | NoStage

  /** The element chosen by `encoder_type`, with its bitrate and keyframe interval. */
  function StageFor(settings: EncoderSettings, ovi: OutputInfo): (st: EncoderStage)
    requires ovi.fpsDen > 0
    ensures st.NoStage? <==> settings.encoderType != "x264" && settings.encoderType != "nvh264enc"
  {
    var keyint := KeyInt(settings.keyintSec, ovi.fpsNum, ovi.fpsDen);
    if settings.encoderType == "x264" then X264(settings.bitrate, keyint)
    else if settings.encoderType == "nvh264enc" then NvH264(settings.bitrate, keyint)
    else NoStage
  }

  /** x264 and NVENC get the same keyframe interval, in frames. */
  lemma SameKeyframeInterval(settings: EncoderSettings, ovi: OutputInfo)
    requires ovi.fpsDen > 0
    ensures StageFor(settings, ovi).X264? ==>
              StageFor(settings, ovi).keyIntMax == KeyInt(settings.keyintSec, ovi.fpsNum, ovi.fpsDen)
    ensures StageFor(settings, ovi).NvH264? ==>
              StageFor(settings, ovi).gopSize == KeyInt(settings.keyintSec, ovi.fpsNum, ovi.fpsDen)
  {
  }

  // ---------------------------------------------------------------------
  // Plane copy
  // ---------------------------------------------------------------------

  /** `MAX_AV_PLANES`: the length of `encoder_frame`'s `data` and `linesize` arrays. */
  const MAX_AV_PLANES: nat := 8

  /** An `encoder_frame`: per-plane bytes, per-plane line sizes, and the frame's PTS. */
  datatype EncoderFrame = EncoderFrame(data: seq<seq<bv8>>, linesize: seq<nat>, pts: int)

  /**
   * The number of planes copied: the index of the first zero line size. The
   * C loop has no other bound; here the end of the array also stops it.
   */
  function PlaneCount(linesize: seq<nat>, j: nat): (n: nat)
    requires j <= |linesize|
    ensures j <= n <= |linesize|
    ensures forall k :: j <= k < n ==> linesize[k] != 0
    ensures n < |linesize| ==> linesize[n] == 0
    decreases |linesize| - j
  {
    if j == |linesize| || linesize[j] == 0 then j else PlaneCount(linesize, j + 1)
  }

  /** Where plane `j` starts in the packed buffer: the sum of `linesize[k] * height` for `k < j`. */
  function PlaneStart(linesize: seq<nat>, height: nat, j: nat): nat
    requires j <= |linesize|
  {
    if j == 0 then 0 else PlaneStart(linesize, height, j - 1) + linesize[j - 1] * height
  }

  /** A position in the packed stream, cut off at the end of a buffer of `size` bytes. */
  function Clip(size: nat, p: nat): (c: nat)
    ensures c <= size && c <= p
    ensures c == p || c == size
  {
    if p < size then p else size
  }

  /**
   * How many bytes of plane `j` `gst_buffer_fill` keeps: its `height` rows,
   * less whatever falls past the end of the buffer.
   */
  function Kept(linesize: seq<nat>, height: nat, size: nat, j: nat): nat
    requires j < |linesize|
  {
    var start := PlaneStart(linesize, height, j);
    var rows: nat := linesize[j] * height;
    Clip(size, start + rows) - Clip(size, start)
  }

  /**
   * The frame holds every byte the copy reads. `gst_buffer_fill` reads only
   * the bytes it keeps, so a plane needs its `height` rows only where they
   * land inside the buffer: the half-height chroma planes of 4:2:0 frames
   * qualify, because their missing rows would land past `buffer_size`.
   */
  predicate ValidFrame(frame: EncoderFrame, height: nat, size: nat)
  {
    && |frame.data| == |frame.linesize| == MAX_AV_PLANES
    && forall j :: 0 <= j < PlaneCount(frame.linesize, 0) ==> |frame.data[j]| >= Kept(frame.linesize, height, size, j)
  }

  /** The bytes the copy keeps from planes `j` onward: each plane's rows, back to back, up to the buffer's end. */
  function PackedFrom(frame: EncoderFrame, height: nat, size: nat, j: nat): (r: seq<bv8>)
    requires ValidFrame(frame, height, size)
    requires j <= PlaneCount(frame.linesize, 0)
    ensures Clip(size, PlaneStart(frame.linesize, height, j)) + |r|
            == Clip(size, PlaneStart(frame.linesize, height, PlaneCount(frame.linesize, 0)))
    decreases |frame.linesize| - j
  {
    if j == PlaneCount(frame.linesize, 0) then []
    else frame.data[j][..Kept(frame.linesize, height, size, j)] + PackedFrom(frame, height, size, j + 1)
  }

  /** The buffer contents the nested copy loop produces. */
  function Packed(frame: EncoderFrame, height: nat, size: nat): (r: seq<bv8>)
    requires ValidFrame(frame, height, size)
    ensures |r| == Clip(size, PlaneStart(frame.linesize, height, PlaneCount(frame.linesize, 0)))
    ensures |r| <= size
  {
    PackedFrom(frame, height, size, 0)
  }

  /** Byte `p` of plane `j`, if kept, lands `PlaneStart(j) - PlaneStart(m)` bytes into the planes from `m` on. */
  lemma {:induction false} PackedFromAt(frame: EncoderFrame, height: nat, size: nat, m: nat, j: nat, p: nat)
    requires ValidFrame(frame, height, size)
    requires m <= j < PlaneCount(frame.linesize, 0)
    requires p < height * frame.linesize[j] && PlaneStart(frame.linesize, height, j) + p < size
    ensures PlaneStart(frame.linesize, height, m) <= PlaneStart(frame.linesize, height, j)
    ensures PlaneStart(frame.linesize, height, j) - PlaneStart(frame.linesize, height, m) + p < |PackedFrom(frame, height, size, m)|
    ensures p < |frame.data[j]|
    ensures PackedFrom(frame, height, size, m)[PlaneStart(frame.linesize, height, j) - PlaneStart(frame.linesize, height, m) + p]
            == frame.data[j][p]
    decreases j - m
  {
    var ls := frame.linesize;
    var head := frame.data[m][..Kept(ls, height, size, m)];
    assert PackedFrom(frame, height, size, m) == head + PackedFrom(frame, height, size, m + 1);
    if m < j {
      PackedFromAt(frame, height, size, m + 1, j, p);
      assert PlaneStart(ls, height, m + 1) == PlaneStart(ls, height, m) + ls[m] * height;
      assert |head| == ls[m] * height;
    } else {
      assert PlaneStart(ls, height, j + 1) == PlaneStart(ls, height, j) + ls[j] * height;
      assert p < |head|;
    }
  }

  /** Row `i` of plane `j` lands at `PlaneStart(j) + i * linesize[j]`, for every byte that fits in the buffer. */
  lemma {:induction false} PackedRowAt(frame: EncoderFrame, height: nat, size: nat, j: nat, i: nat, c: nat)
    requires ValidFrame(frame, height, size)
    requires j < PlaneCount(frame.linesize, 0) && i < height && c < frame.linesize[j]
    requires PlaneStart(frame.linesize, height, j) + i * frame.linesize[j] + c < size
    ensures var q := i * frame.linesize[j] + c;
            && q < |frame.data[j]|
            && PlaneStart(frame.linesize, height, j) + q < |Packed(frame, height, size)|
            && Packed(frame, height, size)[PlaneStart(frame.linesize, height, j) + q] == frame.data[j][q]
  {
    var q := i * frame.linesize[j] + c;
    var start := PlaneStart(frame.linesize, height, j);
    RowInPlane(i, height, frame.linesize[j], c);
    assert start + q < size;
    PackedFromAt(frame, height, size, 0, j, q);
    assert PlaneStart(frame.linesize, height, 0) == 0;
    assert Packed(frame, height, size) == PackedFrom(frame, height, size, 0);
  }

  /** Byte `c` of row `i` lies inside a plane of `height` rows. */
  lemma RowInPlane(i: nat, height: nat, linesize: nat, c: nat)
    requires i < height && c < linesize
    ensures i * linesize + c < height * linesize
  {
    assert (i + 1) * linesize <= height * linesize;
  }

  /** `height` rows of `linesize` bytes are `linesize * height` bytes. */
  lemma MulCommutes(height: nat, linesize: nat)
    ensures height * linesize == linesize * height
  {
  }

  /** One more row advances by one line size. */
  lemma NextRow(i: nat, linesize: nat)
    ensures (i + 1) * linesize == i * linesize + linesize
  {
  }

  /**
   * `gst_buffer_fill(buffer, offset, src + start, n)`: copy `n` bytes to
   * `offset`, dropping (and never reading) whatever would fall past the end
   * of the buffer.
   */
  method Fill(buf: array<bv8>, offset: nat, src: seq<bv8>, start: nat, n: nat)
    requires offset < buf.Length ==> start + Clip(buf.Length - offset, n) <= |src|
    modifies buf
    ensures forall p :: 0 <= p < buf.Length && offset <= p < offset + n ==> buf[p] == src[start + p - offset]
    ensures forall p :: 0 <= p < buf.Length && !(offset <= p < offset + n) ==> buf[p] == old(buf[p])
  {
    forall p | 0 <= p < buf.Length && offset <= p < offset + n {
      buf[p] := src[start + p - offset];
    }
  }

  /** The bytes row `i` of plane `j` has to supply: a whole row, or what is left of the buffer. */
  lemma {:induction false} RowReadable(frame: EncoderFrame, height: nat, size: nat, j: nat, i: nat)
    requires ValidFrame(frame, height, size)
    requires j < PlaneCount(frame.linesize, 0) && i < height
    requires PlaneStart(frame.linesize, height, j) + i * frame.linesize[j] < size
    ensures var offset := PlaneStart(frame.linesize, height, j) + i * frame.linesize[j];
            i * frame.linesize[j] + Clip(size - offset, frame.linesize[j]) <= |frame.data[j]|
  {
    var ls := frame.linesize[j];
    var start := PlaneStart(frame.linesize, height, j);
    RowInPlane(i, height, ls, ls - 1);
    assert PlaneStart(frame.linesize, height, j + 1) == start + ls * height;
    assert |frame.data[j]| >= Kept(frame.linesize, height, size, j);
  }

  /**
   * The inner loop of the copy: the `height` rows of plane `j`, written from
   * `start = PlaneStart(j)` on. Nothing outside `[start, end)` changes.
   */
  method CopyPlane(buf: array<bv8>, frame: EncoderFrame, height: nat, j: nat, start: nat) returns (end: nat)
    requires ValidFrame(frame, height, buf.Length)
    requires j < PlaneCount(frame.linesize, 0)
    requires start == PlaneStart(frame.linesize, height, j)
    modifies buf
    ensures end == PlaneStart(frame.linesize, height, j + 1)
    ensures forall p :: 0 <= p < buf.Length && start <= p < end && p < |Packed(frame, height, buf.Length)| ==>
              buf[p] == Packed(frame, height, buf.Length)[p]
    ensures forall p :: 0 <= p < buf.Length && !(start <= p < end) ==> buf[p] == old(buf[p])
  {
    ghost var packed := Packed(frame, height, buf.Length);
    var linesize := frame.linesize[j];
    var offset := start;
    var i := 0;
    while i < height
      invariant i <= height
      invariant offset == start + i * linesize
      invariant forall p :: 0 <= p < buf.Length && start <= p < offset && p < |packed| ==> buf[p] == packed[p]
      invariant forall p :: 0 <= p < buf.Length && !(start <= p < offset) ==> buf[p] == old(buf[p])
    {
      if offset < buf.Length {
        RowReadable(frame, height, buf.Length, j, i);
      }
      Fill(buf, offset, frame.data[j], i * linesize, linesize);
      forall p | 0 <= p < buf.Length && offset <= p < offset + linesize && p < |packed|
        ensures buf[p] == packed[p]
      {
        PackedRowAt(frame, height, buf.Length, j, i, p - offset);
      }
      NextRow(i, linesize);
      offset := offset + linesize;
      i := i + 1;
    }
    assert PlaneStart(frame.linesize, height, j + 1) == start + linesize * height;
    assert i == height;
    MulCommutes(height, linesize);
    end := offset;
  }

  /**
   * The nested copy of `gstreamer_encoder_encode`: planes in index order up
   * to the first zero line size, each `height` rows of its line size, back to
   * back in a fresh buffer of `size` bytes, cut off at the buffer's end.
   */
  method FillBuffer(frame: EncoderFrame, height: nat, size: nat) returns (buf: array<bv8>)
    requires ValidFrame(frame, height, size)
    ensures buf.Length == size
    ensures forall p :: 0 <= p < |Packed(frame, height, size)| ==> buf[p] == Packed(frame, height, size)[p]
  {
    buf := new bv8[size];
    ghost var packed := Packed(frame, height, size);
    var offset := 0;
    var j := 0;
    while j < |frame.linesize| && frame.linesize[j] != 0
      invariant j <= PlaneCount(frame.linesize, 0)
      invariant offset == PlaneStart(frame.linesize, height, j)
      invariant forall p :: 0 <= p < offset && p < |packed| ==> buf[p] == packed[p]
      decreases |frame.linesize| - j
    {
      offset := CopyPlane(buf, frame, height, j, offset);
      j := j + 1;
    }
    assert j == PlaneCount(frame.linesize, 0);
  }

  /** Line sizes `linesize` followed by zeros up to `MAX_AV_PLANES`. */
  function PaddedLinesize(linesize: seq<nat>): (r: seq<nat>)
    requires |linesize| <= MAX_AV_PLANES
    ensures |r| == MAX_AV_PLANES && r[..|linesize|] == linesize
    ensures forall k :: |linesize| <= k < MAX_AV_PLANES ==> r[k] == 0
  {
    linesize + seq(MAX_AV_PLANES - |linesize|, _ => 0)
  }

  /**
   * An OBS NV12 frame: one allocation holding the luma plane `y` and the
   * interleaved chroma plane `uv` of `height / 2` rows, with `data[1]`
   * pointing at `uv`. The copy reads only the chroma rows that fit in the
   * `width * height * 3 / 2` buffer, and the buffer is exactly `y` then `uv`.
   */
  lemma {:induction false} Nv12Packed(y: seq<bv8>, uv: seq<bv8>, width: nat, height: nat)
    requires width > 0 && height % 2 == 0
    requires |y| == width * height && |uv| == width * (height / 2)
    ensures var frame := EncoderFrame([y + uv, uv] + seq(MAX_AV_PLANES - 2, _ => []), PaddedLinesize([width, width]), 0);
            && ValidFrame(frame, height, width * height * 3 / 2)
            && Packed(frame, height, width * height * 3 / 2) == y + uv
  {
    var ls := PaddedLinesize([width, width]);
    var frame := EncoderFrame([y + uv, uv] + seq(MAX_AV_PLANES - 2, _ => []), ls, 0);
    var n := width * (height / 2);
    var size := width * height * 3 / 2;
    assert width * height == 2 * n && size == 3 * n by {
      assert height == 2 * (height / 2);
    }
    assert ls[0] == width && ls[1] == width && ls[2] == 0;
    assert PlaneCount(ls, 0) == 2 by {
      assert PlaneCount(ls, 2) == 2;
    }
    assert PlaneStart(ls, height, 1) == 2 * n;
    assert PlaneStart(ls, height, 2) == 4 * n;
    assert Kept(ls, height, size, 0) == 2 * n;
    assert Kept(ls, height, size, 1) == n;
    assert ValidFrame(frame, height, size);
    assert PackedFrom(frame, height, size, 2) == [];
    assert PackedFrom(frame, height, size, 1) == uv[..n] + [];
    assert PackedFrom(frame, height, size, 0) == (y + uv)[..2 * n] + PackedFrom(frame, height, size, 1);
    assert (y + uv)[..2 * n] == y && uv[..n] + [] == uv;
  }

  /**
   * An OBS I420 frame: one allocation holding `y`, `u` and `v`, the chroma
   * planes `width / 2` wide and `height / 2` high. The copy takes `height`
   * rows of plane 1, which run from `u` on into `v`, and nothing of plane 2,
   * which lands past the `width * height * 3 / 2` buffer; the buffer is
   * still exactly `y`, `u`, `v`.
   */
  lemma {:induction false} I420Packed(y: seq<bv8>, u: seq<bv8>, v: seq<bv8>, width: nat, height: nat)
    requires width > 0 && width % 2 == 0 && height % 2 == 0
    requires |y| == width * height && |u| == |v| == (width / 2) * (height / 2)
    ensures var frame := EncoderFrame([y + u + v, u + v, v] + seq(MAX_AV_PLANES - 3, _ => []),
                                      PaddedLinesize([width, width / 2, width / 2]), 0);
            && ValidFrame(frame, height, width * height * 3 / 2)
            && Packed(frame, height, width * height * 3 / 2) == y + u + v
  {
    var ls := PaddedLinesize([width, width / 2, width / 2]);
    var frame := EncoderFrame([y + u + v, u + v, v] + seq(MAX_AV_PLANES - 3, _ => []), ls, 0);
    var a := width / 2;
    var n := a * (height / 2);
    var size := width * height * 3 / 2;
    assert width * height == 4 * n && a * height == 2 * n && size == 6 * n by {
      assert width == 2 * a && height == 2 * (height / 2);
    }
    assert ls[0] == width && ls[1] == a && ls[2] == a && ls[3] == 0;
    assert PlaneCount(ls, 0) == 3 by {
      assert PlaneCount(ls, 3) == 3;
    }
    assert PlaneStart(ls, height, 1) == 4 * n;
    assert PlaneStart(ls, height, 2) == 6 * n;
    assert PlaneStart(ls, height, 3) == 8 * n;
    assert Kept(ls, height, size, 0) == 4 * n;
    assert Kept(ls, height, size, 1) == 2 * n;
    assert Kept(ls, height, size, 2) == 0;
    assert ValidFrame(frame, height, size);
    assert PackedFrom(frame, height, size, 3) == [];
    assert PackedFrom(frame, height, size, 2) == v[..0] + [];
    assert PackedFrom(frame, height, size, 1) == (u + v)[..2 * n] + PackedFrom(frame, height, size, 2);
    assert PackedFrom(frame, height, size, 0) == (y + u + v)[..4 * n] + PackedFrom(frame, height, size, 1);
    assert (y + u + v)[..4 * n] == y && (u + v)[..2 * n] == u + v && v[..0] + [] == [];
  }

  // ---------------------------------------------------------------------
  // Time stamps
  // ---------------------------------------------------------------------

  /**
   * The PTS of the pushed buffer: `pts * (GST_SECOND / (fps_num / fps_den))`,
   * with integer divisions and the product taken modulo 2^64.
   */
  function InputPts(pts: int, fpsNum: nat, fpsDen: nat): (t: Gst.ClockTime)
    requires fpsDen > 0 && fpsNum / fpsDen > 0
    ensures 0 <= pts && pts * (Gst.SECOND / (fpsNum / fpsDen)) < Machine.TWO_64 ==>
              t == pts * (Gst.SECOND / (fpsNum / fpsDen))
  {
    Machine.U64(pts * (Gst.SECOND / (fpsNum / fpsDen)))
  }

  /** At 30 fps every frame advances the PTS by 33333333 ns. */
  lemma InputPtsAt30Fps(n: nat)
    requires n < 1_000_000_000
    ensures InputPts(n, 30, 1) == n * 33_333_333
  {
  }

  /**
   * At 30000/1001 fps the integer frame rate is 29, so the PTS runs about
   * 3.4% fast: frame 29970 is stamped 29970 · 34482758 ns rather than 1001 s.
   */
  lemma InputPtsNtscRate()
    ensures InputPts(29970, 30000, 1001) == 29970 * 34_482_758
    ensures InputPts(29970, 30000, 1001) != 1001 * Gst.SECOND
  {
  }

  /** The offset: the first output buffer's PTS, taken only while it is still `GST_CLOCK_TIME_NONE`. */
  function NextOffset(offset: Gst.ClockTime, pts: Gst.ClockTime): (o: Gst.ClockTime)
    ensures offset != Gst.CLOCK_TIME_NONE ==> o == offset
    ensures offset == Gst.CLOCK_TIME_NONE ==> o == pts
  {
    if offset == Gst.CLOCK_TIME_NONE then pts else offset
  }

  /** `(int64_t)t - (int64_t)offset`. */
  function Rebased(t: Gst.ClockTime, offset: Gst.ClockTime): (r: int)
    ensures offset <= t < Machine.TWO_63 ==> r == t - offset
    ensures t == offset ==> r == 0
  {
    Machine.WrapI64(Machine.ToInt64(t) - Machine.ToInt64(offset))
  }

  // ---------------------------------------------------------------------
  // Codec data
  // ---------------------------------------------------------------------

  /** `nal_unit_type` 5: a coded slice of an IDR picture (section 7.4.1, Table 7-1 of ITU-T H.264). */
  const NAL_IDR: bv8 := 5

  /**
   * An Annex B start code `00 00 00 01` at `k` followed by an IDR NAL header.
   * Bytes past the end of the buffer never match.
   */
  predicate IdrStartAt(d: seq<bv8>, k: nat)
  {
    k + 4 < |d| && d[k] == 0 && d[k + 1] == 0 && d[k + 2] == 0 && d[k + 3] == 1 && d[k + 4] & 0x1F == NAL_IDR
  }

  /** The first IDR start code at or after `from`, or `|d|` when there is none. */
  function FirstIdr(d: seq<bv8>, from: nat): (k: nat)
    requires from <= |d|
    ensures from <= k <= |d|
    ensures k < |d| ==> IdrStartAt(d, k)
    ensures forall j :: from <= j < k ==> !IdrStartAt(d, j)
    decreases |d| - from
  {
    if from == |d| then |d|
    else if IdrStartAt(d, from) then from
    else FirstIdr(d, from + 1)
  }

  /** The first IDR start code is determined by its two defining properties. */
  lemma FirstIdrUnique(d: seq<bv8>, k: nat)
    requires k <= |d|
    requires k < |d| ==> IdrStartAt(d, k)
    requires forall j :: 0 <= j < k ==> !IdrStartAt(d, j)
    ensures FirstIdr(d, 0) == k
  {
    var f := FirstIdr(d, 0);
    assert !(f < k && IdrStartAt(d, f));
    assert !(k < f && IdrStartAt(d, k));
  }

  /** The scan loop of `gstreamer_encoder_encode`: the length of the codec-data prefix. */
  method ScanCodecData(d: seq<bv8>) returns (size: nat)
    ensures size <= |d|
    ensures size < |d| ==> IdrStartAt(d, size)
    ensures forall j :: 0 <= j < size ==> !IdrStartAt(d, j)
    ensures size == FirstIdr(d, 0)
  {
    size := 0;
    while size < |d|
      invariant size <= |d|
      invariant forall j :: 0 <= j < size ==> !IdrStartAt(d, j)
    {
      if size + 4 < |d| && d[size] == 0 && d[size + 1] == 0 && d[size + 2] == 0 && d[size + 3] == 1
         && d[size + 4] & 0x1F == NAL_IDR {
        break;
      }
      size := size + 1;
    }
    FirstIdrUnique(d, size);
  }

  /**
   * The codec data after one output buffer: kept once set; otherwise the
   * prefix before the first IDR start code. `g_memdup` of zero bytes is
   * NULL, so an empty prefix leaves the codec data unset.
   */
  function NextCodecData(codecData: Option<seq<bv8>>, d: seq<bv8>): (r: Option<seq<bv8>>)
    ensures codecData.Some? ==> r == codecData
    ensures codecData.None? && r.Some? ==>
              && |r.value| == FirstIdr(d, 0)
              && r.value == d[..|r.value|]
    ensures codecData.None? ==> (r.None? <==> FirstIdr(d, 0) == 0)
  {
    if codecData.Some? then codecData
    else
      var size := FirstIdr(d, 0);
      if size == 0 then None else Some(d[..size])
  }

  /** Given an IDR start code at `k > 0` with none before it, the codec data is exactly the `k` bytes before it. */
  lemma CodecDataBeforeIdr(d: seq<bv8>, k: nat)
    requires k > 0 && IdrStartAt(d, k)
    requires forall j :: 0 <= j < k ==> !IdrStartAt(d, j)
    ensures NextCodecData(None, d) == Some(d[..k])
  {
    FirstIdrUnique(d, k);
  }

  /** Without an IDR start code the whole (non-empty) buffer becomes the codec data. */
  lemma CodecDataWithoutIdr(d: seq<bv8>)
    requires |d| > 0 && forall j :: 0 <= j < |d| ==> !IdrStartAt(d, j)
    ensures NextCodecData(None, d) == Some(d)
  {
    assert d[..|d|] == d;
  }

  // ---------------------------------------------------------------------
  // Packets and the encoder state
  // ---------------------------------------------------------------------

  /** A sample pulled from the appsink: bytes, PTS, DTS and the DELTA_UNIT flag. */
  datatype Sample = Sample(data: seq<bv8>, pts: Gst.ClockTime, dts: Gst.ClockTime, deltaUnit: bool)

  /** The `encoder_packet` fields the encoder fills. */
  datatype Packet = Packet(
    data: seq<bv8>,
    size: nat,
    pts: int,
    dts: int,
    timebaseNum: nat,
    timebaseDen: nat,
    kind: Obs.EncoderType,
    keyframe: bool)

  /** The packet made from a sample once the offset is known. */
  function PacketOf(sample: Sample, offset: Gst.ClockTime): (p: Packet)
    ensures p.data == sample.data && p.size == |sample.data|
    ensures p.timebaseNum == Gst.SECOND && p.timebaseDen == 1
    ensures p.keyframe <==> !sample.deltaUnit
    ensures offset <= sample.pts < Machine.TWO_63 ==> p.pts == sample.pts - offset
    ensures offset <= sample.dts < Machine.TWO_63 ==> p.dts == sample.dts - offset
  {
    Packet(sample.data, |sample.data|, Rebased(sample.pts, offset), Rebased(sample.dts, offset),
           Gst.SECOND, 1, Obs.EncoderVideo, !sample.deltaUnit)
  }

  /** A buffer pushed into the appsrc: its PTS and its size. */
  datatype Pushed = Pushed(pts: Gst.ClockTime, size: nat)

  /** The value of one encoder instance (`data_t`). */
  datatype EncoderState = EncoderState(
    settings: EncoderSettings,
    ovi: OutputInfo,
    caps: RawCaps,
    stage: EncoderStage,
    pipe: Option<Gst.State>,
    offset: Gst.ClockTime,
    codecData: Option<seq<bv8>>,
    pushed: seq<Pushed>)

  /** The instance `gstreamer_encoder_create` returns after a successful parse. */
  function CreatedState(settings: EncoderSettings, ovi: OutputInfo): (s: EncoderState)
    requires ovi.fpsDen > 0
    ensures s.caps == RawCapsFor(ovi.format, ovi.width, ovi.height)
    ensures s.pipe == Some(Gst.Playing) && s.offset == Gst.CLOCK_TIME_NONE && s.codecData.None? && s.pushed == []
  {
    EncoderState(settings, ovi, RawCapsFor(ovi.format, ovi.width, ovi.height), StageFor(settings, ovi),
                 Some(Gst.Playing), Gst.CLOCK_TIME_NONE, None, [])
  }

  /** The state after one `gstreamer_encoder_encode` call that pushed a frame with PTS `pts`. */
  function EncodeSpec(s: EncoderState, pts: int, sample: Option<Sample>): (t: EncoderState)
    requires s.ovi.fpsDen > 0 && s.ovi.fpsNum / s.ovi.fpsDen > 0
    ensures t.pushed == s.pushed + [Pushed(InputPts(pts, s.ovi.fpsNum, s.ovi.fpsDen), s.caps.bufferSize)]
    ensures t.settings == s.settings && t.ovi == s.ovi && t.caps == s.caps && t.pipe == s.pipe
    ensures sample.None? ==> t.offset == s.offset && t.codecData == s.codecData
    ensures sample.Some? ==>
              t.offset == NextOffset(s.offset, sample.value.pts)
              && t.codecData == NextCodecData(s.codecData, sample.value.data)
  {
    var pushed := s.(pushed := s.pushed + [Pushed(InputPts(pts, s.ovi.fpsNum, s.ovi.fpsDen), s.caps.bufferSize)]);
    if sample.None? then pushed
    else pushed.(offset := NextOffset(s.offset, sample.value.pts),
                 codecData := NextCodecData(s.codecData, sample.value.data))
  }

  /** A run of encode calls: frame PTS and what the appsink had ready each time. */
  function EncodeRun(s: EncoderState, calls: seq<(int, Option<Sample>)>): (t: EncoderState)
    requires s.ovi.fpsDen > 0 && s.ovi.fpsNum / s.ovi.fpsDen > 0
    ensures t.settings == s.settings && t.ovi == s.ovi && t.caps == s.caps && t.pipe == s.pipe
    ensures |t.pushed| == |s.pushed| + |calls| && t.pushed[..|s.pushed|] == s.pushed
    ensures forall k :: |s.pushed| <= k < |t.pushed| ==>
              t.pushed[k] == Pushed(InputPts(calls[k - |s.pushed|].0, s.ovi.fpsNum, s.ovi.fpsDen), s.caps.bufferSize)
    decreases |calls|
  {
    if calls == [] then s
    else
      var s1 := EncodeSpec(s, calls[0].0, calls[0].1);
      var t := EncodeRun(s1, calls[1..]);
      assert t.pushed[..|s.pushed|] == t.pushed[..|s1.pushed|][..|s.pushed|];
      assert t.pushed[|s.pushed|] == t.pushed[..|s1.pushed|][|s.pushed|];
      t
  }

  /**
   * Once set, the offset and the codec data survive any further encode calls:
   * both are computed exactly once per instance.
   */
  lemma {:induction false} SetOnce(s: EncoderState, calls: seq<(int, Option<Sample>)>)
    requires s.ovi.fpsDen > 0 && s.ovi.fpsNum / s.ovi.fpsDen > 0
    ensures s.offset != Gst.CLOCK_TIME_NONE ==> EncodeRun(s, calls).offset == s.offset
    ensures s.codecData.Some? ==> EncodeRun(s, calls).codecData == s.codecData
    decreases |calls|
  {
    if calls != [] {
      SetOnce(EncodeSpec(s, calls[0].0, calls[0].1), calls[1..]);
    }
  }

  /** The first packet an instance emits has PTS 0, whatever its buffer's PTS. */
  lemma FirstPacketAtZero(s: EncoderState, sample: Sample)
    requires s.offset == Gst.CLOCK_TIME_NONE
    ensures PacketOf(sample, NextOffset(s.offset, sample.pts)).pts == 0
  {
  }

  // ---------------------------------------------------------------------
  // The instance record
  // ---------------------------------------------------------------------

  /** One encoder instance (`data_t`). */
  class Encoder {
    var settings: EncoderSettings
    var ovi: OutputInfo
    var caps: RawCaps
    var stage: EncoderStage
    var pipe: Option<Gst.State>
    var offset: Gst.ClockTime
    var codecData: Option<seq<bv8>>
    var pushed: seq<Pushed>

    /** The instance as a value. */
    function Snapshot(): EncoderState
      reads this
    {
      EncoderState(settings, ovi, caps, stage, pipe, offset, codecData, pushed)
    }

    /** The record filled by a successful `gstreamer_encoder_create`. */
    constructor (settings: EncoderSettings, ovi: OutputInfo)
      requires ovi.fpsDen > 0
      ensures Snapshot() == CreatedState(settings, ovi)
    {
      this.settings := settings;
      this.ovi := ovi;
      caps := RawCapsFor(ovi.format, ovi.width, ovi.height);
      stage := StageFor(settings, ovi);
      pipe := Some(Gst.Playing);
      offset := Gst.CLOCK_TIME_NONE;
      codecData := None;
      pushed := [];
    }

    /**
     * `gstreamer_encoder_create`: NULL when the pipeline description does
     * not parse, otherwise a playing instance.
     */
    static method Create(settings: EncoderSettings, ovi: OutputInfo, launch: Gst.Launch) returns (r: Option<Encoder>)
      requires ovi.fpsDen > 0
      ensures r.Some? <==> launch.Launched?
      ensures r.Some? ==> fresh(r.value) && r.value.Snapshot() == CreatedState(settings, ovi)
    {
      if launch.LaunchFailed? {
        return None;
      }
      var e := new Encoder(settings, ovi);
      r := Some(e);
    }

    /**
     * `gstreamer_encoder_encode`. `sample` is what
     * `gst_app_sink_try_pull_sample` returns, `receivedIn` the caller's
     * `*received_packet`; `buffer` is the buffer handed to the appsrc.
     */
    method Encode(frame: EncoderFrame, sample: Option<Sample>, receivedIn: bool)
      returns (ok: bool, received: bool, packet: Option<Packet>, buffer: array<bv8>)
      requires ovi.fpsDen > 0 && ovi.fpsNum / ovi.fpsDen > 0
      requires ValidFrame(frame, ovi.height, caps.bufferSize)
      modifies this
      ensures Snapshot() == EncodeSpec(old(Snapshot()), frame.pts, sample)
      ensures ok
      ensures received == (sample.Some? || receivedIn)
      ensures packet.Some? <==> sample.Some?
      ensures sample.Some? ==> packet.value == PacketOf(sample.value, offset)
      ensures buffer.Length == caps.bufferSize
      ensures forall p :: 0 <= p < |Packed(frame, ovi.height, caps.bufferSize)| ==>
                buffer[p] == Packed(frame, ovi.height, caps.bufferSize)[p]
    {
      buffer := FillBuffer(frame, ovi.height, caps.bufferSize);
      pushed := pushed + [Pushed(InputPts(frame.pts, ovi.fpsNum, ovi.fpsDen), caps.bufferSize)];
      ok := true;
      if sample.None? {
        received := receivedIn;
        packet := None;
        return;
      }
      received := true;
      var s := sample.value;
      if offset == Gst.CLOCK_TIME_NONE {
        offset := s.pts;
      }
      if codecData.None? {
        var size := ScanCodecData(s.data);
        codecData := if size == 0 then None else Some(s.data[..size]);
      }
      packet := Some(PacketOf(s, offset));
    }

    /** `gstreamer_encoder_get_extra_data`. */
    method GetExtraData() returns (found: bool, extra: seq<bv8>, size: nat)
      ensures found <==> codecData.Some?
      ensures found ==> extra == codecData.value && size == |extra|
    {
      if codecData.None? {
        return false, [], 0;
      }
      found, extra, size := true, codecData.value, |codecData.value|;
    }

    /** `gstreamer_encoder_update`: settings changes are accepted and ignored. */
    method Update(newSettings: EncoderSettings) returns (ok: bool)
      ensures ok
    {
      ok := true;
    }

    /** `gstreamer_encoder_destroy`: stop and release the pipeline. */
    method Destroy()
      modifies this
      ensures Snapshot() == old(Snapshot()).(pipe := None)
    {
      pipe := None;
    }
  }
}
