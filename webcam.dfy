/** What the three webcam sphere pages share: the webcam start-up that
    gates everything else, the reduction of one 320x240 RGBA video frame to
    a mean brightness in [0, 1], and the mapping of that brightness to a
    sphere scale in [0, 5]. The three pages carry identical copies of
    `initWebcam` and `analyzeVideoFrame`. */
module Webcam {

  /** One entry of a canvas pixel array. */
  newtype byte = x: int | 0 <= x < 256

  const Width: nat := 320
  const Height: nat := 240
  const Pixels: nat := 76800
  /** Four entries (R, G, B, A) per pixel. */
  const FrameLength: nat := 307200
  /** The `HAVE_ENOUGH_DATA` ready state of a media element. */
  const HaveEnoughData: int := 4
  const MaxScale: real := 5.0

  /** The page's `video` element: not created yet, or created with its
      current ready state. */
  datatype Video = NoVideo | Video(readyState: int)

  /** The brightness of pixel p: the mean of its R, G and B entries; the
      alpha entry is not read. */
  function PixelBrightness(data: seq<byte>, p: nat): (r: real)
    requires 4 * p + 2 < |data|
    ensures 0.0 <= r <= 255.0
  {
    (data[4 * p] as real + data[4 * p + 1] as real + data[4 * p + 2] as real) / 3.0
  }

  /** The brightness summed over the first n pixels. */
  function RgbTotal(data: seq<byte>, n: nat): (r: real)
    requires 4 * n <= |data|
    ensures 0.0 <= r <= 255.0 * n as real
  {
    if n == 0 then 0.0 else RgbTotal(data, n - 1) + PixelBrightness(data, n - 1)
  }

  /** The mean pixel brightness of a whole frame, scaled to [0, 1]. */
  function Brightness(data: seq<byte>): (r: real)
    requires |data| == FrameLength
    ensures 0.0 <= r <= 1.0
  {
    RgbTotal(data, Pixels) / (Width * Height) as real / 255.0
  }

  /** The frame can be read only when the video exists and has enough data. */
  predicate Ready(video: Video)
  {
    video.Video? && video.readyState == HaveEnoughData
  }

  /** The value `analyzeVideoFrame` returns: 0 when the frame cannot be
      read, the frame's brightness otherwise. `data` is what the canvas
      would hand back for the current video frame. */
  function FrameBrightness(video: Video, data: seq<byte>): (r: real)
    requires |data| == FrameLength
    ensures 0.0 <= r <= 1.0
    ensures !Ready(video) ==> r == 0.0
  {
    if !Ready(video) then 0.0 else Brightness(data)
  }

  /** `analyzeVideoFrame`: the strided loop over the pixel array, four
      entries at a time, summing each pixel's RGB mean. */
  method AnalyzeVideoFrame(video: Video, data: seq<byte>) returns (brightness: real)
    requires |data| == FrameLength
    ensures brightness == FrameBrightness(video, data)
    ensures 0.0 <= brightness <= 1.0
  {
    if video.NoVideo? || video.readyState != HaveEnoughData {
      return 0.0;
    }
    var totalBrightness := 0.0;
    var i := 0;
    ghost var p := 0;
    while i < |data|
      invariant 0 <= p <= Pixels && i == 4 * p
      invariant totalBrightness == RgbTotal(data, p)
    {
      var r := data[i];
      var g := data[i + 1];
      var b := data[i + 2];
      totalBrightness := totalBrightness + (r as real + g as real + b as real) / 3.0;
      i, p := i + 4, p + 1;
    }
    var avgBrightness := totalBrightness / (Width * Height) as real;
    brightness := avgBrightness / 255.0;
  }

  /** Two frames that agree on every R, G and B entry have the same total,
      whatever their alpha entries. */
  lemma {:induction false} RgbTotalIgnoresAlpha(d1: seq<byte>, d2: seq<byte>, n: nat)
    requires 4 * n <= |d1| && 4 * n <= |d2|
    requires forall p :: 0 <= p < n ==>
               d1[4 * p] == d2[4 * p] && d1[4 * p + 1] == d2[4 * p + 1] && d1[4 * p + 2] == d2[4 * p + 2]
    ensures RgbTotal(d1, n) == RgbTotal(d2, n)
  {
    if n > 0 {
      RgbTotalIgnoresAlpha(d1, d2, n - 1);
    }
  }

  /** ... hence the same brightness: alpha does not contribute. */
  lemma AlphaIgnored(d1: seq<byte>, d2: seq<byte>)
    requires |d1| == FrameLength && |d2| == FrameLength
    requires forall p :: 0 <= p < Pixels ==>
               d1[4 * p] == d2[4 * p] && d1[4 * p + 1] == d2[4 * p + 1] && d1[4 * p + 2] == d2[4 * p + 2]
    ensures Brightness(d1) == Brightness(d2)
  {
    RgbTotalIgnoresAlpha(d1, d2, Pixels);
  }

  /** Every R, G and B entry of pixel p, for p below n, equals v. */
  predicate UniformRgb(data: seq<byte>, n: nat, v: byte)
    requires 4 * n <= |data|
  {
    forall p :: 0 <= p < n ==> data[4 * p] == v && data[4 * p + 1] == v && data[4 * p + 2] == v
  }

  /** A uniform frame sums to n times its value. */
  lemma {:induction false} RgbTotalUniform(data: seq<byte>, n: nat, v: byte)
    requires 4 * n <= |data| && UniformRgb(data, n, v)
    requires v == 0 || v == 255
    ensures RgbTotal(data, n) == if v == 0 then 0.0 else 255.0 * n as real
  {
    if n > 0 {
      RgbTotalUniform(data, n - 1, v);
    }
  }

  /** A black frame (every R, G and B entry 0) has brightness 0. */
  lemma BlackFrame(data: seq<byte>)
    requires |data| == FrameLength && UniformRgb(data, Pixels, 0)
    ensures Brightness(data) == 0.0
  {
    RgbTotalUniform(data, Pixels, 0);
  }

  /** A white frame (every R, G and B entry 255) has brightness 1. */
  lemma WhiteFrame(data: seq<byte>)
    requires |data| == FrameLength && UniformRgb(data, Pixels, 255)
    ensures Brightness(data) == 1.0
  {
    RgbTotalUniform(data, Pixels, 255);
  }

  /** The sphere scale a brightness asks for: from 0 for black to 5 for
      white, in proportion. */
  function TargetScale(brightness: real): (r: real)
    ensures 0.0 <= brightness <= 1.0 ==> 0.0 <= r <= MaxScale
    ensures brightness == 0.0 ==> r == 0.0
    ensures brightness == 1.0 ==> r == MaxScale
  {
    brightness * 5.0
  }

  /** A brighter frame never asks for a smaller sphere. */
  lemma TargetScaleMonotone(b1: real, b2: real)
    requires b1 <= b2
    ensures TargetScale(b1) <= TargetScale(b2)
  {
  }

  /** How the `getUserMedia` request ends. */
  datatype MediaOutcome = Granted | Failed(message: string)

  /** The text `initWebcam` puts in the info element on failure. */
  const FailurePrefix: string := "\U{c6f9}\U{cea0} \U{c811}\U{adfc} \U{c2e4}\U{d328}: "

  /** What `initWebcam` resolves to, and the info text it leaves. */
  datatype InitResult = InitResult(ok: bool, info: string)

  /** `initWebcam`: true when the camera was granted; otherwise false, with
      the error's message shown after the failure prefix. */
  function InitWebcam(outcome: MediaOutcome): (r: InitResult)
    ensures r.ok <==> outcome.Granted?
    ensures outcome.Failed? ==> r.info == FailurePrefix + outcome.message
  {
    match outcome
    case Granted => InitResult(true, "")
    case Failed(message) => InitResult(false, FailurePrefix + message)
  }
}
