/**
 * The upload classification cascade: the primary decoder's verdict, the
 * animated-PNG override, and the prober stage that maps the first video
 * stream's codec to a format. Decoder and prober results are inputs.
 */
module Classify {
  import opened Wrappers
  import opened Text
  import opened ByteSearch
  import opened ExtMapping
  import opened FFmpegCodecMap

  /** What `ImageMagick.read` reports: a format and dimensions, or an exception. */
  datatype Decoded = Decoded(format: string, width: int, height: int) | DecodeThrew

  /** One entry of the prober's `streams`. */
  datatype Stream = Stream(codecType: string, codecName: string, width: Option<int>, height: Option<int>)

  /** What `ffprobeExec` yields: the streams it found, or an exception. */
  datatype Probe = Probed(streams: seq<Stream>) | ProbeThrew

  /** A format with dimensions, or the 400 "Invalid image" rejection. */
  datatype Classification = Classified(format: string, width: int, height: int) | Rejected

  /** The ASCII chunk tags "IDAT" and "acTL". */
  const Idat: Bytes := [0x49, 0x44, 0x41, 0x54]
  const AcTL: Bytes := [0x61, 0x63, 0x54, 0x4C]

  /**
   * Both tags occur and the first "acTL" comes before the first "IDAT": the
   * byte-search reading of the rule that an animated PNG's control chunk
   * precedes its image data (section 11.3.6 of the W3C PNG Third Edition).
   */
  predicate AnimationControlFirst(data: Bytes) {
    var idatPos := IndexOf(data, Idat);
    var actlPos := IndexOf(data, AcTL);
    actlPos != -1 && idatPos != -1 && actlPos < idatPos
  }

  predicate IsVideo(s: Stream) {
    s.codecType == "video"
  }

  /** The index of the first video stream at or after `from`. */
  function FirstVideoFrom(streams: seq<Stream>, from: nat): (r: Option<nat>)
    ensures r.Some? ==> from <= r.value < |streams| && IsVideo(streams[r.value])
    ensures r.Some? ==> forall j :: from <= j < r.value ==> !IsVideo(streams[j])
    ensures r.None? ==> forall j :: from <= j < |streams| ==> !IsVideo(streams[j])
    decreases |streams| - from
  {
    if from >= |streams| then None
    else if IsVideo(streams[from]) then Some(from)
    else FirstVideoFrom(streams, from + 1)
  }

  /** `streams.find(x => x.codec_type === "video")`, as an index. */
  function FirstVideo(streams: seq<Stream>): (r: Option<nat>)
    ensures r.Some? <==> exists i :: 0 <= i < |streams| && IsVideo(streams[i])
    ensures r.Some? ==>
      && r.value < |streams|
      && IsVideo(streams[r.value])
      && forall j :: 0 <= j < r.value ==> !IsVideo(streams[j])
  {
    FirstVideoFrom(streams, 0)
  }

  /**
   * The prober stage: reject when probing throws, when there is no video
   * stream, or when the first video stream's codec is unmapped or its width
   * or height is missing or 0; otherwise that stream's format and size.
   */
  function ProbeStage(p: Probe): (r: Classification)
    ensures r.Classified? <==>
      && p.Probed?
      && FirstVideo(p.streams).Some?
      && var s := p.streams[FirstVideo(p.streams).value];
         s.codecName == "apng" && s.width.GetOr(0) != 0 && s.height.GetOr(0) != 0
    ensures r.Classified? ==>
      var s := p.streams[FirstVideo(p.streams).value];
      r == Classified(APng, s.width.value, s.height.value)
  {
    match p
    case ProbeThrew => Rejected
    case Probed(streams) =>
      match FirstVideo(streams)
      case None => Rejected
      case Some(i) =>
        var s := streams[i];
        var format := FormatOfCodec(s.codecName);
        var width := s.width.GetOr(0);
        var height := s.height.GetOr(0);
        if format.None? || width == 0 || height == 0 then Rejected
        else Classified(format.value, width, height)
  }

  /** The prober is consulted when decoding throws, or when a PNG looks animated. */
  predicate RetryWithProber(d: Decoded, data: Bytes) {
    d.DecodeThrew? || (d.format == Png && AnimationControlFirst(data))
  }

  /** The cascade of upload-image lines 52-121; "UNKNOWN" is always rejected. */
  function Classify(d: Decoded, data: Bytes, p: Probe): (r: Classification)
    ensures r.Classified? ==> r.format != UnknownFormat
  {
    var m := if RetryWithProber(d, data) then ProbeStage(p) else Classified(d.format, d.width, d.height);
    if m.Classified? && m.format == UnknownFormat then Rejected else m
  }

  /** A decoded format other than PNG, or a PNG whose tags are not in animated order, is kept as decoded. */
  lemma PrimaryVerdictKept(d: Decoded, data: Bytes, p: Probe)
    requires d.Decoded? && d.format != UnknownFormat
    requires d.format != Png || !AnimationControlFirst(data)
    ensures Classify(d, data, p) == Classified(d.format, d.width, d.height)
  {
  }

  /** The primary decoder's "UNKNOWN" is rejected. */
  lemma UnknownRejected(width: int, height: int, data: Bytes, p: Probe)
    ensures Classify(Decoded(UnknownFormat, width, height), data, p) == Rejected
  {
  }

  /** Whenever the prober is consulted, the outcome is the prober stage's. */
  lemma ProberDecides(d: Decoded, data: Bytes, p: Probe)
    requires RetryWithProber(d, data)
    ensures Classify(d, data, p) == ProbeStage(p)
  {
  }

  /** The prober is consulted only when needed: otherwise its result does not matter. */
  lemma ProberIgnoredOtherwise(d: Decoded, data: Bytes, p1: Probe, p2: Probe)
    requires !RetryWithProber(d, data)
    ensures Classify(d, data, p1) == Classify(d, data, p2)
  {
  }

  /** Bytes whose "acTL" precedes "IDAT" are never classified as plain PNG, even when the decoder says PNG. */
  lemma AnimatedPngNeverPlainPng(width: int, height: int, data: Bytes, p: Probe)
    requires AnimationControlFirst(data)
    ensures Classify(Decoded(Png, width, height), data, p).Classified? ==>
      Classify(Decoded(Png, width, height), data, p).format == APng
  {
  }

  /** "IDAT" has no border, so two of its occurrences cannot overlap. */
  lemma IdatOccurrencesDisjoint(data: Bytes, i: int, j: int)
    requires OccursAt(data, Idat, i) && OccursAt(data, Idat, j) && i < j
    ensures i + 4 <= j
  {
    assert forall k :: 1 <= k < 4 ==> Idat[k] != Idat[0];
    assert forall k :: 0 <= k < 4 ==> data[i + k] == Idat[k];
    assert data[j] == Idat[0];
  }

  /** "acTL" followed by the first "IDAT" is detected as animated, whatever surrounds them. */
  lemma {:induction false} AnimatedOrderDetected(pre: Bytes, mid: Bytes)
    requires forall j :: !OccursAt(pre + AcTL + mid, Idat, j)
    ensures AnimationControlFirst(pre + AcTL + mid + Idat)
  {
    var data := pre + AcTL + mid + Idat;
    var a := |pre|;
    var b := |pre| + 4 + |mid|;
    assert data[a..a + 4] == AcTL;
    assert OccursAt(data, AcTL, a);
    assert data[b..b + 4] == Idat;
    assert OccursAt(data, Idat, b);
    var actlPos := IndexOf(data, AcTL);
    var idatPos := IndexOf(data, Idat);
    assert actlPos <= a;
    if idatPos < b {
      IdatOccurrencesDisjoint(data, idatPos, b);
      assert data[..b] == pre + AcTL + mid;
      assert data[idatPos..idatPos + 4] == (pre + AcTL + mid)[idatPos..idatPos + 4];
      assert OccursAt(pre + AcTL + mid, Idat, idatPos);
    }
  }
}
