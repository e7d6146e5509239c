/** The prober's codec names that map to an ImageMagick format: only "apng". */
module FFmpegCodecMap {
  import opened Wrappers
  import opened ExtMapping

  const FFmpegMapping: map<string, string> := map["apng" := APng]

  /** `FFmpegMapping[codecName]`, undefined for every name but "apng". */
  function FormatOfCodec(codecName: string): (r: Option<string>)
    ensures r.Some? <==> codecName == "apng"
    ensures r.Some? ==> r.value == APng
  {
    if codecName in FFmpegMapping then Some(FFmpegMapping[codecName]) else None
  }

  /** Lookup is by exact string: other spellings of the codec name are unmapped. */
  lemma CodecLookupExact()
    ensures FormatOfCodec("apng") == Some(APng)
    ensures FormatOfCodec("APNG").None? && FormatOfCodec("png").None?
  {
  }

  /** No codec maps to the "UNKNOWN" sentinel. */
  lemma CodecNeverUnknown(codecName: string)
    ensures FormatOfCodec(codecName) != Some(UnknownFormat)
  {
  }
}
