/**
 * The delivery lookup tables: URL extension to image format, the preferred
 * output formats, and format to MIME type. Formats are ImageMagick's format
 * names.
 */
module ExtMapping {
  import opened Wrappers
  import opened Text

  const Jxl: string := "JXL"
  const WebP: string := "WEBP"
  const Png: string := "PNG"
  const Jpeg: string := "JPEG"
  const Gif: string := "GIF"
  const APng: string := "APNG"
  const Svg: string := "SVG"
  const UnknownFormat: string := "UNKNOWN"

  const Extensions: map<string, string> := map[
    ".jxl" := Jxl,
    ".webp" := WebP,
    ".png" := Png,
    ".jpg" := Jpeg,
    ".gif" := Gif
  ]

  const PriorityFormat: seq<string> := [Jxl, WebP, Jpeg]

  const FormatToMIME: map<string, string> := map[
    Jxl := "image/jxl",
    WebP := "image/webp",
    Png := "image/png",
    Jpeg := "image/jpeg",
    Gif := "image/gif"
  ]

  /** `ExtMapping[ext.toLowerCase()]`: the format an extension asks for, in any letter case. */
  function FormatOfExt(ext: string): (r: Option<string>)
    ensures r.Some? <==> Lower(ext) in Extensions
    ensures r.Some? ==> r.value == Extensions[Lower(ext)] && r.value in FormatToMIME
  {
    var key := Lower(ext);
    if key in Extensions then Some(Extensions[key]) else None
  }

  /** Exactly five extensions are served, each naming its own format. */
  lemma ExtensionTable()
    ensures Extensions.Keys == {".jxl", ".webp", ".png", ".jpg", ".gif"}
    ensures Extensions[".jxl"] == Jxl && Extensions[".webp"] == WebP && Extensions[".png"] == Png
    ensures Extensions[".jpg"] == Jpeg && Extensions[".gif"] == Gif
    ensures ".jpeg" !in Extensions
  {
  }

  /** Distinct extensions name distinct formats. */
  lemma ExtensionsInjective(e1: string, e2: string)
    requires e1 in Extensions && e2 in Extensions && e1 != e2
    ensures Extensions[e1] != Extensions[e2]
  {
  }

  /** Every served format has a MIME type, so the delivery content-type lookup is defined. */
  lemma ExtensionFormatsHaveMIME(ext: string)
    requires ext in Extensions
    ensures Extensions[ext] in FormatToMIME
  {
  }

  /**
   * Every key is lower-case and is a dot followed by letters, so the
   * lower-cased lookup reaches all of them and a key is a file extension.
   */
  lemma ExtensionKeysLowerDotted(ext: string)
    requires ext in Extensions
    ensures |ext| > 1 && ext[0] == '.' && IsLowerCase(ext) && Lower(ext) == ext
    ensures forall i :: 1 <= i < |ext| ==> 'a' <= ext[i] <= 'z'
  {
  }

  /** Each preferred format is one the extension table serves. */
  lemma PriorityFormatsServed(i: int)
    requires 0 <= i < |PriorityFormat|
    ensures PriorityFormat[i] in Extensions.Values
  {
    assert Extensions[".jxl"] == Jxl && Extensions[".webp"] == WebP && Extensions[".jpg"] == Jpeg;
  }

  /** Lookup ignores letter case: ".PNG" and ".png" ask for the same format. */
  lemma FormatOfExtCaseInsensitive(a: string, b: string)
    requires Lower(a) == Lower(b)
    ensures FormatOfExt(a) == FormatOfExt(b)
  {
  }
}
