/**
 * `processImage`: convert (and perhaps resize) stored bytes to a target
 * format. The codecs are oracles; what is modelled is which branch runs,
 * which codec calls it makes and in what order, when a resize is asked for,
 * the single ffmpeg fallback, and the temporary file it leaves behind.
 */
module Process {
  import opened Wrappers
  import opened Text
  import opened ExtMapping

  /** A decoded image as the read callback sees it. */
  datatype Raster = Raster(width: int, height: int, pixels: Bytes)

  /** How the ffmpeg child ended: it failed to spawn, or it closed having written the temp file or not. */
  datatype FfmpegExit = SpawnFailed | Exited(written: Option<Bytes>)

  /**
   * The foreign codecs. A `None` result stands for an exception.
   * - read: `ImageMagick.read(bytes[, format])`
   * - resize: `image.resize(width, 0)`
   * - write: `image.write(format)`
   * - renderSvg: `new Resvg(svg, fitTo).render().asPng()`
   * - ffmpeg: `ffmpeg -i - -lossless 1 -quality 0 <tmp>.webp`
   */
  datatype Codecs = Codecs(
    read: (Bytes, Option<string>) -> Option<Raster>,
    resize: (Raster, int) -> Option<Raster>,
    write: (Raster, string) -> Option<Bytes>,
    renderSvg: (Bytes, Option<int>) -> Option<Bytes>,
    ffmpeg: Bytes -> FfmpegExit)

  /** One observable step of a conversion. */
  datatype Step =
    | RenderSvg(fitWidth: Option<int>)
    | Read(format: Option<string>)
    | Resize(width: int)
    | Write(target: string)
    | Dispose
    | SpawnFfmpeg
    | ReadTemp
    | RemoveTemp

  /**
   * Why a conversion threw: an exception escaping the SVG renderer or the
   * read of its PNG; "Failed to render SVG."; "Failed to render image.".
   */
  datatype ConvError = SvgThrew | SvgEncodeFailed | RenderFailed

  /** A conversion's outcome and the steps it took. */
  datatype Run = Run(result: Result<Bytes, ConvError>, steps: seq<Step>)

  /**
   * The output of one read-resize-write callback and its steps: `None` when
   * reading threw, when the resize threw out of the callback, or when writing
   * threw and the callback returned `null`.
   */
  datatype Attempt = Attempt(output: Option<Bytes>, steps: seq<Step>)

  /** `width` is truthy: given and not 0. */
  predicate WidthGiven(width: Option<int>) {
    width.Some? && width.value != 0
  }

  /** Same format and no resize needed: the input is returned as it is. */
  predicate FastPath(source: string, target: string, sourceWidth: int, width: Option<int>) {
    source == target && (!WidthGiven(width) || sourceWidth == width.value)
  }

  predicate NoResize(steps: seq<Step>) {
    forall i :: 0 <= i < |steps| ==> !steps[i].Resize?
  }

  predicate Spawned(steps: seq<Step>) {
    exists i :: 0 <= i < |steps| && steps[i] == SpawnFfmpeg
  }

  /** A resize is needed for this decoded image and `image.resize` throws. */
  predicate ResizeThrows(c: Codecs, image: Raster, width: Option<int>) {
    WidthGiven(width) && image.width != width.value && c.resize(image, width.value).None?
  }

  /**
   * The read callback: decode, resize to `width` when it is given and differs
   * from the decoded width, write the target format, then dispose. The
   * resize runs before the inner `try`, so when it throws the callback
   * neither writes nor disposes and the exception leaves the read.
   */
  function EncodeAttempt(c: Codecs, input: Bytes, format: Option<string>, target: string, width: Option<int>): (a: Attempt)
    ensures |a.steps| >= 1 && a.steps[0] == Read(format)
    ensures forall i :: 0 <= i < |a.steps| && a.steps[i].Resize? ==> WidthGiven(width) && a.steps[i].width == width.value
    ensures forall i :: 0 <= i < |a.steps| && a.steps[i].Write? ==> i + 1 < |a.steps| && a.steps[i + 1] == Dispose
    ensures forall i :: 0 <= i < |a.steps| ==> a.steps[i] != SpawnFfmpeg && a.steps[i] != RemoveTemp
    ensures a.output.Some? ==>
      && c.read(input, format).Some? && !ResizeThrows(c, c.read(input, format).value, width)
      && a.steps[|a.steps| - 1] == Dispose
    ensures c.read(input, format).Some? && ResizeThrows(c, c.read(input, format).value, width) ==>
      a == Attempt(None, [Read(format), Resize(width.value)])
    ensures c.read(input, format).None? ==> a == Attempt(None, [Read(format)])
    ensures c.read(input, format).Some? && !ResizeThrows(c, c.read(input, format).value, width) ==>
      var image := c.read(input, format).value;
      var decoded := if WidthGiven(width) && image.width != width.value then c.resize(image, width.value).value else image;
      a.output == c.write(decoded, target)
  {
    match c.read(input, format)
    case None => Attempt(None, [Read(format)])
    case Some(image) =>
      if WidthGiven(width) && image.width != width.value then
        match c.resize(image, width.value)
        case None => Attempt(None, [Read(format), Resize(width.value)])
        case Some(resized) => Attempt(c.write(resized, target), [Read(format), Resize(width.value), Write(target), Dispose])
      else
        Attempt(c.write(image, target), [Read(format), Write(target), Dispose])
  }

  /** The SVG branch: render (fit to width when one is given), read the PNG, write the target. No fallback. */
  function SvgRun(c: Codecs, blob: Bytes, target: string, width: Option<int>): Run {
    var fit := if WidthGiven(width) then width else None;
    match c.renderSvg(blob, fit)
    case None => Run(Err(SvgThrew), [RenderSvg(fit)])
    case Some(png) =>
      match c.read(png, None)
      case None => Run(Err(SvgThrew), [RenderSvg(fit), Read(None)])
      case Some(image) =>
        var steps := [RenderSvg(fit), Read(None), Write(target), Dispose];
        match c.write(image, target)
        case None => Run(Err(SvgEncodeFailed), steps)
        case Some(out) => Run(Ok(out), steps)
  }

  /** The fallback: ffmpeg writes a lossless WebP temp file, which is read back and encoded once more. */
  function FallbackRun(c: Codecs, blob: Bytes, target: string, width: Option<int>): Run {
    match c.ffmpeg(blob)
    case SpawnFailed => Run(Err(RenderFailed), [SpawnFfmpeg, RemoveTemp])
    case Exited(None) => Run(Err(RenderFailed), [SpawnFfmpeg, ReadTemp, RemoveTemp])
    case Exited(Some(webp)) =>
      var a := EncodeAttempt(c, webp, Some(WebP), target, width);
      var result := if a.output.Some? then Ok(a.output.value) else Err(RenderFailed);
      Run(result, [SpawnFfmpeg, ReadTemp] + a.steps + [RemoveTemp])
  }

  /** `processImage(blob, source, target, sourceWidth, width)`. */
  function Convert(c: Codecs, blob: Bytes, source: string, target: string, sourceWidth: int, width: Option<int>): (r: Run)
    ensures r.steps == [] <==> FastPath(source, target, sourceWidth, width)
    ensures r.result.Err? ==> (r.result.error == RenderFailed <==> source != Svg)
  {
    if FastPath(source, target, sourceWidth, width) then Run(Ok(blob), [])
    else if source == Svg then SvgRun(c, blob, target, width)
    else
      var first := EncodeAttempt(c, blob, Some(source), target, width);
      if first.output.Some? then Run(Ok(first.output.value), first.steps)
      else
        var fallback := FallbackRun(c, blob, target, width);
        Run(fallback.result, first.steps + fallback.steps)
  }

  /** The operating system's temporary directory. */
  class TempDir {
    var files: map<string, Bytes>

    constructor ()
      ensures files == map[]
    {
      files := map[];
    }

    method Put(path: string, data: Bytes)
      modifies this
      ensures files == old(files)[path := data]
    {
      files := files[path := data];
    }

    /** `fs.promises.rm(path, { force: true })`. */
    method Remove(path: string)
      modifies this
      ensures files == old(files) - {path}
    {
      files := files - {path};
    }
  }

  /**
   * `processImage` step by step. The temporary path is fresh (a timestamp and
   * a random suffix); whatever happens, the directory is left as it was found.
   */
  method ProcessImage(c: Codecs, tmp: TempDir, tmpPath: string, blob: Bytes, source: string, target: string,
                      sourceWidth: int, width: Option<int>) returns (result: Result<Bytes, ConvError>, steps: seq<Step>)
    requires tmpPath !in tmp.files
    modifies tmp
    ensures Run(result, steps) == Convert(c, blob, source, target, sourceWidth, width)
    ensures tmp.files == old(tmp.files)
  {
    if FastPath(source, target, sourceWidth, width) {
      return Ok(blob), [];
    }
    if source == Svg {
      var run := SvgRun(c, blob, target, width);
      return run.result, run.steps;
    }
    var first := EncodeAttempt(c, blob, Some(source), target, width);
    steps := first.steps;
    if first.output.Some? {
      return Ok(first.output.value), steps;
    }
    // try: spawn ffmpeg, wait for it, read the temp file back
    steps := steps + [SpawnFfmpeg];
    var exit := c.ffmpeg(blob);
    if exit.Exited? && exit.written.Some? {
      tmp.Put(tmpPath, exit.written.value);
    }
    if exit.SpawnFailed? {
      result := Err(RenderFailed);
    } else {
      steps := steps + [ReadTemp];
      if tmpPath !in tmp.files {
        result := Err(RenderFailed);
      } else {
        var retry := EncodeAttempt(c, tmp.files[tmpPath], Some(WebP), target, width);
        steps := steps + retry.steps;
        result := if retry.output.Some? then Ok(retry.output.value) else Err(RenderFailed);
      }
    }
    // finally: remove the temp file
    tmp.Remove(tmpPath);
    steps := steps + [RemoveTemp];
    assert tmp.files == old(tmp.files);
  }

  /** Same format and no differing width: the bytes come back unchanged and no codec runs, SVG included. */
  lemma FastPathIsIdentity(c: Codecs, blob: Bytes, format: string, sourceWidth: int, width: Option<int>)
    requires !WidthGiven(width) || width.value == sourceWidth
    ensures Convert(c, blob, format, format, sourceWidth, width) == Run(Ok(blob), [])
  {
  }

  /** An SVG source never reaches ffmpeg; its failures are the renderer's or "Failed to render SVG.". */
  lemma SvgNeverFallsBack(c: Codecs, blob: Bytes, target: string, sourceWidth: int, width: Option<int>)
    requires !FastPath(Svg, target, sourceWidth, width)
    ensures var run := Convert(c, blob, Svg, target, sourceWidth, width);
      && !Spawned(run.steps)
      && (run.result.Err? ==> run.result.error != RenderFailed)
      && |run.steps| >= 1 && run.steps[0] == RenderSvg(if WidthGiven(width) then width else None)
  {
  }

  /** A resize is made only to the requested width, and never when no width is requested. */
  lemma ResizeOnlyAsRequested(c: Codecs, blob: Bytes, source: string, target: string, sourceWidth: int, width: Option<int>)
    ensures var steps := Convert(c, blob, source, target, sourceWidth, width).steps;
      forall i :: 0 <= i < |steps| && steps[i].Resize? ==> WidthGiven(width) && steps[i].width == width.value
  {
    var run := Convert(c, blob, source, target, sourceWidth, width);
    if !FastPath(source, target, sourceWidth, width) && source != Svg {
      var first := EncodeAttempt(c, blob, Some(source), target, width);
      if first.output.None? {
        match c.ffmpeg(blob)
        case SpawnFailed =>
        case Exited(None) =>
        case Exited(Some(webp)) =>
          var a := EncodeAttempt(c, webp, Some(WebP), target, width);
          assert run.steps == first.steps + ([SpawnFfmpeg, ReadTemp] + a.steps + [RemoveTemp]);
      }
    }
  }

  /** The raster path resizes exactly when a width is given and the decoded image has another width. */
  lemma RasterResizeCondition(c: Codecs, blob: Bytes, source: string, target: string, sourceWidth: int, width: Option<int>)
    requires !FastPath(source, target, sourceWidth, width) && source != Svg
    requires c.read(blob, Some(source)).Some?
    ensures var steps := Convert(c, blob, source, target, sourceWidth, width).steps;
      (steps[1] == Resize(width.GetOr(0)))
        <==> (WidthGiven(width) && c.read(blob, Some(source)).value.width != width.value)
  {
  }

  /**
   * The first attempt's output is returned as it is, with no fallback: a
   * successful read, any needed resize and write on the raster path succeed.
   */
  lemma FirstAttemptServes(c: Codecs, blob: Bytes, source: string, target: string, sourceWidth: int, width: Option<int>)
    requires !FastPath(source, target, sourceWidth, width) && source != Svg
    requires EncodeAttempt(c, blob, Some(source), target, width).output.Some?
    ensures var first := EncodeAttempt(c, blob, Some(source), target, width);
      var run := Convert(c, blob, source, target, sourceWidth, width);
      && run == Run(Ok(first.output.value), first.steps)
      && !Spawned(run.steps)
  {
  }

  /** An SVG whose rendering, reading and writing all succeed converts to the written bytes. */
  lemma SvgSucceeds(c: Codecs, blob: Bytes, target: string, sourceWidth: int, width: Option<int>)
    requires !FastPath(Svg, target, sourceWidth, width)
    requires var fit := if WidthGiven(width) then width else None;
      && c.renderSvg(blob, fit).Some?
      && c.read(c.renderSvg(blob, fit).value, None).Some?
      && c.write(c.read(c.renderSvg(blob, fit).value, None).value, target).Some?
    ensures var fit := if WidthGiven(width) then width else None;
      Convert(c, blob, Svg, target, sourceWidth, width).result
        == Ok(c.write(c.read(c.renderSvg(blob, fit).value, None).value, target).value)
  {
  }

  /**
   * When the first attempt produced nothing, ffmpeg wrote the temp file and
   * re-encoding it succeeded, the conversion returns the re-encoded bytes.
   */
  lemma FallbackServes(c: Codecs, blob: Bytes, source: string, target: string, sourceWidth: int, width: Option<int>)
    requires !FastPath(source, target, sourceWidth, width) && source != Svg
    requires EncodeAttempt(c, blob, Some(source), target, width).output.None?
    requires c.ffmpeg(blob).Exited? && c.ffmpeg(blob).written.Some?
    requires EncodeAttempt(c, c.ffmpeg(blob).written.value, Some(WebP), target, width).output.Some?
    ensures Convert(c, blob, source, target, sourceWidth, width).result
      == Ok(EncodeAttempt(c, c.ffmpeg(blob).written.value, Some(WebP), target, width).output.value)
  {
  }

  /**
   * The fallback runs exactly when the first attempt produced nothing (the
   * read threw, a needed resize threw, or the write threw), and at most once.
   */
  lemma FallbackAtMostOnce(c: Codecs, blob: Bytes, source: string, target: string, sourceWidth: int, width: Option<int>)
    ensures var run := Convert(c, blob, source, target, sourceWidth, width);
      && (Spawned(run.steps) <==>
           !FastPath(source, target, sourceWidth, width) && source != Svg
           && EncodeAttempt(c, blob, Some(source), target, width).output.None?)
      && (forall i, j :: 0 <= i < j < |run.steps| ==> !(run.steps[i] == SpawnFfmpeg && run.steps[j] == SpawnFfmpeg))
  {
    var run := Convert(c, blob, source, target, sourceWidth, width);
    if !FastPath(source, target, sourceWidth, width) && source != Svg {
      var first := EncodeAttempt(c, blob, Some(source), target, width);
      if first.output.None? {
        var fallback := FallbackRun(c, blob, target, width);
        assert run.steps[|first.steps|] == SpawnFfmpeg;
        match c.ffmpeg(blob)
        case SpawnFailed =>
        case Exited(None) =>
        case Exited(Some(webp)) =>
          var a := EncodeAttempt(c, webp, Some(WebP), target, width);
          assert run.steps == first.steps + [SpawnFfmpeg, ReadTemp] + a.steps + [RemoveTemp];
      }
    }
  }

  /** Once ffmpeg has been spawned, the temp file is removed as the very last step, and a failure is "Failed to render image.". */
  lemma FallbackCleansUp(c: Codecs, blob: Bytes, source: string, target: string, sourceWidth: int, width: Option<int>)
    requires !FastPath(source, target, sourceWidth, width) && source != Svg
    requires EncodeAttempt(c, blob, Some(source), target, width).output.None?
    ensures var run := Convert(c, blob, source, target, sourceWidth, width);
      && run.steps[|run.steps| - 1] == RemoveTemp
      && (run.result.Err? ==> run.result.error == RenderFailed)
  {
  }

  /**
   * A resize that throws on the raster path escapes the read, skipping the
   * write and the dispose, and the conversion continues with the ffmpeg
   * fallback, whose outcome it returns.
   */
  lemma ResizeThrowFallsBack(c: Codecs, blob: Bytes, source: string, target: string, sourceWidth: int, width: Option<int>)
    requires !FastPath(source, target, sourceWidth, width) && source != Svg
    requires c.read(blob, Some(source)).Some? && ResizeThrows(c, c.read(blob, Some(source)).value, width)
    ensures var fallback := FallbackRun(c, blob, target, width);
      Convert(c, blob, source, target, sourceWidth, width)
        == Run(fallback.result, [Read(Some(source)), Resize(width.value)] + fallback.steps)
  {
  }

  /** Every write attempt is immediately followed by disposing of the decoded image. */
  lemma WritesDisposed(c: Codecs, blob: Bytes, source: string, target: string, sourceWidth: int, width: Option<int>)
    ensures var steps := Convert(c, blob, source, target, sourceWidth, width).steps;
      forall i :: 0 <= i < |steps| && steps[i].Write? ==> i + 1 < |steps| && steps[i + 1] == Dispose
  {
    var run := Convert(c, blob, source, target, sourceWidth, width);
    if !FastPath(source, target, sourceWidth, width) && source != Svg {
      var first := EncodeAttempt(c, blob, Some(source), target, width);
      if first.output.None? {
        match c.ffmpeg(blob)
        case SpawnFailed =>
        case Exited(None) =>
        case Exited(Some(webp)) =>
          var a := EncodeAttempt(c, webp, Some(WebP), target, width);
          assert run.steps == first.steps + ([SpawnFfmpeg, ReadTemp] + a.steps + [RemoveTemp]);
      }
    }
  }
}
