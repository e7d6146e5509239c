/**
 * CDN delivery (`handleHTTPDelivery`): parse `/cdn/<id><ext>`, look the
 * extension up, find the record, redirect to its home node when the blob is
 * elsewhere, enforce `disableResizing`, and serve the converted bytes. It
 * only reads the store.
 */
module Delivery {
  import opened Wrappers
  import opened Text
  import opened Http
  import opened ExtMapping
  import opened Database
  import opened Process

  /** 200 with a content type, 302 with a Location, or a plain-text 400/404/500. */
  datatype DeliveryResponse = Served(contentType: string, body: Bytes) | Redirect(location: string) | PlainError(status: int)

  /** `url.pathname.split("/")[2] ?? ""`. */
  function FileSegment(pathname: string): (fn: string)
    ensures '/' !in fn
  {
    var parts := Split(pathname, '/');
    if |parts| > 2 then parts[2] else ""
  }

  /**
   * `path.extname(fn)` for a name without "/": from the last dot on, unless
   * there is no dot, the dot is the first character, or the name is "..".
   */
  function ExtName(fn: string): (ext: string)
    ensures ext == "" || (|ext| < |fn| && ext[0] == '.' && fn[|fn| - |ext|..] == ext)
    ensures forall i :: 1 <= i < |ext| ==> ext[i] != '.'
  {
    var d := LastIndexOf(fn, '.');
    if d <= 0 || fn == ".." then "" else fn[d..]
  }

  /** `path.basename(fn, ext)`: the name with its extension stripped. */
  function Stem(fn: string): (id: string)
    ensures id + ExtName(fn) == fn
  {
    fn[..|fn| - |ExtName(fn)|]
  }

  /** The id and the extension (in its original case) a delivery path asks for. */
  function ParsePath(pathname: string): (string, string) {
    var fn := FileSegment(pathname);
    (Stem(fn), ExtName(fn))
  }

  /** The path a redirect names, without the node address. */
  function CdnPath(id: string, ext: string): string {
    "/cdn/" + id + ext
  }

  /**
   * `handleHTTPDelivery`. `widthQuery` is `+url.searchParams.get("width")`;
   * `blobs` are the files under LOCAL_STORAGE_PATH.
   */
  function Deliver(cfg: Config, images: map<string, Image>, blobs: map<string, Bytes>, c: Codecs,
                   pathname: string, widthQuery: NumParam): (r: DeliveryResponse)
    ensures r.PlainError? ==> r.status in {400, 404, 500}
    ensures r.Served? ==> r.contentType in FormatToMIME.Values
  {
    var (id, ext) := ParsePath(pathname);
    match FormatOfExt(ext)
    case None => PlainError(400)
    case Some(target) =>
      if id !in images then PlainError(404)
      else
        var image := images[id];
        if BlobPath(image.id) !in blobs then
          if image.server != cfg.serverAddress then Redirect(image.server + CdnPath(image.id, ext))
          else PlainError(404)
        else if image.disableResizing && image.format != target then PlainError(400)
        else if image.disableResizing && NumTruthy(widthQuery) && widthQuery.n != image.width then PlainError(400)
        else
          match Convert(c, blobs[BlobPath(image.id)], image.format, target, image.width, None).result
          case Ok(body) => Served(FormatToMIME[target], body)
          case Err(_) => PlainError(500)
  }

  /** The file segment of "/cdn/<fn>" is `fn`. */
  lemma {:induction false} CdnFileSegment(fn: string)
    requires '/' !in fn
    ensures FileSegment("/cdn/" + fn) == fn
  {
    assert "/cdn/" + fn == "" + ['/'] + ("cdn" + ['/'] + fn);
    SplitAfterPart("", "cdn" + ['/'] + fn, '/');
    SplitAfterPart("cdn", fn, '/');
    SplitNoSeparator(fn, '/');
  }

  /** A non-empty stem followed by a dot and no further dot has exactly that extension. */
  lemma ExtNameOfSuffix(stem: string, ext: string)
    requires stem != "" && |ext| > 1 && ext[0] == '.'
    requires forall i :: 1 <= i < |ext| ==> ext[i] != '.'
    ensures ExtName(stem + ext) == ext
  {
    var fn := stem + ext;
    var d := LastIndexOf(fn, '.');
    assert fn[|stem|] == '.';
    assert forall j :: |stem| < j < |fn| ==> fn[j] == ext[j - |stem|];
    assert d == |stem|;
    assert fn != ".." by { assert |fn| >= 3; }
  }

  /**
   * The path a redirect names parses back to the same id and extension on
   * the home node. The extension keeps the request's letter case: only its
   * lower-case form has to be in the table.
   */
  lemma CdnPathRoundTrip(id: string, ext: string)
    requires id != "" && '/' !in id
    requires Lower(ext) in Extensions
    ensures ParsePath(CdnPath(id, ext)) == (id, ext)
  {
    ExtensionKeysLowerDotted(Lower(ext));
    assert ext[0] == '.' by { assert LowerChar(ext[0]) == '.'; }
    forall i | 1 <= i < |ext|
      ensures ext[i] != '.' && ext[i] != '/'
    {
      assert 'a' <= LowerChar(ext[i]) <= 'z';
    }
    assert '/' !in id + ext;
    assert CdnPath(id, ext) == "/cdn/" + (id + ext);
    CdnFileSegment(id + ext);
    ExtNameOfSuffix(id, ext);
  }

  /**
   * The converse of `ServedContent`: a mapped extension, a known id with its
   * blob here, a lock guard that passes and a conversion that succeeds give
   * 200 with the target's MIME type and the conversion's output.
   */
  lemma DeliverServes(cfg: Config, images: map<string, Image>, blobs: map<string, Bytes>, c: Codecs,
                      pathname: string, widthQuery: NumParam)
    requires KeyedById(images)
    requires var (id, ext) := ParsePath(pathname);
      && Lower(ext) in Extensions && id in images && BlobPath(id) in blobs
      && (images[id].disableResizing ==>
            images[id].format == Extensions[Lower(ext)] && !(NumTruthy(widthQuery) && widthQuery.n != images[id].width))
      && Convert(c, blobs[BlobPath(id)], images[id].format, Extensions[Lower(ext)], images[id].width, None).result.Ok?
    ensures var (id, ext) := ParsePath(pathname);
      var target := Extensions[Lower(ext)];
      Deliver(cfg, images, blobs, c, pathname, widthQuery)
        == Served(FormatToMIME[target], Convert(c, blobs[BlobPath(id)], images[id].format, target, images[id].width, None).result.value)
  {
  }

  /** An extension outside the table is refused with 400 before any record is looked at. */
  lemma UnmappedExtensionRefused(cfg: Config, images: map<string, Image>, blobs: map<string, Bytes>, c: Codecs,
                                 pathname: string, widthQuery: NumParam)
    requires Lower(ParsePath(pathname).1) !in Extensions
    ensures Deliver(cfg, images, blobs, c, pathname, widthQuery) == PlainError(400)
  {
  }

  /** An id with no record is 404. */
  lemma UnknownIdNotFound(cfg: Config, images: map<string, Image>, blobs: map<string, Bytes>, c: Codecs,
                          pathname: string, widthQuery: NumParam)
    requires Lower(ParsePath(pathname).1) in Extensions
    requires ParsePath(pathname).0 !in images
    ensures Deliver(cfg, images, blobs, c, pathname, widthQuery) == PlainError(404)
  {
  }

  /**
   * A redirect happens exactly when the record exists, its blob is not here
   * and its home node is another server; it points at that node's copy.
   */
  lemma RedirectExactlyWhenRemote(cfg: Config, images: map<string, Image>, blobs: map<string, Bytes>, c: Codecs,
                                  pathname: string, widthQuery: NumParam)
    requires KeyedById(images)
    ensures var (id, ext) := ParsePath(pathname);
      var r := Deliver(cfg, images, blobs, c, pathname, widthQuery);
      && (r.Redirect? <==>
           Lower(ext) in Extensions && id in images && BlobPath(id) !in blobs && images[id].server != cfg.serverAddress)
      && (r.Redirect? ==> r.location == images[id].server + CdnPath(id, ext))
  {
  }

  /** With the blob missing on its own home node, the answer is 404, never a redirect loop. */
  lemma MissingLocalBlobNotFound(cfg: Config, images: map<string, Image>, blobs: map<string, Bytes>, c: Codecs,
                                 pathname: string, widthQuery: NumParam)
    requires KeyedById(images)
    requires var (id, ext) := ParsePath(pathname);
      Lower(ext) in Extensions && id in images && BlobPath(id) !in blobs && images[id].server == cfg.serverAddress
    ensures Deliver(cfg, images, blobs, c, pathname, widthQuery) == PlainError(404)
  {
  }

  /**
   * A record marked `disableResizing` is served only in its own format, and
   * a truthy width other than its own is refused; NaN and 0 widths are ignored.
   */
  lemma DisableResizingGuard(cfg: Config, images: map<string, Image>, blobs: map<string, Bytes>, c: Codecs,
                             pathname: string, widthQuery: NumParam)
    requires KeyedById(images)
    requires var (id, ext) := ParsePath(pathname);
      Lower(ext) in Extensions && id in images && BlobPath(id) in blobs && images[id].disableResizing
    ensures var (id, ext) := ParsePath(pathname);
      var r := Deliver(cfg, images, blobs, c, pathname, widthQuery);
      (Extensions[Lower(ext)] != images[id].format
        || (NumTruthy(widthQuery) && widthQuery.n != images[id].width)) <==> r == PlainError(400)
  {
  }

  /**
   * Served bytes carry the target format's MIME type; when the stored format
   * already is the target they are the stored bytes themselves.
   */
  lemma ServedContent(cfg: Config, images: map<string, Image>, blobs: map<string, Bytes>, c: Codecs,
                      pathname: string, widthQuery: NumParam)
    requires KeyedById(images)
    ensures var (id, ext) := ParsePath(pathname);
      var r := Deliver(cfg, images, blobs, c, pathname, widthQuery);
      r.Served? ==>
        && Lower(ext) in Extensions && id in images && BlobPath(id) in blobs
        && r.contentType == FormatToMIME[Extensions[Lower(ext)]]
        && (images[id].disableResizing ==>
              images[id].format == Extensions[Lower(ext)] && !(NumTruthy(widthQuery) && widthQuery.n != images[id].width))
        && Convert(c, blobs[BlobPath(id)], images[id].format, Extensions[Lower(ext)], images[id].width, None).result
             == Ok(r.body)
        && (images[id].format == Extensions[Lower(ext)] ==> r.body == blobs[BlobPath(id)])
  {
    var (id, ext) := ParsePath(pathname);
    if FormatOfExt(ext).Some? && id in images && BlobPath(id) in blobs {
      var image := images[id];
      var target := FormatOfExt(ext).value;
      if image.format == target {
        FastPathIsIdentity(c, blobs[BlobPath(id)], target, image.width, None);
      }
    }
  }

  /** Delivery converts the format but never resizes: the width query never reaches the converter. */
  lemma DeliveryNeverResizes(c: Codecs, blob: Bytes, format: string, target: string, width: int)
    ensures NoResize(Convert(c, blob, format, target, width, None).steps)
  {
    ResizeOnlyAsRequested(c, blob, format, target, width, None);
  }

  /** A conversion that throws is answered with 500. */
  lemma ConversionFailureIs500(cfg: Config, images: map<string, Image>, blobs: map<string, Bytes>, c: Codecs,
                               pathname: string, widthQuery: NumParam)
    requires KeyedById(images)
    requires var (id, ext) := ParsePath(pathname);
      && Lower(ext) in Extensions && id in images && BlobPath(id) in blobs
      && !images[id].disableResizing
      && Convert(c, blobs[BlobPath(id)], images[id].format, Extensions[Lower(ext)], images[id].width, None).result.Err?
    ensures Deliver(cfg, images, blobs, c, pathname, widthQuery) == PlainError(500)
  {
  }
}
