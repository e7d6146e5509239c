/**
 * `ResizeAndConvert`: derive a new, locked image from a stored one in a
 * chosen format and (optionally) width.
 */
module ResizeAndConvert {
  import opened Wrappers
  import opened Text
  import opened Http
  import opened Database
  import opened Storage
  import opened Process

  /** Who asks: nobody in particular, the master key, or an API-key holder. */
  datatype Caller = Anonymous | Master | KeyHolder(uuid: string)

  /**
   * The JSON body: each key is present or not; `targetWidth` may be present
   * with the value null (`Some(None)`).
   */
  datatype ResizeBody = ResizeBody(uuid: Option<string>, targetFormat: Option<string>, targetWidth: Option<Option<int>>)

  datatype ResizeRequest = ResizeRequest(authorization: Option<string>, verb: string, body: ResizeBody)

  /** The JSON reply of a successful derivation. */
  datatype ResizeReply = ResizeReply(id: string, owner: Option<string>, revokationToken: string,
                                     format: string, width: int, height: int)

  /** What the handler decides from the request and a snapshot of the store. */
  datatype ResizePlan =
    | Refuse(status: int, code: ErrorCode)
    | Derive(source: Image, output: Bytes, owner: Option<string>, format: string, width: int, height: int)

  /** `MAXIMUM_OUTPUT_IMAGE_EDGE`: the numeric env value, or 0 when it is not a number. */
  function MaxOutputEdge(cfg: Config): int {
    cfg.maxOutputEdgeEnv.GetOr(0)
  }

  /** Resize's identity step: master key first, then a "kona_sk_" secret of an existing key. */
  function Identify(cfg: Config, keys: map<string, ApiKey>, authorization: Option<string>): (r: ApiResult<Caller>)
    requires KeyedByUuid(keys) && KeyStringsUnique(keys)
    ensures r.Done? && r.value.Master? ==>
      Truthy(cfg.masterKey) && authorization == Some(BearerPrefix + cfg.masterKey.value)
    ensures r.Done? && r.value.KeyHolder? ==>
      && r.value.uuid in keys
      && authorization == Some(BearerPrefix + keys[r.value.uuid].key)
      && StartsWith(keys[r.value.uuid].key, ApiKeyPrefix)
      && !IsMaster(cfg, keys[r.value.uuid].key)
    ensures r.Done? && r.value.Anonymous? ==> !Truthy(authorization)
    ensures r.Fail? ==> r.status == 401
    ensures r.Fail? ==> (r.code == MissingAuthorization <==> AuthRequired(cfg) && authorization.None?)
    ensures r.Fail? ==> r.code in {MissingAuthorization, InvalidAuthorization}
    ensures AuthRequired(cfg) && authorization.None? ==> r == Fail(401, MissingAuthorization)
    ensures !Truthy(authorization) && !(AuthRequired(cfg) && authorization.None?) ==> r == Done(Anonymous)
    ensures Truthy(cfg.masterKey) && authorization == Some(BearerPrefix + cfg.masterKey.value) ==> r == Done(Master)
    ensures forall u ::
      (u in keys && authorization == Some(BearerPrefix + keys[u].key)
       && StartsWith(keys[u].key, ApiKeyPrefix) && !IsMaster(cfg, keys[u].key))
      ==> r == Done(KeyHolder(u))
  {
    if AuthRequired(cfg) && authorization.None? then Fail(401, MissingAuthorization)
    else if !Truthy(authorization) then Done(Anonymous)
    else if !StartsWith(authorization.value, BearerPrefix) then Fail(401, InvalidAuthorization)
    else
      var key := BearerToken(authorization.value);
      if IsMaster(cfg, key) then Done(Master)
      else if !StartsWith(key, ApiKeyPrefix) then Fail(401, InvalidAuthorization)
      else
        match FindKeyBySecret(keys, key)
        case None => Fail(401, InvalidAuthorization)
        case Some(k) => Done(KeyHolder(k.uuid))
  }

  /** The owner a caller stands for: null for the master key and for anonymous callers. */
  function OwnerOf(c: Caller): Option<string> {
    if c.KeyHolder? then Some(c.uuid) else None
  }

  /** `Image.findOne({ where: { id, owner } })`, without the owner filter for the master key. */
  function FindSource(images: map<string, Image>, id: string, caller: Caller): (r: Option<Image>)
    ensures r.Some? <==> id in images && (caller.Master? || images[id].owner == OwnerOf(caller))
    ensures r.Some? ==> r.value == images[id]
  {
    if id in images && (caller.Master? || images[id].owner == OwnerOf(caller)) then Some(images[id]) else None
  }

  /** ⌈a / b⌉ for a positive divisor. */
  function CeilDiv(a: int, b: int): (q: int)
    requires b > 0
    ensures q * b >= a && (q - 1) * b < a
  {
    -((-a) / b)
  }

  /** A truthy width outside [1, MAXIMUM_OUTPUT_IMAGE_EDGE]. */
  predicate WidthOutOfRange(cfg: Config, width: Option<int>) {
    WidthGiven(width) && (width.value < 1 || width.value > MaxOutputEdge(cfg))
  }

  /** `targetWidth ?? image.width`: any number, 0 included, replaces the source width. */
  function DerivedWidth(targetWidth: Option<int>, sourceWidth: int): int {
    targetWidth.GetOr(sourceWidth)
  }

  /** A failed identification is the reply, before the verb or the body is looked at. */
  lemma ResizeIdentityRefusal(cfg: Config, keys: map<string, ApiKey>, images: map<string, Image>,
                              blobs: map<string, Bytes>, c: Codecs, req: ResizeRequest)
    requires KeyedByUuid(keys) && KeyStringsUnique(keys)
    requires Identify(cfg, keys, req.authorization).Fail?
    ensures var id := Identify(cfg, keys, req.authorization);
      PlanResize(cfg, keys, images, blobs, c, req) == Refuse(id.status, id.code)
  {
  }

  /** With API_AUTH_ENABLED "true", a request without the header is 401 MissingAuthorization. */
  lemma ResizeMissingHeaderRefused(cfg: Config, keys: map<string, ApiKey>, images: map<string, Image>,
                                   blobs: map<string, Bytes>, c: Codecs, req: ResizeRequest)
    requires KeyedByUuid(keys) && KeyStringsUnique(keys)
    requires AuthRequired(cfg) && req.authorization.None?
    ensures PlanResize(cfg, keys, images, blobs, c, req) == Refuse(401, MissingAuthorization)
  {
  }

  /**
   * A bearer token that is not the master key and is no existing key's
   * "kona_sk_" secret (an unknown secret, or any other string) is 401
   * InvalidAuthorization.
   */
  lemma ResizeUnknownTokenRefused(cfg: Config, keys: map<string, ApiKey>, images: map<string, Image>,
                                  blobs: map<string, Bytes>, c: Codecs, req: ResizeRequest, token: string)
    requires KeyedByUuid(keys) && KeyStringsUnique(keys)
    requires req.authorization == Some(BearerPrefix + token) && !IsMaster(cfg, token)
    requires forall u :: u in keys ==> keys[u].key != token
    ensures PlanResize(cfg, keys, images, blobs, c, req) == Refuse(401, InvalidAuthorization)
  {
    assert BearerToken(BearerPrefix + token) == token;
  }

  /** The body has all three keys `uuid`, `targetFormat` and `targetWidth`. */
  predicate BodyComplete(body: ResizeBody) {
    body.uuid.Some? && body.targetFormat.Some? && body.targetWidth.Some?
  }

  /**
   * The handler's decisions, in the source's order, with `blobs` the local
   * storage directory and `c` the codecs `processImage` uses.
   */
  function PlanResize(cfg: Config, keys: map<string, ApiKey>, images: map<string, Image>, blobs: map<string, Bytes>,
                      c: Codecs, req: ResizeRequest): (r: ResizePlan)
    requires KeyedByUuid(keys) && KeyStringsUnique(keys)
    ensures r.Refuse? ==> r.status in {400, 401, 404, 405, 500}
    ensures r.Derive? ==> r.source.server == cfg.serverAddress && BlobPath(r.source.id) in blobs
  {
    match Identify(cfg, keys, req.authorization)
    case Fail(status, code) => Refuse(status, code)
    case Done(caller) =>
      var body := req.body;
      if req.verb != "POST" then Refuse(405, MethodNotAllowed)
      else if !BodyComplete(body) then Refuse(400, Unknown)
      else
        match FindSource(images, body.uuid.value, caller)
        case None => Refuse(404, NotFound)
        case Some(source) =>
          var tw := body.targetWidth.value;
          if WidthOutOfRange(cfg, tw) then Refuse(400, InvalidQuery)
          else if source.server != cfg.serverAddress then Refuse(404, Unknown)
          else if BlobPath(source.id) !in blobs then Refuse(500, Unknown)
          else
            var run := Convert(c, blobs[BlobPath(source.id)], source.format, body.targetFormat.value, source.width, tw);
            if run.result.Err? then Refuse(500, Unknown)
            else if WidthGiven(tw) && source.width <= 0 then Refuse(500, Unknown)
            else
              var height := if WidthGiven(tw) then CeilDiv(source.height * tw.value, source.width) else source.height;
              Derive(source, run.result.value, OwnerOf(caller), body.targetFormat.value,
                     DerivedWidth(tw, source.width), height)
  }

  /**
   * Once the caller is identified each guard answers for its own cause, in
   * order: 405 for a verb other than POST, 400 for a missing key, 404 when
   * the lookup misses, 400 InvalidQuery for a width out of range, and 404
   * Unknown for an image whose home is another node.
   */
  lemma ResizeGuardsChecked(cfg: Config, keys: map<string, ApiKey>, images: map<string, Image>,
                            blobs: map<string, Bytes>, c: Codecs, req: ResizeRequest)
    requires KeyedByUuid(keys) && KeyStringsUnique(keys)
    requires Identify(cfg, keys, req.authorization).Done?
    ensures PlanResize(cfg, keys, images, blobs, c, req) == Refuse(405, MethodNotAllowed) <==> req.verb != "POST"
    ensures req.verb == "POST" ==>
      (PlanResize(cfg, keys, images, blobs, c, req) == Refuse(400, Unknown) <==> !BodyComplete(req.body))
    ensures req.verb == "POST" && BodyComplete(req.body) ==>
      var found := FindSource(images, req.body.uuid.value, Identify(cfg, keys, req.authorization).value);
      && (PlanResize(cfg, keys, images, blobs, c, req) == Refuse(404, NotFound) <==> found.None?)
      && (found.Some? ==>
            ((PlanResize(cfg, keys, images, blobs, c, req) == Refuse(400, InvalidQuery))
             <==> WidthOutOfRange(cfg, req.body.targetWidth.value)))
      && (found.Some? && !WidthOutOfRange(cfg, req.body.targetWidth.value) ==>
            ((PlanResize(cfg, keys, images, blobs, c, req) == Refuse(404, Unknown))
             <==> found.value.server != cfg.serverAddress))
  {
  }

  /**
   * Past those guards, 500 answers exactly a missing local file, a failing
   * conversion, or a truthy width on a source without positive width.
   */
  lemma ResizeServerErrors(cfg: Config, keys: map<string, ApiKey>, images: map<string, Image>,
                           blobs: map<string, Bytes>, c: Codecs, req: ResizeRequest, caller: Caller, source: Image)
    requires KeyedByUuid(keys) && KeyStringsUnique(keys)
    requires Identify(cfg, keys, req.authorization) == Done(caller)
    requires req.verb == "POST" && BodyComplete(req.body)
    requires FindSource(images, req.body.uuid.value, caller) == Some(source)
    requires !WidthOutOfRange(cfg, req.body.targetWidth.value) && source.server == cfg.serverAddress
    ensures var tw := req.body.targetWidth.value;
      PlanResize(cfg, keys, images, blobs, c, req) == Refuse(500, Unknown) <==>
        || BlobPath(source.id) !in blobs
        || Convert(c, blobs[BlobPath(source.id)], source.format, req.body.targetFormat.value, source.width, tw).result.Err?
        || (WidthGiven(tw) && source.width <= 0)
  {
  }

  /** The record a derivation inserts: locked, on this node, labelled like its source. */
  function DerivedRecord(cfg: Config, id: string, plan: ResizePlan, token: string, now: int): Image
    requires plan.Derive?
  {
    CreateImage(id, cfg.serverAddress, plan.owner, plan.source.ownerString, plan.width, plan.height,
                plan.format, true, token, now)
  }

  /**
   * The handler. `tmp` and `tmpPath` are the temporary directory and the
   * fresh file name `processImage` may use; `newId` is `crypto.randomUUID()`,
   * `tokenRandom` the random part of the default revocation token.
   */
  method HandleResize(st: Store, tmp: TempDir, tmpPath: string, cfg: Config, c: Codecs, req: ResizeRequest,
                      newId: string, tokenRandom: string, now: int) returns (resp: ApiResult<ResizeReply>)
    requires st.Valid()
    requires tmpPath !in tmp.files
    requires newId !in st.images
    requires forall id :: id in st.images ==> st.images[id].revokationToken != Some(NewRevocationToken(tokenRandom))
    modifies st, tmp
    ensures st.Valid()
    ensures tmp.files == old(tmp.files)
    ensures var plan := PlanResize(cfg, old(st.keys), old(st.images), old(st.blobs), c, req);
      plan.Refuse? ==>
        && resp == Fail(plan.status, plan.code)
        && st.images == old(st.images) && st.keys == old(st.keys) && st.blobs == old(st.blobs)
    ensures var plan := PlanResize(cfg, old(st.keys), old(st.images), old(st.blobs), c, req);
      var token := NewRevocationToken(tokenRandom);
      plan.Derive? ==>
        && st.images == old(st.images)[newId := DerivedRecord(cfg, newId, plan, token, now)]
        && st.blobs == old(st.blobs)[BlobPath(newId) := plan.output]
        && st.keys == old(st.keys)
        && resp == Done(ResizeReply(newId, plan.owner, token, plan.format, plan.width, plan.height))
  {
    var caller := Identify(cfg, st.keys, req.authorization);
    if caller.Fail? {
      return Fail(caller.status, caller.code);
    }
    var body := req.body;
    if req.verb != "POST" {
      return Fail(405, MethodNotAllowed);
    }
    if body.uuid.None? || body.targetFormat.None? || body.targetWidth.None? {
      return Fail(400, Unknown);
    }
    var found := FindSource(st.images, body.uuid.value, caller.value);
    if found.None? {
      return Fail(404, NotFound);
    }
    var source := found.value;
    var tw := body.targetWidth.value;
    if WidthOutOfRange(cfg, tw) {
      return Fail(400, InvalidQuery);
    }
    if source.server != cfg.serverAddress {
      return Fail(404, Unknown);
    }
    if BlobPath(source.id) !in st.blobs {
      return Fail(500, Unknown);
    }
    var blob := st.blobs[BlobPath(source.id)];
    var result, _ := ProcessImage(c, tmp, tmpPath, blob, source.format, body.targetFormat.value, source.width, tw);
    if result.Err? {
      return Fail(500, Unknown);
    }
    if WidthGiven(tw) && source.width <= 0 {
      return Fail(500, Unknown);
    }
    var plan := PlanResize(cfg, st.keys, st.images, st.blobs, c, req);
    var token := NewRevocationToken(tokenRandom);
    st.InsertImage(DerivedRecord(cfg, newId, plan, token, now));
    st.WriteBlob(BlobPath(newId), plan.output);
    resp := Done(ResizeReply(newId, plan.owner, token, plan.format, plan.width, plan.height));
  }

  /** Only the master key reaches images of other owners; everyone else derives only from their own (or ownerless) images. */
  lemma DeriveOnlyFromAccessible(cfg: Config, keys: map<string, ApiKey>, images: map<string, Image>,
                                 blobs: map<string, Bytes>, c: Codecs, req: ResizeRequest)
    requires KeyedByUuid(keys) && KeyStringsUnique(keys)
    requires PlanResize(cfg, keys, images, blobs, c, req).Derive?
    ensures var plan := PlanResize(cfg, keys, images, blobs, c, req);
      var caller := Identify(cfg, keys, req.authorization);
      && caller.Done?
      && req.body.uuid.Some? && req.body.uuid.value in images
      && plan.source == images[req.body.uuid.value]
      && (caller.value.Master? || plan.source.owner == OwnerOf(caller.value))
      && plan.owner == OwnerOf(caller.value)
  {
  }

  /**
   * The converse of `DeriveOnlyFromAccessible`: an identified caller that
   * POSTs a complete body naming an image it may reach gets a derivation,
   * when the width is absent, null, 0 or within bounds, the image lives
   * here with its blob present, and `processImage` succeeds.
   */
  lemma DeriveWhenAllowed(cfg: Config, keys: map<string, ApiKey>, images: map<string, Image>,
                          blobs: map<string, Bytes>, c: Codecs, req: ResizeRequest, caller: Caller)
    requires KeyedByUuid(keys) && KeyStringsUnique(keys)
    requires Identify(cfg, keys, req.authorization) == Done(caller)
    requires req.verb == "POST" && BodyComplete(req.body)
    requires var id := req.body.uuid.value;
      && id in images && (caller.Master? || images[id].owner == OwnerOf(caller))
      && !WidthOutOfRange(cfg, req.body.targetWidth.value)
      && images[id].server == cfg.serverAddress && BlobPath(images[id].id) in blobs
      && (WidthGiven(req.body.targetWidth.value) ==> images[id].width > 0)
      && Convert(c, blobs[BlobPath(images[id].id)], images[id].format, req.body.targetFormat.value,
                 images[id].width, req.body.targetWidth.value).result.Ok?
    ensures var plan := PlanResize(cfg, keys, images, blobs, c, req);
      var source := images[req.body.uuid.value];
      && plan.Derive?
      && plan.source == source
      && plan.owner == OwnerOf(caller)
      && plan.format == req.body.targetFormat.value
      && plan.output == Convert(c, blobs[BlobPath(source.id)], source.format, plan.format, source.width,
                                req.body.targetWidth.value).result.value
  {
  }

  /**
   * Resize never reads the source's `disableResizing`: flipping it changes
   * the decision only in the copy of the source the plan carries. A locked
   * (already derived) image can therefore be derived from again.
   */
  lemma LockNotConsulted(cfg: Config, keys: map<string, ApiKey>, images: map<string, Image>,
                         blobs: map<string, Bytes>, c: Codecs, req: ResizeRequest, id: string)
    requires KeyedByUuid(keys) && KeyStringsUnique(keys)
    requires id in images
    ensures var flipped := images[id := images[id].(disableResizing := !images[id].disableResizing)];
      var a := PlanResize(cfg, keys, images, blobs, c, req);
      var b := PlanResize(cfg, keys, flipped, blobs, c, req);
      && (a.Refuse? <==> b.Refuse?)
      && (a.Refuse? ==> a == b)
      && (a.Derive? ==> b.(source := a.source) == a)
  {
  }

  /** With a non-numeric MAX_OUTPUT_IMAGE_EDGE every truthy width is refused as an invalid query. */
  lemma UnsetEdgeRejectsWidths(cfg: Config, keys: map<string, ApiKey>, images: map<string, Image>,
                               blobs: map<string, Bytes>, c: Codecs, req: ResizeRequest)
    requires KeyedByUuid(keys) && KeyStringsUnique(keys)
    requires cfg.maxOutputEdgeEnv.None?
    requires req.body.targetWidth.Some? && WidthGiven(req.body.targetWidth.value)
    ensures !PlanResize(cfg, keys, images, blobs, c, req).Derive?
  {
  }

  /**
   * The derived dimensions: width is the given target (0 included) or the
   * source's; height is the least integer keeping the aspect ratio when a
   * truthy width is given, the source's otherwise.
   */
  lemma DerivedDimensions(cfg: Config, keys: map<string, ApiKey>, images: map<string, Image>,
                          blobs: map<string, Bytes>, c: Codecs, req: ResizeRequest)
    requires KeyedByUuid(keys) && KeyStringsUnique(keys)
    requires PlanResize(cfg, keys, images, blobs, c, req).Derive?
    ensures var plan := PlanResize(cfg, keys, images, blobs, c, req);
      var tw := req.body.targetWidth.value;
      var s := plan.source;
      && (tw.Some? ==> plan.width == tw.value)
      && (tw.None? ==> plan.width == s.width)
      && (WidthGiven(tw) ==>
            && 1 <= tw.value <= MaxOutputEdge(cfg) && s.width > 0
            && plan.height * s.width >= s.height * tw.value
            && (plan.height - 1) * s.width < s.height * tw.value)
      && (!WidthGiven(tw) ==> plan.height == s.height)
  {
  }

  /** A targetWidth of 0 is not checked and is stored as width 0 while the height stays the source's. */
  lemma ZeroWidthStoredAsZero(cfg: Config, keys: map<string, ApiKey>, images: map<string, Image>,
                              blobs: map<string, Bytes>, c: Codecs, req: ResizeRequest)
    requires KeyedByUuid(keys) && KeyStringsUnique(keys)
    requires req.body.targetWidth == Some(Some(0))
    requires PlanResize(cfg, keys, images, blobs, c, req).Derive?
    ensures PlanResize(cfg, keys, images, blobs, c, req).width == 0
    ensures PlanResize(cfg, keys, images, blobs, c, req).height == PlanResize(cfg, keys, images, blobs, c, req).source.height
  {
  }

  /** The derived bytes are exactly what `processImage` produced from the local source blob. */
  lemma DerivedBytesConverted(cfg: Config, keys: map<string, ApiKey>, images: map<string, Image>,
                              blobs: map<string, Bytes>, c: Codecs, req: ResizeRequest)
    requires KeyedByUuid(keys) && KeyStringsUnique(keys)
    requires PlanResize(cfg, keys, images, blobs, c, req).Derive?
    ensures var plan := PlanResize(cfg, keys, images, blobs, c, req);
      && plan.source.server == cfg.serverAddress
      && BlobPath(plan.source.id) in blobs
      && Convert(c, blobs[BlobPath(plan.source.id)], plan.source.format, plan.format, plan.source.width,
                 req.body.targetWidth.value).result == Ok(plan.output)
  {
  }

  /** The derived record is locked, lives here, and carries its source's label while its owner is the caller. */
  lemma DerivedRecordShape(cfg: Config, id: string, plan: ResizePlan, token: string, now: int)
    requires plan.Derive?
    ensures var r := DerivedRecord(cfg, id, plan, token, now);
      && r.disableResizing && r.server == cfg.serverAddress
      && r.owner == plan.owner && r.ownerString == plan.source.ownerString
      && r.width == plan.width && r.height == plan.height && r.format == plan.format
  {
  }
}
