/**
 * `UploadImage`: authenticate by API key (no master key), check method,
 * content type, field and size, classify the bytes, then insert one record
 * and write one blob.
 */
module UploadImage {
  import opened Wrappers
  import opened Text
  import opened Http
  import opened Database
  import opened Storage
  import opened Classify

  /** The multipart `image` field: absent, not a file, or a file's bytes. */
  datatype FormField = NoImage | NotAFile | ImageFile(data: Bytes)

  datatype UploadRequest = UploadRequest(
    authorization: Option<string>,
    verb: string,
    contentType: Option<string>,
    image: FormField)

  /** Who uploads: nobody in particular, or the holder of an API key. */
  datatype Uploader = Anonymous | KeyHolder(uuid: string)

  /** The JSON reply of a successful upload. */
  datatype UploadReply = UploadReply(id: string, owner: Option<string>, revokationToken: string,
                                     format: string, width: int, height: int)

  /** What the handler decides before touching the store. */
  datatype UploadPlan =
    | Refuse(status: int, code: ErrorCode)
    | Accept(owner: Option<string>, data: Bytes, format: string, width: int, height: int)

  /**
   * Upload's identity step: a header is demanded only when API_AUTH_ENABLED
   * is "true"; a truthy header must be "Bearer <secret>" for an existing key.
   * There is no master-key branch and no prefix check.
   */
  function Identify(cfg: Config, keys: map<string, ApiKey>, authorization: Option<string>): (r: ApiResult<Uploader>)
    requires KeyedByUuid(keys) && KeyStringsUnique(keys)
    ensures r.Done? && r.value.KeyHolder? ==>
      r.value.uuid in keys && authorization == Some(BearerPrefix + keys[r.value.uuid].key)
    ensures r.Done? && r.value.Anonymous? ==> !Truthy(authorization)
    ensures !Truthy(authorization) && !(AuthRequired(cfg) && authorization.None?) ==> r == Done(Anonymous)
    ensures forall u :: u in keys && authorization == Some(BearerPrefix + keys[u].key) ==> r == Done(KeyHolder(u))
  {
    if AuthRequired(cfg) && authorization.None? then Fail(401, MissingAuthorization)
    else if !Truthy(authorization) then Done(Anonymous)
    else if !StartsWith(authorization.value, BearerPrefix) then Fail(401, InvalidAuthorization)
    else
      match FindKeyBySecret(keys, BearerToken(authorization.value))
      case None => Fail(401, InvalidAuthorization)
      case Some(k) => Done(KeyHolder(k.uuid))
  }

  /** The part of Content-Type before the first ";" is exactly "multipart/form-data". */
  predicate IsMultipart(contentType: Option<string>) {
    Split(contentType.GetOr(""), ';')[0] == "multipart/form-data"
  }

  /** `image.size > Number(MAX_FILE_SIZE)`; a NaN limit lets everything through. */
  predicate TooLarge(cfg: Config, size: int) {
    cfg.maxFileSize.Some? && size > cfg.maxFileSize.value
  }

  function OwnerOf(u: Uploader): Option<string> {
    if u.KeyHolder? then Some(u.uuid) else None
  }

  /** The guard chain and classification of upload-image lines 8-121. */
  function PlanUpload(cfg: Config, keys: map<string, ApiKey>, req: UploadRequest, decoded: Decoded, probe: Probe): (r: UploadPlan)
    requires KeyedByUuid(keys) && KeyStringsUnique(keys)
    ensures r.Refuse? ==> r.status in {400, 401, 405, 413, 415}
    ensures r.Refuse? && r.status == 401 ==> Identify(cfg, keys, req.authorization).Fail?
  {
    match Identify(cfg, keys, req.authorization)
    case Fail(status, code) => Refuse(status, code)
    case Done(uploader) =>
      if req.verb != "POST" then Refuse(405, MethodNotAllowed)
      else if !IsMultipart(req.contentType) then Refuse(415, InvalidContentType)
      else if !req.image.ImageFile? then Refuse(400, Unknown)
      else if TooLarge(cfg, |req.image.data|) then Refuse(413, Unknown)
      else
        match Classify.Classify(decoded, req.image.data, probe)
        case Rejected => Refuse(400, InvalidImageInput)
        case Classified(format, width, height) => Accept(OwnerOf(uploader), req.image.data, format, width, height)
  }

  /**
   * Once the caller is identified each guard answers for its own cause: 405
   * for a verb other than POST, 415 for a body that is not multipart, 400
   * for a missing or non-file `image` field, and 400 InvalidImageInput for
   * bytes the cascade does not classify.
   */
  lemma UploadGuardsChecked(cfg: Config, keys: map<string, ApiKey>, req: UploadRequest, decoded: Decoded, probe: Probe)
    requires KeyedByUuid(keys) && KeyStringsUnique(keys)
    requires Identify(cfg, keys, req.authorization).Done?
    ensures PlanUpload(cfg, keys, req, decoded, probe) == Refuse(405, MethodNotAllowed) <==> req.verb != "POST"
    ensures req.verb == "POST" ==>
      (PlanUpload(cfg, keys, req, decoded, probe) == Refuse(415, InvalidContentType) <==> !IsMultipart(req.contentType))
    ensures req.verb == "POST" && IsMultipart(req.contentType) ==>
      (PlanUpload(cfg, keys, req, decoded, probe) == Refuse(400, Unknown) <==> !req.image.ImageFile?)
    ensures req.verb == "POST" && IsMultipart(req.contentType) && req.image.ImageFile? && !TooLarge(cfg, |req.image.data|) ==>
      ((PlanUpload(cfg, keys, req, decoded, probe) == Refuse(400, InvalidImageInput))
       <==> Classify.Classify(decoded, req.image.data, probe).Rejected?)
  {
  }

  /** The record an accepted upload inserts: home node here, owner and label both the uploader. */
  function UploadedRecord(cfg: Config, id: string, owner: Option<string>, format: string, width: int, height: int,
                          token: string, now: int): Image
  {
    CreateImage(id, cfg.serverAddress, owner, owner, width, height, format, false, token, now)
  }

  /**
   * The handler. `newId` is `crypto.randomUUID()`, `tokenRandom` the random
   * part of the default revocation token, `now` the insertion time; the id
   * and the token are fresh.
   */
  method HandleUpload(st: Store, cfg: Config, req: UploadRequest, decoded: Decoded, probe: Probe,
                      newId: string, tokenRandom: string, now: int) returns (resp: ApiResult<UploadReply>)
    requires st.Valid()
    requires newId !in st.images
    requires forall id :: id in st.images ==> st.images[id].revokationToken != Some(NewRevocationToken(tokenRandom))
    modifies st
    ensures st.Valid()
    ensures var plan := PlanUpload(cfg, old(st.keys), req, decoded, probe);
      plan.Refuse? ==>
        && resp == Fail(plan.status, plan.code)
        && st.images == old(st.images) && st.keys == old(st.keys) && st.blobs == old(st.blobs)
    ensures var plan := PlanUpload(cfg, old(st.keys), req, decoded, probe);
      var token := NewRevocationToken(tokenRandom);
      plan.Accept? ==>
        && st.images == old(st.images)[newId := UploadedRecord(cfg, newId, plan.owner, plan.format, plan.width, plan.height, token, now)]
        && st.blobs == old(st.blobs)[BlobPath(newId) := plan.data]
        && st.keys == old(st.keys)
        && resp == Done(UploadReply(newId, plan.owner, token, plan.format, plan.width, plan.height))
  {
    var plan := PlanUpload(cfg, st.keys, req, decoded, probe);
    if plan.Refuse? {
      return Fail(plan.status, plan.code);
    }
    var token := NewRevocationToken(tokenRandom);
    var record := UploadedRecord(cfg, newId, plan.owner, plan.format, plan.width, plan.height, token, now);
    st.InsertImage(record);
    st.WriteBlob(BlobPath(newId), plan.data);
    resp := Done(UploadReply(newId, plan.owner, token, plan.format, plan.width, plan.height));
  }

  /** With API_AUTH_ENABLED "true", a request without Authorization is 401 MissingAuthorization. */
  lemma MissingHeaderRefused(cfg: Config, keys: map<string, ApiKey>, req: UploadRequest, decoded: Decoded, probe: Probe)
    requires KeyedByUuid(keys) && KeyStringsUnique(keys)
    requires AuthRequired(cfg) && req.authorization.None?
    ensures PlanUpload(cfg, keys, req, decoded, probe) == Refuse(401, MissingAuthorization)
  {
  }

  /** Upload has no master branch: a bearer token that is no key's secret is 401, even the master key. */
  lemma OnlyKeySecretsAccepted(cfg: Config, keys: map<string, ApiKey>, req: UploadRequest, decoded: Decoded, probe: Probe, token: string)
    requires KeyedByUuid(keys) && KeyStringsUnique(keys)
    requires req.authorization == Some(BearerPrefix + token)
    requires forall u :: u in keys ==> keys[u].key != token
    ensures PlanUpload(cfg, keys, req, decoded, probe) == Refuse(401, InvalidAuthorization)
  {
    assert BearerToken(BearerPrefix + token) == token;
  }

  /** A truthy header that is not "Bearer ..." is 401 InvalidAuthorization. */
  lemma NonBearerRefused(cfg: Config, keys: map<string, ApiKey>, req: UploadRequest, decoded: Decoded, probe: Probe)
    requires KeyedByUuid(keys) && KeyStringsUnique(keys)
    requires Truthy(req.authorization) && !StartsWith(req.authorization.value, BearerPrefix)
    ensures PlanUpload(cfg, keys, req, decoded, probe) == Refuse(401, InvalidAuthorization)
  {
  }

  /** A file exactly at the size limit is not refused for its size; one byte more is 413. */
  lemma SizeLimitInclusive(cfg: Config, keys: map<string, ApiKey>, req: UploadRequest, decoded: Decoded, probe: Probe)
    requires KeyedByUuid(keys) && KeyStringsUnique(keys)
    requires Identify(cfg, keys, req.authorization).Done?
    requires req.verb == "POST" && IsMultipart(req.contentType) && req.image.ImageFile?
    requires cfg.maxFileSize.Some?
    ensures |req.image.data| == cfg.maxFileSize.value ==> PlanUpload(cfg, keys, req, decoded, probe) != Refuse(413, Unknown)
    ensures |req.image.data| > cfg.maxFileSize.value ==> PlanUpload(cfg, keys, req, decoded, probe) == Refuse(413, Unknown)
  {
  }

  /**
   * An upload is accepted exactly when identity, method, content type, field
   * and size pass and the cascade classifies the bytes; the record then holds
   * the classified format and dimensions and the uploader as owner.
   */
  lemma AcceptedExactlyWhenClassified(cfg: Config, keys: map<string, ApiKey>, req: UploadRequest, decoded: Decoded, probe: Probe)
    requires KeyedByUuid(keys) && KeyStringsUnique(keys)
    ensures var plan := PlanUpload(cfg, keys, req, decoded, probe);
      plan.Accept? <==>
        && Identify(cfg, keys, req.authorization).Done?
        && req.verb == "POST" && IsMultipart(req.contentType) && req.image.ImageFile?
        && !TooLarge(cfg, |req.image.data|)
        && Classify.Classify(decoded, req.image.data, probe).Classified?
    ensures var plan := PlanUpload(cfg, keys, req, decoded, probe);
      plan.Accept? ==>
        && Classify.Classify(decoded, req.image.data, probe) == Classified(plan.format, plan.width, plan.height)
        && plan.data == req.image.data
        && plan.format != "UNKNOWN"
        && plan.owner == OwnerOf(Identify(cfg, keys, req.authorization).value)
        && (plan.owner.Some? ==> plan.owner.value in keys)
  {
  }

  /** A Content-Type with parameters after ";" still counts as multipart. */
  lemma MultipartWithBoundary(params: string)
    ensures IsMultipart(Some("multipart/form-data;" + params))
  {
    assert ';' !in "multipart/form-data";
    SplitAfterPart("multipart/form-data", params, ';');
    assert "multipart/form-data;" + params == "multipart/form-data" + [';'] + params;
  }

  /** The stored record keeps the uploader as both owner and label, and lives on this node. */
  lemma UploadedRecordShape(cfg: Config, id: string, owner: Option<string>, format: string, width: int, height: int,
                            token: string, now: int)
    ensures var r := UploadedRecord(cfg, id, owner, format, width, height, token, now);
      && r.id == id && r.server == cfg.serverAddress && r.owner == owner && r.ownerString == owner
      && r.revokationToken == Some(token) && !r.disableResizing
      && r.format == format && r.width == width && r.height == height
  {
  }
}
