/**
 * `DeleteImage`: a bearer caller removes one image row and its blob. The
 * master key may remove images that have no owner, an API key the images
 * it owns, and a revocation token the one image it belongs to.
 */
module DeleteImage {
  import opened Wrappers
  import opened Text
  import opened Http
  import opened Database
  import opened Storage
  import opened BearerAuth

  /** The request: its Authorization header, its verb and the body's `uuid`, if present. */
  datatype DeleteRequest = DeleteRequest(authorization: Option<string>, verb: string, uuid: Option<string>)

  /** What the handler decides before it touches the store. */
  datatype DeletePlan = Reject(status: int, code: ErrorCode) | Remove(id: string)

  /** The reply message on success. */
  const Deleted: string := "Image deleted"

  /**
   * The decisions of delete-image, in order: the bearer check, a token
   * with neither known prefix (401), the verb (405), the missing `uuid`
   * (400), a revocation token naming another image (401), and the lookup
   * `{ id: uuid, owner: ownerUUID }`, where the master key's owner is null.
   */
  function PlanDelete(cfg: Config, keys: map<string, ApiKey>, images: map<string, Image>, req: DeleteRequest): (r: DeletePlan)
    requires KeyedById(images) && KeyedByUuid(keys) && KeyStringsUnique(keys) && TokensUnique(images)
    ensures r.Reject? ==> r.status in {400, 401, 404, 405}
    ensures r.Remove? ==> r.id in images && req.uuid == Some(r.id) && req.verb == "DELETE"
    ensures r.Remove? ==> IdentifyBearer(cfg, keys, images, req.authorization).Done?
  {
    match IdentifyBearer(cfg, keys, images, req.authorization)
    case Fail(status, code) => Reject(status, code)
    case Done(who) =>
      if who.OtherBearer? then Reject(401, InvalidAuthorization)
      else if req.verb != "DELETE" then Reject(405, MethodNotAllowed)
      else if req.uuid.None? then Reject(400, Unknown)
      else
        var id := req.uuid.value;
        if who.TokenBearer? then
          if who.image.id != id then Reject(401, InvalidAuthorization) else Remove(who.image.id)
        else
          var owner := if who.KeyBearer? then Some(who.uuid) else None;
          if id in images && images[id].owner == owner then Remove(id) else Reject(404, NotFound)
  }

  /** The handler: the blob under "image/<id>" is unlinked (errors ignored), then the row destroyed. */
  method HandleDelete(st: Store, cfg: Config, req: DeleteRequest) returns (resp: ApiResult<string>)
    requires st.Valid()
    modifies st
    ensures st.Valid()
    ensures var plan := PlanDelete(cfg, old(st.keys), old(st.images), req);
      plan.Reject? ==>
        && resp == Fail(plan.status, plan.code)
        && st.images == old(st.images) && st.keys == old(st.keys) && st.blobs == old(st.blobs)
    ensures var plan := PlanDelete(cfg, old(st.keys), old(st.images), req);
      plan.Remove? ==>
        && st.images == old(st.images) - {plan.id}
        && st.blobs == old(st.blobs) - {BlobPath(plan.id)}
        && st.keys == old(st.keys)
        && resp == Done(Deleted)
  {
    var plan := PlanDelete(cfg, st.keys, st.images, req);
    if plan.Reject? {
      return Fail(plan.status, plan.code);
    }
    st.RemoveBlob(BlobPath(plan.id));
    st.DestroyImage(plan.id);
    resp := Done(Deleted);
  }

  /** A failed identification is the reply, before the verb or anything else is looked at. */
  lemma DeleteIdentityRefusal(cfg: Config, keys: map<string, ApiKey>, images: map<string, Image>, req: DeleteRequest)
    requires KeyedById(images) && KeyedByUuid(keys) && KeyStringsUnique(keys) && TokensUnique(images)
    requires IdentifyBearer(cfg, keys, images, req.authorization).Fail?
    ensures var id := IdentifyBearer(cfg, keys, images, req.authorization);
      PlanDelete(cfg, keys, images, req) == Reject(id.status, id.code)
  {
  }

  /**
   * A "kona_sk_" secret that is no key's, or a "kona_ri_" token that is no
   * image's, is 401 InvalidAuthorization (unless it is the master key).
   */
  lemma DeleteUnknownTokenRefused(cfg: Config, keys: map<string, ApiKey>, images: map<string, Image>, req: DeleteRequest,
                              token: string)
    requires KeyedById(images) && KeyedByUuid(keys) && KeyStringsUnique(keys) && TokensUnique(images)
    requires req.authorization == Some(BearerPrefix + token) && !IsMaster(cfg, token)
    requires || (StartsWith(token, ApiKeyPrefix) && forall u :: u in keys ==> keys[u].key != token)
             || (StartsWith(token, RevocationPrefix) && forall id :: id in images ==> images[id].revokationToken != Some(token))
    ensures PlanDelete(cfg, keys, images, req) == Reject(401, InvalidAuthorization)
  {
    assert BearerToken(BearerPrefix + token) == token;
  }

  /**
   * Once the caller is identified (and is not an unknown bearer), a verb
   * other than DELETE is 405, and a DELETE whose body has no `uuid` is 400.
   */
  lemma DeleteRequestChecked(cfg: Config, keys: map<string, ApiKey>, images: map<string, Image>, req: DeleteRequest)
    requires KeyedById(images) && KeyedByUuid(keys) && KeyStringsUnique(keys) && TokensUnique(images)
    requires var who := IdentifyBearer(cfg, keys, images, req.authorization); who.Done? && !who.value.OtherBearer?
    ensures PlanDelete(cfg, keys, images, req) == Reject(405, MethodNotAllowed) <==> req.verb != "DELETE"
    ensures req.verb == "DELETE" ==> (PlanDelete(cfg, keys, images, req) == Reject(400, Unknown) <==> req.uuid.None?)
  {
  }

  /**
   * Whatever is removed was the caller's to remove: the bearer token is
   * the master key and the image has no owner, or it is the secret of the
   * key that owns the image, or it is the image's own revocation token.
   */
  lemma DeleteAuthorized(cfg: Config, keys: map<string, ApiKey>, images: map<string, Image>, req: DeleteRequest, id: string)
    requires KeyedById(images) && KeyedByUuid(keys) && KeyStringsUnique(keys) && TokensUnique(images)
    requires PlanDelete(cfg, keys, images, req) == Remove(id)
    ensures req.authorization.Some? && StartsWith(req.authorization.value, BearerPrefix)
    ensures var token := BearerToken(req.authorization.value);
      || (IsMaster(cfg, token) && images[id].owner.None?)
      || (exists u :: u in keys && keys[u].key == token && images[id].owner == Some(u))
      || images[id].revokationToken == Some(token)
  {
    var who := IdentifyBearer(cfg, keys, images, req.authorization).value;
    var token := BearerToken(req.authorization.value);
    if who.KeyBearer? {
      assert keys[who.uuid].key == token && images[id].owner == Some(who.uuid);
    }
  }

  /** Each kind of caller can remove what is theirs: the converse of `DeleteAuthorized`. */
  lemma OwnersCanDelete(cfg: Config, keys: map<string, ApiKey>, images: map<string, Image>, req: DeleteRequest, id: string, token: string)
    requires KeyedById(images) && KeyedByUuid(keys) && KeyStringsUnique(keys) && TokensUnique(images)
    requires req.authorization == Some(BearerPrefix + token) && req.verb == "DELETE" && req.uuid == Some(id)
    requires id in images
    requires || (IsMaster(cfg, token) && images[id].owner.None?)
             || (!IsMaster(cfg, token) && StartsWith(token, ApiKeyPrefix)
                 && images[id].owner.Some? && images[id].owner.value in keys && keys[images[id].owner.value].key == token)
             || (!IsMaster(cfg, token) && StartsWith(token, RevocationPrefix) && images[id].revokationToken == Some(token))
    ensures PlanDelete(cfg, keys, images, req) == Remove(id)
  {
    assert BearerToken(req.authorization.value) == token;
    if !IsMaster(cfg, token) && StartsWith(token, RevocationPrefix) {
      assert !StartsWith(token, ApiKeyPrefix) by { assert token[5] == 'r' && ApiKeyPrefix[5] == 's'; }
    }
  }

  /** The master key cannot remove an image that has an owner: the lookup on a null owner misses it. */
  lemma MasterOnlyOwnerless(cfg: Config, keys: map<string, ApiKey>, images: map<string, Image>, req: DeleteRequest, id: string, token: string)
    requires KeyedById(images) && KeyedByUuid(keys) && KeyStringsUnique(keys) && TokensUnique(images)
    requires req.authorization == Some(BearerPrefix + token) && IsMaster(cfg, token)
    requires req.verb == "DELETE" && req.uuid == Some(id)
    requires id !in images || images[id].owner.Some?
    ensures PlanDelete(cfg, keys, images, req) == Reject(404, NotFound)
  {
    assert BearerToken(req.authorization.value) == token;
  }

  /** A revocation token used on any image but its own is 401, not 404. */
  lemma TokenMismatchRejected(cfg: Config, keys: map<string, ApiKey>, images: map<string, Image>, req: DeleteRequest,
                              own: string, token: string)
    requires KeyedById(images) && KeyedByUuid(keys) && KeyStringsUnique(keys) && TokensUnique(images)
    requires req.authorization == Some(BearerPrefix + token)
    requires !IsMaster(cfg, token) && StartsWith(token, RevocationPrefix)
    requires own in images && images[own].revokationToken == Some(token)
    requires req.verb == "DELETE" && req.uuid.Some? && req.uuid.value != own
    ensures PlanDelete(cfg, keys, images, req) == Reject(401, InvalidAuthorization)
  {
    assert BearerToken(req.authorization.value) == token;
    assert !StartsWith(token, ApiKeyPrefix) by { assert token[5] == 'r' && ApiKeyPrefix[5] == 's'; }
  }

  /** Unlike list-image, a bearer token that is not the master key and has no known prefix is 401 before the verb is looked at. */
  lemma OtherBearerRejected(cfg: Config, keys: map<string, ApiKey>, images: map<string, Image>, req: DeleteRequest, token: string)
    requires KeyedById(images) && KeyedByUuid(keys) && KeyStringsUnique(keys) && TokensUnique(images)
    requires req.authorization == Some(BearerPrefix + token)
    requires !IsMaster(cfg, token) && !StartsWith(token, ApiKeyPrefix) && !StartsWith(token, RevocationPrefix)
    ensures PlanDelete(cfg, keys, images, req) == Reject(401, InvalidAuthorization)
  {
    assert BearerToken(req.authorization.value) == token;
  }
}
