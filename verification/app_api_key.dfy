/**
 * `MasterAPIKey` (app-api-key): the master key's administration of API
 * keys. POST issues a key, PATCH replaces a key's secret, DELETE removes a
 * key and either orphans its images or, with `content_removal`, destroys
 * them and removes their files.
 */
module AppApiKey {
  import opened Wrappers
  import opened Text
  import opened Http
  import opened Database
  import opened Storage

  /** The JSON body of PATCH and DELETE: `uuid` and `key` when present, and whether `content_removal` is truthy. */
  datatype KeyBody = KeyBody(uuid: Option<string>, key: Option<string>, contentRemoval: bool)

  datatype KeyRequest = KeyRequest(authorization: Option<string>, verb: string, body: KeyBody)

  /** `{ key, uuid }` for POST and PATCH, `{ message }` for DELETE. */
  datatype KeyReply = KeyPair(key: string, uuid: string) | Message(text: string)

  /** What the handler decides before it touches the store. */
  datatype KeyPlan =
    | Deny(status: int, code: ErrorCode)
    | Create
    | Rotate(uuid: string)
    | Revoke(uuid: string, removeContent: bool)

  const KeyDeleted: string := "API key deleted"

  /**
   * The gate in front of every verb: a missing header is 401
   * MissingAuthorization; otherwise API_AUTH_ENABLED and MASTER_API_KEY
   * must be truthy and the header exactly "Bearer <master key>", or it is
   * 401 InvalidAuthorization.
   */
  function AdminGate(cfg: Config, authorization: Option<string>): (r: Option<ErrorCode>)
    ensures r.None? <==>
      && Truthy(cfg.apiAuthEnabled) && Truthy(cfg.masterKey)
      && authorization == Some(BearerPrefix + cfg.masterKey.value)
    ensures r.Some? ==> (r.value == MissingAuthorization <==> authorization.None?)
  {
    if authorization.None? then Some(MissingAuthorization)
    else if !Truthy(cfg.apiAuthEnabled) || !Truthy(cfg.masterKey)
         || authorization.value != BearerPrefix + cfg.masterKey.value then Some(InvalidAuthorization)
    else None
  }

  /**
   * The key a PATCH or DELETE body names: exactly one of `uuid` and `key`
   * must be present and non-empty (400 otherwise); a `uuid` is looked up as
   * the primary key, a `key` as a secret, and no match is 404.
   */
  function SelectKey(keys: map<string, ApiKey>, body: KeyBody): (r: ApiResult<string>)
    requires KeyedByUuid(keys) && KeyStringsUnique(keys)
    ensures r.Fail? ==> (r.status == 400 && r.code == Unknown) || (r.status == 404 && r.code == NotFound)
    ensures r.Fail? && r.status == 400 <==>
      (body.uuid.Some? == body.key.Some?) || (!Truthy(body.uuid) && !Truthy(body.key))
    ensures r.Done? ==>
      && r.value in keys
      && (body.uuid.Some? ==> r.value == body.uuid.value)
      && (body.key.Some? ==> keys[r.value].key == body.key.value)
  {
    if body.uuid.None? && body.key.None? then Fail(400, Unknown)
    else if body.uuid.Some? && body.key.Some? then Fail(400, Unknown)
    else if !(Truthy(body.uuid) || Truthy(body.key)) then Fail(400, Unknown)
    else if Truthy(body.uuid) then
      if body.uuid.value in keys then Done(body.uuid.value) else Fail(404, NotFound)
    else
      match FindKeyBySecret(keys, body.key.value)
      case Some(k) => Done(k.uuid)
      case None => Fail(404, NotFound)
  }

  /** The gate, then the verb: POST creates, PATCH rotates, DELETE revokes, anything else is 405. */
  function PlanKey(cfg: Config, keys: map<string, ApiKey>, req: KeyRequest): (r: KeyPlan)
    requires KeyedByUuid(keys) && KeyStringsUnique(keys)
    ensures r.Rotate? || r.Revoke? ==> r.uuid in keys
  {
    match AdminGate(cfg, req.authorization)
    case Some(code) => Deny(401, code)
    case None =>
      if req.verb == "POST" then Create
      else if req.verb == "PATCH" || req.verb == "DELETE" then
        match SelectKey(keys, req.body)
        case Fail(status, code) => Deny(status, code)
        case Done(u) => if req.verb == "PATCH" then Rotate(u) else Revoke(u, req.body.contentRemoval)
      else Deny(405, MethodNotAllowed)
  }

  /**
   * Past the gate the verb decides: POST creates; PATCH and DELETE select a
   * key and rotate or revoke it (passing `content_removal` on), or answer
   * the selector's 400 or 404; any other verb is 405.
   */
  lemma PlanKeyPastGate(cfg: Config, keys: map<string, ApiKey>, req: KeyRequest)
    requires KeyedByUuid(keys) && KeyStringsUnique(keys)
    requires AdminGate(cfg, req.authorization).None?
    ensures req.verb == "POST" ==> PlanKey(cfg, keys, req) == Create
    ensures var sel := SelectKey(keys, req.body);
      (req.verb == "PATCH" || req.verb == "DELETE") && sel.Fail? ==> PlanKey(cfg, keys, req) == Deny(sel.status, sel.code)
    ensures var sel := SelectKey(keys, req.body);
      req.verb == "PATCH" && sel.Done? ==> PlanKey(cfg, keys, req) == Rotate(sel.value)
    ensures var sel := SelectKey(keys, req.body);
      req.verb == "DELETE" && sel.Done? ==> PlanKey(cfg, keys, req) == Revoke(sel.value, req.body.contentRemoval)
    ensures req.verb !in {"POST", "PATCH", "DELETE"} ==> PlanKey(cfg, keys, req) == Deny(405, MethodNotAllowed)
  {
  }

  /** The paths the content-removal loop passes to `rm`: "images/<id>" for each destroyed image. */
  function CascadePaths(ids: set<string>): (paths: set<string>)
    ensures forall id :: id in ids ==> CascadePath(id) in paths
    ensures forall p :: p in paths ==> exists id :: id in ids && p == CascadePath(id)
  {
    set id | id in ids :: CascadePath(id)
  }

  /**
   * The `content_removal` branch: every image the key owns is destroyed and
   * `rm -rf "images/<id>"` run for it, one image at a time.
   */
  method RemoveContent(st: Store, u: string)
    requires st.Valid()
    modifies st
    ensures st.Valid()
    ensures st.images == old(st.images) - OwnedBy(old(st.images), u)
    ensures st.blobs == old(st.blobs) - CascadePaths(OwnedBy(old(st.images), u))
    ensures st.keys == old(st.keys)
  {
    var owned := OwnedBy(st.images, u);
    var left, done := owned, {};
    while left != {}
      invariant st.Valid()
      invariant left + done == owned
      invariant st.images == old(st.images) - done
      invariant st.blobs == old(st.blobs) - CascadePaths(done)
      invariant st.keys == old(st.keys)
      decreases |left|
    {
      var id :| id in left;
      st.DestroyImage(id);
      st.RemoveBlob(CascadePath(id));
      RemoveOneMore(old(st.images), old(st.blobs), done, id);
      left, done := left - {id}, done + {id};
    }
    assert done == owned;
  }

  /** Removing one more id from the tables and its path from the files. */
  lemma RemoveOneMore(images: map<string, Image>, blobs: map<string, Bytes>, done: set<string>, id: string)
    ensures images - done - {id} == images - (done + {id})
    ensures blobs - CascadePaths(done) - {CascadePath(id)} == blobs - CascadePaths(done + {id})
  {
    assert CascadePaths(done + {id}) == CascadePaths(done) + {CascadePath(id)};
  }

  /**
   * The handler. `newUuid` is the new key's primary key, `secretRandom` the
   * random part of its secret, `now` the insertion time; both are fresh.
   */
  method HandleKey(st: Store, cfg: Config, req: KeyRequest, newUuid: string, secretRandom: string, now: int)
    returns (resp: ApiResult<KeyReply>)
    requires st.Valid()
    requires newUuid !in st.keys
    requires forall v :: v in st.keys ==> st.keys[v].key != NewApiKeySecret(secretRandom)
    modifies st
    ensures st.Valid()
    ensures var plan := PlanKey(cfg, old(st.keys), req);
      plan.Deny? ==>
        && resp == Fail(plan.status, plan.code)
        && st.images == old(st.images) && st.keys == old(st.keys) && st.blobs == old(st.blobs)
    ensures var plan := PlanKey(cfg, old(st.keys), req);
      var secret := NewApiKeySecret(secretRandom);
      plan.Create? ==>
        && st.keys == old(st.keys)[newUuid := ApiKey(newUuid, secret, now)]
        && st.images == old(st.images) && st.blobs == old(st.blobs)
        && resp == Done(KeyPair(secret, newUuid))
    ensures var plan := PlanKey(cfg, old(st.keys), req);
      var secret := NewApiKeySecret(secretRandom);
      plan.Rotate? ==>
        && st.keys == old(st.keys)[plan.uuid := old(st.keys)[plan.uuid].(key := secret)]
        && st.images == old(st.images) && st.blobs == old(st.blobs)
        && resp == Done(KeyPair(secret, plan.uuid))
    ensures var plan := PlanKey(cfg, old(st.keys), req);
      plan.Revoke? ==>
        && st.keys == old(st.keys) - {plan.uuid}
        && (!plan.removeContent ==> st.images == Orphaned(old(st.images), plan.uuid) && st.blobs == old(st.blobs))
        && (plan.removeContent ==>
              && st.images == old(st.images) - OwnedBy(old(st.images), plan.uuid)
              && st.blobs == old(st.blobs) - CascadePaths(OwnedBy(old(st.images), plan.uuid)))
        && resp == Done(Message(KeyDeleted))
  {
    var plan := PlanKey(cfg, st.keys, req);
    var secret := NewApiKeySecret(secretRandom);
    match plan
    case Deny(status, code) =>
      resp := Fail(status, code);
    case Create =>
      st.InsertKey(ApiKey(newUuid, secret, now));
      resp := Done(KeyPair(secret, newUuid));
    case Rotate(u) =>
      st.SetKeySecret(u, secret);
      resp := Done(KeyPair(secret, u));
    case Revoke(u, removeContent) =>
      if !removeContent {
        st.OrphanImagesOf(u);
      } else {
        RemoveContent(st, u);
      }
      st.DestroyKey(u);
      resp := Done(Message(KeyDeleted));
  }

  /**
   * Only the master key, presented while API_AUTH_ENABLED and
   * MASTER_API_KEY are set, gets past the gate; every other request is 401
   * whatever its verb.
   */
  lemma OnlyMasterAdministers(cfg: Config, keys: map<string, ApiKey>, req: KeyRequest)
    requires KeyedByUuid(keys) && KeyStringsUnique(keys)
    ensures var plan := PlanKey(cfg, keys, req);
      (plan.Deny? && plan.status == 401) <==>
        !(Truthy(cfg.apiAuthEnabled) && Truthy(cfg.masterKey) && req.authorization == Some(BearerPrefix + cfg.masterKey.value))
  {
  }

  /** API_AUTH_ENABLED is tested for truthiness, so "false" enables the endpoint as much as "true". */
  lemma AuthFlagIsTruthiness(cfg: Config, keys: map<string, ApiKey>, req: KeyRequest)
    requires KeyedByUuid(keys) && KeyStringsUnique(keys)
    requires cfg.apiAuthEnabled == Some("false") && Truthy(cfg.masterKey)
    requires req.authorization == Some(BearerPrefix + cfg.masterKey.value) && req.verb == "POST"
    ensures PlanKey(cfg, keys, req) == Create
  {
  }

  /** A body naming an existing key by exactly one non-empty selector reaches that key. */
  lemma SelectorFindsKey(keys: map<string, ApiKey>, body: KeyBody, u: string)
    requires KeyedByUuid(keys) && KeyStringsUnique(keys)
    requires u in keys
    requires || (body.uuid == Some(u) && u != "" && body.key.None?)
             || (body.key == Some(keys[u].key) && keys[u].key != "" && body.uuid.None?)
    ensures SelectKey(keys, body) == Done(u)
  {
  }

  /** After a rotation the old secret identifies no key and the new one identifies the rotated key. */
  lemma RotationRevokesOldSecret(keys: map<string, ApiKey>, u: string, secret: string)
    requires KeyedByUuid(keys) && KeyStringsUnique(keys)
    requires u in keys
    requires forall v :: v in keys ==> keys[v].key != secret
    ensures var rotated := keys[u := keys[u].(key := secret)];
      && KeyStringsUnique(rotated)
      && FindKeyBySecret(rotated, keys[u].key).None?
      && FindKeyBySecret(rotated, secret) == Some(keys[u].(key := secret))
  {
    var rotated := keys[u := keys[u].(key := secret)];
    assert rotated[u].key == secret;
  }

  /** A deleted key's secret identifies no key any more. */
  lemma RevokedSecretRejected(keys: map<string, ApiKey>, u: string)
    requires KeyStringsUnique(keys)
    requires u in keys
    ensures FindKeyBySecret(keys - {u}, keys[u].key).None?
  {
  }

  /**
   * Orphaning leaves every image in place: the key's images lose both the
   * owner and the original-owner label (the setter clears it), every other
   * image is unchanged, and none is owned by the key afterwards.
   */
  lemma OrphaningClearsLabel(images: map<string, Image>, u: string)
    ensures var r := Orphaned(images, u);
      && OwnedBy(r, u) == {}
      && forall id :: id in images ==>
           if images[id].owner == Some(u) then r[id] == images[id].(owner := None, ownerString := None)
           else r[id] == images[id]
  {
  }

  /**
   * The content-removal branch removes "images/<id>", while uploads store
   * their bytes under "image/<id>": every stored blob, including those of
   * the destroyed images, survives the cascade unchanged.
   */
  lemma CascadeLeavesStoredBlobs(blobs: map<string, Bytes>, ids: set<string>, id: string)
    requires BlobPath(id) in blobs
    ensures BlobPath(id) in blobs - CascadePaths(ids)
    ensures (blobs - CascadePaths(ids))[BlobPath(id)] == blobs[BlobPath(id)]
  {
    if BlobPath(id) in CascadePaths(ids) {
      var other :| other in ids && BlobPath(id) == CascadePath(other);
      CascadePathNeverBlobPath(other, id);
      assert false;
    }
  }
}
