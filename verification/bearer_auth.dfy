/**
 * The identity step list-image and delete-image share: the Authorization
 * header is mandatory and must be "Bearer <token>"; the token is the master
 * key, an API-key secret ("kona_sk_..."), an image's revocation token
 * ("kona_ri_..."), or none of these.
 */
module BearerAuth {
  import opened Wrappers
  import opened Text
  import opened Http
  import opened Database

  /** Whom a bearer token names. */
  datatype Bearer =
    | MasterBearer
    | KeyBearer(uuid: string)
    | TokenBearer(image: Image)
    | OtherBearer

  /**
   * Missing header: 401 MissingAuthorization; empty or non-"Bearer " header:
   * 401 InvalidAuthorization; a "kona_sk_" or "kona_ri_" token that matches
   * no row: 401 InvalidAuthorization. Any other token is `OtherBearer`,
   * which each handler treats in its own way.
   */
  function IdentifyBearer(cfg: Config, keys: map<string, ApiKey>, images: map<string, Image>,
                          authorization: Option<string>): (r: ApiResult<Bearer>)
    requires KeyedById(images) && KeyedByUuid(keys) && KeyStringsUnique(keys) && TokensUnique(images)
    ensures r.Fail? ==> r.status == 401
    ensures authorization.None? ==> r == Fail(401, MissingAuthorization)
    ensures r.Done? ==>
      && Truthy(authorization) && StartsWith(authorization.value, BearerPrefix)
      && var token := BearerToken(authorization.value);
      && (r.value.MasterBearer? <==> IsMaster(cfg, token))
      && (r.value.KeyBearer? ==>
            && r.value.uuid in keys && keys[r.value.uuid].key == token
            && StartsWith(token, ApiKeyPrefix))
      && (r.value.TokenBearer? ==>
            && r.value.image.id in images && images[r.value.image.id] == r.value.image
            && r.value.image.revokationToken == Some(token)
            && !StartsWith(token, ApiKeyPrefix) && StartsWith(token, RevocationPrefix))
      && (r.value.OtherBearer? ==> !StartsWith(token, ApiKeyPrefix) && !StartsWith(token, RevocationPrefix))
  {
    if authorization.None? then Fail(401, MissingAuthorization)
    else if !Truthy(authorization) || !StartsWith(authorization.value, BearerPrefix) then Fail(401, InvalidAuthorization)
    else
      var token := BearerToken(authorization.value);
      if IsMaster(cfg, token) then Done(MasterBearer)
      else if StartsWith(token, ApiKeyPrefix) then
        match FindKeyBySecret(keys, token)
        case None => Fail(401, InvalidAuthorization)
        case Some(k) => Done(KeyBearer(k.uuid))
      else if StartsWith(token, RevocationPrefix) then
        match FindImageByToken(images, token)
        case None => Fail(401, InvalidAuthorization)
        case Some(img) => Done(TokenBearer(img))
      else Done(OtherBearer)
  }
}
