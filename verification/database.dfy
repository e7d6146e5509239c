/**
 * The two persisted record shapes, `Image` and `APIKey`, their default
 * secrets, the `owner` setter, and the table-wide facts the database keeps
 * (primary keys, the owner reference) or that fresh random secrets give.
 */
module Database {
  import opened Wrappers
  import opened Text

  /**
   * An image row. `id` is the primary key; `server` is the home node holding
   * the blob; `owner` references an API key's uuid; `ownerString` is a label
   * snapshot; `disableResizing` is written by resize-and-convert and read by
   * delivery although the schema does not declare it; `createdAt` is the
   * insertion time in milliseconds.
   */
  datatype Image = Image(
    id: string,
    server: string,
    owner: Option<string>,
    ownerString: Option<string>,
    revokationToken: Option<string>,
    width: int,
    height: int,
    format: string,
    disableResizing: bool,
    createdAt: int)

  /** An API key row: `uuid` is the primary key, `key` the bearer secret. */
  datatype ApiKey = ApiKey(uuid: string, key: string, createdAt: int)

  const ApiKeyPrefix: string := "kona_sk_"
  const RevocationPrefix: string := "kona_ri_"

  /** The default of `APIKey.key`: the prefix followed by a random string. */
  function NewApiKeySecret(random: string): (k: string)
    ensures StartsWith(k, ApiKeyPrefix) && k[|ApiKeyPrefix|..] == random
  {
    ApiKeyPrefix + random
  }

  /** The default of `Image.revokationToken`: the prefix followed by a random string. */
  function NewRevocationToken(random: string): (t: string)
    ensures StartsWith(t, RevocationPrefix) && t[|RevocationPrefix|..] == random
  {
    RevocationPrefix + random
  }

  /** A generated key is never mistaken for a revocation token, nor the other way round. */
  lemma GeneratedPrefixesDisjoint(r1: string, r2: string)
    ensures !StartsWith(NewApiKeySecret(r1), RevocationPrefix)
    ensures !StartsWith(NewRevocationToken(r2), ApiKeyPrefix)
    ensures NewApiKeySecret(r1) != NewRevocationToken(r2)
  {
    assert NewApiKeySecret(r1)[5] == 's' && RevocationPrefix[5] == 'r';
    assert NewRevocationToken(r2)[5] == 'r' && ApiKeyPrefix[5] == 's';
  }

  /** The `owner` setter: it writes the owner and always clears `ownerString`. */
  function SetOwner(r: Image, owner: Option<string>): (r': Image)
    ensures r'.owner == owner && r'.ownerString.None?
    ensures r'.(owner := r.owner, ownerString := r.ownerString) == r
  {
    r.(owner := owner, ownerString := None)
  }

  /**
   * `Image.create({... owner, ownerString ...})`: attributes are assigned in
   * the order given, so the setter runs first and the explicit `ownerString`
   * then overwrites the label it cleared.
   */
  function CreateImage(id: string, server: string, owner: Option<string>, ownerString: Option<string>,
                       width: int, height: int, format: string, disableResizing: bool,
                       token: string, createdAt: int): (r: Image)
    ensures r.owner == owner && r.ownerString == ownerString
    ensures r.id == id && r.revokationToken == Some(token) && r.disableResizing == disableResizing
  {
    var built := Image(id, server, None, None, Some(token), width, height, format, disableResizing, createdAt);
    SetOwner(built, owner).(ownerString := ownerString)
  }

  /** `Image.id` is the primary key of the images table. */
  predicate KeyedById(images: map<string, Image>) {
    forall id :: id in images ==> images[id].id == id
  }

  /** `APIKey.uuid` is the primary key of the keys table. */
  predicate KeyedByUuid(keys: map<string, ApiKey>) {
    forall u :: u in keys ==> keys[u].uuid == u
  }

  /** No two key rows share a secret (fresh random secrets). */
  predicate KeyStringsUnique(keys: map<string, ApiKey>) {
    forall u1, u2 :: u1 in keys && u2 in keys && keys[u1].key == keys[u2].key ==> u1 == u2
  }

  /** No two image rows share a revocation token (fresh random tokens). */
  predicate TokensUnique(images: map<string, Image>) {
    forall a, b ::
      (a in images && b in images && images[a].revokationToken.Some?
       && images[a].revokationToken == images[b].revokationToken) ==> a == b
  }

  /** `Image.owner` references `APIKey.uuid`. */
  predicate OwnersExist(images: map<string, Image>, keys: map<string, ApiKey>) {
    forall id :: id in images && images[id].owner.Some? ==> images[id].owner.value in keys
  }

  /** `APIKey.findOne({ where: { key } })`. */
  function FindKeyBySecret(keys: map<string, ApiKey>, secret: string): (r: Option<ApiKey>)
    requires KeyStringsUnique(keys)
    ensures r.Some? <==> exists u :: u in keys && keys[u].key == secret
    ensures r.Some? ==> r.value.key == secret && exists u :: u in keys && keys[u] == r.value
  {
    if exists u :: u in keys && keys[u].key == secret then
      var u :| u in keys && keys[u].key == secret;
      Some(keys[u])
    else None
  }

  /** `Image.findOne({ where: { revokationToken: token } })`. */
  function FindImageByToken(images: map<string, Image>, token: string): (r: Option<Image>)
    requires TokensUnique(images)
    ensures r.Some? <==> exists id :: id in images && images[id].revokationToken == Some(token)
    ensures r.Some? ==> r.value.revokationToken == Some(token) && exists id :: id in images && images[id] == r.value
  {
    if exists id :: id in images && images[id].revokationToken == Some(token) then
      var id :| id in images && images[id].revokationToken == Some(token);
      Some(images[id])
    else None
  }

  /** Where an image's bytes live under LOCAL_STORAGE_PATH. */
  function BlobPath(id: string): string {
    "image/" + id
  }

  /** The path the key-revocation cascade removes: the directory is "images", not "image". */
  function CascadePath(id: string): string {
    "images/" + id
  }

  /** Distinct ids have distinct blob paths. */
  lemma BlobPathInjective(a: string, b: string)
    requires BlobPath(a) == BlobPath(b)
    ensures a == b
  {
    assert a == BlobPath(a)[6..] && b == BlobPath(b)[6..];
  }

  /** The cascade never names a path where a blob is stored. */
  lemma CascadePathNeverBlobPath(a: string, b: string)
    ensures CascadePath(a) != BlobPath(b)
  {
    assert CascadePath(a)[5] == 's' && BlobPath(b)[5] == '/';
  }
}
