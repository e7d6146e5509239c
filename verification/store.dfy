/**
 * The database tables and the blob directory as one mutable store. Handlers
 * change it only through these operations, each of which keeps the table
 * invariants in `Valid`.
 */
module Storage {
  import opened Text
  import opened Wrappers
  import opened Database

  /** `Image.update({ owner: null }, { where: { owner: u } })`: the setter runs on every matched row. */
  function Orphaned(images: map<string, Image>, u: string): (r: map<string, Image>)
    ensures r.Keys == images.Keys
    ensures forall id :: id in r ==> r[id].owner != Some(u)
  {
    map id | id in images :: if images[id].owner == Some(u) then SetOwner(images[id], None) else images[id]
  }

  /** The ids of the images a key owns. */
  function OwnedBy(images: map<string, Image>, u: string): (ids: set<string>)
    ensures forall id :: id in ids <==> id in images && images[id].owner == Some(u)
  {
    set id | id in images && images[id].owner == Some(u)
  }

  class Store {
    /** The images table, by primary key. */
    var images: map<string, Image>
    /** The api-keys table, by primary key. */
    var keys: map<string, ApiKey>
    /** Files under LOCAL_STORAGE_PATH, by relative path. */
    var blobs: map<string, Bytes>

    ghost predicate Valid()
      reads this
    {
      && KeyedById(images)
      && KeyedByUuid(keys)
      && KeyStringsUnique(keys)
      && TokensUnique(images)
      && OwnersExist(images, keys)
    }

    constructor ()
      ensures Valid()
      ensures images == map[] && keys == map[] && blobs == map[]
    {
      images, keys, blobs := map[], map[], map[];
    }

    /** `Image.create`: inserts a row under a fresh id with a fresh token. */
    method InsertImage(r: Image)
      requires Valid()
      requires r.id !in images
      requires r.owner.Some? ==> r.owner.value in keys
      requires r.revokationToken.Some? ==> forall id :: id in images ==> images[id].revokationToken != r.revokationToken
      modifies this
      ensures Valid()
      ensures images == old(images)[r.id := r]
      ensures keys == old(keys) && blobs == old(blobs)
    {
      images := images[r.id := r];
    }

    /** `image.destroy()`. */
    method DestroyImage(id: string)
      requires Valid()
      modifies this
      ensures Valid()
      ensures images == old(images) - {id}
      ensures keys == old(keys) && blobs == old(blobs)
    {
      images := images - {id};
    }

    /** `Bun.write` / `fs.writeFileSync`: creates or overwrites a file. */
    method WriteBlob(path: string, data: Bytes)
      requires Valid()
      modifies this
      ensures Valid()
      ensures blobs == old(blobs)[path := data]
      ensures images == old(images) && keys == old(keys)
    {
      blobs := blobs[path := data];
    }

    /** `fs.promises.unlink` with errors ignored, or `rm` with `force`: the file is gone afterwards. */
    method RemoveBlob(path: string)
      requires Valid()
      modifies this
      ensures Valid()
      ensures blobs == old(blobs) - {path}
      ensures images == old(images) && keys == old(keys)
    {
      blobs := blobs - {path};
    }

    /** `APIKey.create()`: inserts a key row with a fresh uuid and a fresh secret. */
    method InsertKey(k: ApiKey)
      requires Valid()
      requires k.uuid !in keys
      requires forall u :: u in keys ==> keys[u].key != k.key
      modifies this
      ensures Valid()
      ensures keys == old(keys)[k.uuid := k]
      ensures images == old(images) && blobs == old(blobs)
    {
      keys := keys[k.uuid := k];
    }

    /** `key.update({ key: secret })`: only the secret changes. */
    method SetKeySecret(u: string, secret: string)
      requires Valid()
      requires u in keys
      requires forall v :: v in keys ==> keys[v].key != secret
      modifies this
      ensures Valid()
      ensures keys == old(keys)[u := old(keys)[u].(key := secret)]
      ensures images == old(images) && blobs == old(blobs)
    {
      keys := keys[u := keys[u].(key := secret)];
    }

    /** The bulk `owner: null` update of every image a key owns. */
    method OrphanImagesOf(u: string)
      requires Valid()
      modifies this
      ensures Valid()
      ensures images == Orphaned(old(images), u)
      ensures keys == old(keys) && blobs == old(blobs)
    {
      images := Orphaned(images, u);
    }

    /** `key.destroy()`, once no image references the key any more. */
    method DestroyKey(u: string)
      requires Valid()
      requires OwnedBy(images, u) == {}
      modifies this
      ensures Valid()
      ensures keys == old(keys) - {u}
      ensures images == old(images) && blobs == old(blobs)
    {
      keys := keys - {u};
    }
  }
}
