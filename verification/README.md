# Kona request handling, modelled in Dafny

Kona is an image server. Clients upload images and the server classifies
them (including animated PNG detection). It stores each original as a
record plus a blob, delivers it over a CDN path in any of five formats
(redirecting to the image's home node when the bytes live elsewhere), and
derives locked resized and converted copies. It lists and deletes images
for the master key, API keys and per-image revocation tokens, and lets the
master key issue, rotate and revoke API keys.

This project models that request handling, separated from HTTP, SQL, disk
and codecs:

- **Tables** (`ext_mapping.dfy`, `ffmpeg_codec_map.dfy`) are constant maps.
- **Records** (`database.dfy`) are datatypes. They include the default
  secret and token generators, the `owner` setter that clears
  `ownerString`, and the uniqueness invariants of the two tables.
- **The store** (`store.dfy`) is a class holding the images table, the
  api-keys table and the blob directory as maps. Every operation keeps
  `Valid()`: primary keys, unique secrets and tokens, and owners that exist.
- **Each handler** is two parts:
  - a pure decision function over a snapshot of the store (`PlanUpload`,
    `PlanResize`, `ListImages`, `PlanDelete`, `PlanKey`, and `Deliver`
    for the CDN);
  - where the handler changes state, a method that carries the decision
    out on the store (`HandleUpload`, `HandleResize`, `HandleDelete`,
    `HandleKey`). Its postcondition gives the new tables in terms of the
    decision.
- **`processImage`** (`process.dfy`) is a function returning the result
  and the trace of codec steps. It also appears as a method over a
  temporary directory, which is proved to produce the same trace and to
  leave the directory as it found it.
- **Classification** (`classify.dfy`, `byte_search.dfy`) works on the
  decoder's and the prober's results, which are given as inputs.
- **Pagination** (`list_image.dfy`):
  - It is specified on the set of rows: `NewestFirst` orders a set by
    descending `createdAt`, and `Page` takes the first `limit` rows older
    than the cursor.
  - It is proved that following `nextCursor` from no cursor delivers every
    row exactly once, newest first, when creation times are distinct and
    after the epoch.

Where the documented behaviour and the code differ, the model follows the
code:

- Orphaning a revoked key's images clears `ownerString` too, because the
  `owner` setter nulls it (src/database.ts:126-134).
- The content-removal cascade removes `images/<id>` while blobs are stored
  under `image/<id>`, so the image files stay on disk
  (`AppApiKey.CascadeLeavesStoredBlobs`).
- Delivery passes no width to `processImage`, so it converts but never
  resizes (`Delivery.DeliveryNeverResizes`).
- Upload has no pixel-dimension limit and no vector-document stage.
- Resize-and-convert does not look at the source's `disableResizing`, so a locked image can be derived from again (`ResizeAndConvert.LockNotConsulted`).
- Delete takes only `uuid`.
- A derived image's owner is the caller, null for the master key, while
  its `ownerString` is copied from the source.

## Model

| member | source | states |
|---|---|---|
| ExtMapping.FormatOfExt | src/delivery/http.ts:15 | the extension is looked up lower-cased; it is served exactly when its lower-case form is a key, and the format it names always has a MIME type |
| ExtMapping.ExtensionTable | src/delivery/ext-mapping.ts:3-9 | exactly the five extensions .jxl .webp .png .jpg .gif are keys, each with its own format; ".jpeg" is not a key |
| ExtMapping.ExtensionsInjective | src/delivery/ext-mapping.ts:3-9 | distinct extensions name distinct formats |
| ExtMapping.ExtensionFormatsHaveMIME | src/delivery/ext-mapping.ts:3-23 | every format an extension names has a FormatToMIME entry |
| ExtMapping.ExtensionKeysLowerDotted | src/delivery/ext-mapping.ts:3-9 | every key is a dot followed by lower-case letters, so the lower-cased lookup reaches it |
| ExtMapping.PriorityFormatsServed | src/delivery/ext-mapping.ts:11-15 | every preferred format is served by some extension |
| ExtMapping.FormatOfExtCaseInsensitive | src/delivery/http.ts:15 | two extensions equal up to letter case ask for the same format |
| FFmpegCodecMap.FormatOfCodec | src/ffmpeg-codec-map.ts:3-5 | a codec name maps to a format exactly when it is "apng", and then to APNG |
| FFmpegCodecMap.CodecLookupExact | src/ffmpeg-codec-map.ts:4 | lookup is by exact string: "APNG" and "png" are unmapped |
| FFmpegCodecMap.CodecNeverUnknown | src/ffmpeg-codec-map.ts:3-5 | no codec name maps to the "UNKNOWN" sentinel |
| Database.NewApiKeySecret | src/database.ts:78-84 | a default key is "kona_sk_" followed by the random part |
| Database.NewRevocationToken | src/database.ts:140-146 | a default token is "kona_ri_" followed by the random part |
| Database.GeneratedPrefixesDisjoint | src/database.ts:78-146 | no generated key starts with "kona_ri_", no generated token with "kona_sk_", and none is equal to the other |
| Database.SetOwner | src/database.ts:126-134 | the setter writes the owner and nulls ownerString whatever the new owner, touching no other field |
| Database.CreateImage | src/api/upload-image.ts:125-133 | `Image.create` with both owner and ownerString keeps both, the setter notwithstanding, along with the id, the token and the lock flag it is given |
| Database.FindKeyBySecret | src/api/upload-image.ts:22-29 | `APIKey.findOne({ where: { key } })` finds a row exactly when some key has that secret, and returns that row |
| Database.FindImageByToken | src/api/list-image.ts:34-41 | `Image.findOne({ where: { revokationToken } })` finds a row exactly when some image has that token, and returns that row |
| Database.CascadePathNeverBlobPath | src/api/app-api-key.ts:91 | the path the cascade removes ("images/<id>") is never a blob path ("image/<id>") |
| Storage.Orphaned | src/api/app-api-key.ts:72-78 | the bulk `owner: null` update keeps every row and leaves none owned by the key |
| Storage.OwnedBy | src/api/app-api-key.ts:80-84 | `findAll({ where: { owner } })` is exactly the ids whose owner is the key |
| Storage.Store.InsertImage | src/api/upload-image.ts:125-133 | inserting a row with a fresh id and token whose owner exists keeps the table invariants and changes only that row |
| Storage.Store.DestroyImage | src/api/delete-image.ts:69 | destroying a row removes exactly that row and keeps the invariants |
| Storage.Store.WriteBlob | src/api/upload-image.ts:135-136 | writing a file creates or replaces exactly that path |
| Storage.Store.RemoveBlob | src/api/delete-image.ts:67-68 | unlinking with errors ignored leaves exactly that path absent |
| Storage.Store.InsertKey | src/api/app-api-key.ts:17 | inserting a key with a fresh uuid and secret changes only the keys table |
| Storage.Store.SetKeySecret | src/api/app-api-key.ts:43 | updating a key's secret to a fresh one changes only that field of that row |
| Storage.Store.OrphanImagesOf | src/api/app-api-key.ts:72-78 | the bulk owner update replaces the images table by `Orphaned` and keeps the invariants |
| Storage.Store.DestroyKey | src/api/app-api-key.ts:98-100 | a key no image references can be destroyed, removing exactly its row |
| Http.BearerToken | src/api/list-image.ts:14 | `auth.slice(7)` is the token that follows "Bearer " |
| Text.Split | src/api/upload-image.ts:36 | `split` gives at least one part, no part contains the separator, and joining the parts gives the string back |
| Text.Lower | src/delivery/http.ts:15 | `toLowerCase` keeps the length and lower-cases each ASCII letter |
| ByteSearch.IndexOf | src/api/upload-image.ts:79-82 | the search returns the first offset at which the needle occurs, or -1 exactly when it occurs nowhere |
| ByteSearch.IndexOfPrefix | src/api/upload-image.ts:79-80 | an occurrence's offset does not depend on the bytes after it |
| Classify.FirstVideo | src/api/upload-image.ts:94-99 | `streams.find` returns the first video stream, and none exactly when there is no video stream |
| Classify.ProbeStage | src/api/upload-image.ts:91-115 | the prober stage classifies exactly when the first video stream's codec is "apng" with non-zero width and height, and then as APNG with that stream's size |
| Classify.Classify | src/api/upload-image.ts:52-121 | the cascade never yields "UNKNOWN" |
| Classify.PrimaryVerdictKept | src/api/upload-image.ts:66-85 | a decoded format other than PNG, or a PNG whose tags are not in animated order, is kept as decoded |
| Classify.UnknownRejected | src/api/upload-image.ts:119-121 | a primary "UNKNOWN" is rejected |
| Classify.ProberDecides | src/api/upload-image.ts:82-115 | when decoding throws or a PNG looks animated, the outcome is the prober stage's |
| Classify.ProberIgnoredOtherwise | src/api/upload-image.ts:76-91 | otherwise the prober's result does not matter |
| Classify.AnimatedPngNeverPlainPng | src/api/upload-image.ts:76-110 | bytes whose "acTL" precedes "IDAT" are never classified as plain PNG |
| Classify.AnimatedOrderDetected | src/api/upload-image.ts:79-84 | "acTL" followed later by the first "IDAT" is detected as animated |
| UploadImage.Identify | src/api/upload-image.ts:9-32 | a caller is a key holder exactly when its header is "Bearer " plus that key's secret; a falsy header is anonymous unless API_AUTH_ENABLED is "true" and the header is missing |
| UploadImage.PlanUpload | src/api/upload-image.ts:8-121 | refusals are 400, 401, 405, 413 or 415, and 401 only from the identity step; which requests are accepted is pinned by AcceptedExactlyWhenClassified, and each refusal's cause by UploadGuardsChecked and the refusal lemmas below |
| UploadImage.UploadGuardsChecked | src/api/upload-image.ts:34-156 | for an identified caller: 405 exactly for a verb other than POST; on POST, 415 exactly for a non-multipart body; then 400 exactly for a missing or non-file `image` field; then, within the size limit, 400 InvalidImageInput exactly when the bytes are not classified |
| UploadImage.HandleUpload | src/api/upload-image.ts:123-149 | a refused upload changes nothing; an accepted one adds exactly the new record and the blob "image/<id>", and replies with id, owner, token, format and size |
| UploadImage.MissingHeaderRefused | src/api/upload-image.ts:10-13 | with API_AUTH_ENABLED "true", a missing header is 401 MissingAuthorization |
| UploadImage.OnlyKeySecretsAccepted | src/api/upload-image.ts:19-32 | a bearer token that is no key's secret is 401, the master key included |
| UploadImage.NonBearerRefused | src/api/upload-image.ts:15-17 | a truthy header that is not "Bearer ..." is 401 InvalidAuthorization |
| UploadImage.SizeLimitInclusive | src/api/upload-image.ts:48-50 | a file exactly at MAX_FILE_SIZE is not refused for size; a larger one is 413 |
| UploadImage.AcceptedExactlyWhenClassified | src/api/upload-image.ts:34-121 | an upload is accepted exactly when identity, method, content type, field and size pass and the cascade classifies; the plan then carries the classification and the uploader |
| UploadImage.MultipartWithBoundary | src/api/upload-image.ts:36 | a Content-Type with parameters after ";" counts as multipart |
| UploadImage.UploadedRecordShape | src/api/upload-image.ts:123-133 | the record lives on this node with the uploader as owner and label, the classified format and size, and the fresh token |
| Process.EncodeAttempt | src/delivery/process.ts:51-67 | the callback reads first, resizes only to a given width, disposes right after writing, yields nothing after a failed read, and otherwise, unless a needed resize throws (which leaves without writing or disposing), yields exactly what the write makes of the decoded image, resized when the width is given and differs |
| Process.Convert | src/delivery/process.ts:12-133 | no codec step is taken exactly on the fast path; a failure is "Failed to render image." exactly when the source is not SVG; FirstAttemptServes, SvgSucceeds, FallbackServes and ResizeThrowFallsBack give its result on each success path |
| Process.FirstAttemptServes | src/delivery/process.ts:50-74 | on a raster source off the fast path, a first attempt with output is the result, with its own trace and no ffmpeg spawned |
| Process.SvgSucceeds | src/delivery/process.ts:18-48 | an SVG source whose render, decode and write all succeed yields the written bytes of the render at the requested width |
| Process.FallbackServes | src/delivery/process.ts:76-132 | when the first attempt produced nothing, ffmpeg exits and its WebP file is read, a retry with output is the conversion's result |
| Process.ResizeThrowFallsBack | src/delivery/process.ts:50-74 | a resize that throws on the raster path skips write and dispose and hands the conversion to the ffmpeg fallback, whose result it returns |
| Process.ProcessImage | src/delivery/process.ts:12-133 | the step-by-step conversion yields the result and trace of `Convert` and leaves the temporary directory as it found it |
| Process.TempDir.Put | src/delivery/process.ts:81-97 | ffmpeg's output file is added under the temporary path |
| Process.TempDir.Remove | src/delivery/process.ts:130 | `rm` with `force` leaves the path absent |
| Process.FastPathIsIdentity | src/delivery/process.ts:13-16 | same format and no differing width return the bytes unchanged with no codec step, SVG included |
| Process.SvgNeverFallsBack | src/delivery/process.ts:19-48 | an SVG source starts with rendering (fit to width only when given), never spawns ffmpeg, and never fails with "Failed to render image." |
| Process.ResizeOnlyAsRequested | src/delivery/process.ts:52-54 | every resize step is to the requested width, and there is none without one |
| Process.RasterResizeCondition | src/delivery/process.ts:51-54 | the raster path resizes exactly when a width is given and the decoded width differs |
| Process.FallbackAtMostOnce | src/delivery/process.ts:50-132 | ffmpeg is spawned exactly when the first attempt on a raster source produced nothing (the read, a needed resize or the write threw), and at most once |
| Process.FallbackCleansUp | src/delivery/process.ts:126-131 | once ffmpeg is spawned the temp file removal is the last step and any failure is "Failed to render image." |
| Process.WritesDisposed | src/delivery/process.ts:29-118 | every write is immediately followed by disposing of the image |
| Delivery.Deliver | src/delivery/http.ts:9-101 | errors are 400, 404 or 500, and served content carries a MIME type of the table; DeliverServes states when it serves and what |
| Delivery.FileSegment | src/delivery/http.ts:10 | the file segment contains no "/" |
| Delivery.ExtName | src/delivery/http.ts:12 | the extension is empty or a dot-led suffix of the name with no further dot |
| Delivery.Stem | src/delivery/http.ts:13 | the id followed by the extension is the file segment |
| Delivery.CdnPathRoundTrip | src/delivery/http.ts:49 | for an id without "/" and an extension whose lower-case form is served, the redirect path parses back to the same id and the extension in the request's letter case |
| Delivery.UnmappedExtensionRefused | src/delivery/http.ts:15-23 | an unmapped extension is 400 before any lookup |
| Delivery.UnknownIdNotFound | src/delivery/http.ts:26-39 | an unknown id is 404 |
| Delivery.RedirectExactlyWhenRemote | src/delivery/http.ts:41-52 | a redirect happens exactly when the record exists, the blob is absent and the home node is another server, and it points at that node's copy |
| Delivery.MissingLocalBlobNotFound | src/delivery/http.ts:43-60 | a blob missing on its own home node is 404 |
| Delivery.DisableResizingGuard | src/delivery/http.ts:63-83 | a locked record is 400 exactly when the format differs or a truthy width differs; NaN and 0 are ignored |
| Delivery.DeliverServes | src/delivery/http.ts:9-101 | a request for a served extension of a stored image with its file, passing the resize lock, whose conversion succeeds, is served with the target's MIME type and the converted bytes |
| Delivery.ServedContent | src/delivery/http.ts:85-92 | served content means a mapped extension, a stored image with its file and a passing resize lock; it carries the target's MIME type and the conversion's output, which is the stored bytes when the format already matches |
| Delivery.DeliveryNeverResizes | src/delivery/http.ts:85 | delivery's conversion never resizes |
| Delivery.ConversionFailureIs500 | src/delivery/http.ts:93-100 | a conversion that throws is 500 |
| ResizeAndConvert.Identify | src/api/resize-and-convert.ts:12-47 | the caller is the master exactly when it presents the configured master key; it is a key holder exactly when it presents an existing key's "kona_sk_" secret that is not the master key; a falsy header is anonymous unless API_AUTH_ENABLED is "true" and the header is missing, which is 401 MissingAuthorization; every other refusal is 401 InvalidAuthorization |
| ResizeAndConvert.ResizeIdentityRefusal | src/api/resize-and-convert.ts:12-47 | a failed identification is the reply, with its own status and code |
| ResizeAndConvert.ResizeMissingHeaderRefused | src/api/resize-and-convert.ts:15-18 | with API_AUTH_ENABLED "true", a request without the header is 401 MissingAuthorization |
| ResizeAndConvert.ResizeUnknownTokenRefused | src/api/resize-and-convert.ts:26-44 | a bearer token that is neither the master key nor an existing key's secret is 401 InvalidAuthorization |
| ResizeAndConvert.FindSource | src/api/resize-and-convert.ts:57-65 | the source is found exactly when the id exists and the caller is master or the owner filter matches |
| ResizeAndConvert.CeilDiv | src/api/resize-and-convert.ts:85 | the quotient is the least integer whose product with the divisor reaches the dividend |
| ResizeAndConvert.PlanResize | src/api/resize-and-convert.ts:49-114 | refusals are 400, 401, 404, 405 or 500, and a derivation's source lives here with its blob present; DeriveOnlyFromAccessible and DeriveWhenAllowed pin when it derives, ResizeGuardsChecked and ResizeServerErrors why it refuses |
| ResizeAndConvert.ResizeGuardsChecked | src/api/resize-and-convert.ts:49-72 | for an identified caller, in order: 405 exactly for a verb other than POST; 400 exactly for a body missing a key; 404 NotFound exactly when the lookup misses; 400 InvalidQuery exactly for an out-of-range width; 404 Unknown exactly for a record of another node |
| ResizeAndConvert.ResizeServerErrors | src/api/resize-and-convert.ts:73-111 | past those guards, 500 exactly when the local file is missing, the conversion fails, or a truthy width meets a source without positive width |
| ResizeAndConvert.HandleResize | src/api/resize-and-convert.ts:49-114 | a refusal changes nothing; a derivation adds exactly the derived record and its blob, and the temporary directory is left as found |
| ResizeAndConvert.DeriveOnlyFromAccessible | src/api/resize-and-convert.ts:57-62 | a derivation's source is the requested image, reachable by the caller, and the new owner is the caller's |
| ResizeAndConvert.DeriveWhenAllowed | src/api/resize-and-convert.ts:49-91 | an identified caller POSTing a complete body for an image it may reach, with an absent, 0 or in-bounds width, on this node with its blob, gets a derivation from that image with `processImage`'s output when the conversion succeeds |
| ResizeAndConvert.LockNotConsulted | src/api/resize-and-convert.ts:57-91 | the source's disableResizing is never consulted: flipping it changes no decision |
| ResizeAndConvert.UnsetEdgeRejectsWidths | src/api/resize-and-convert.ts:67-69 | with a non-numeric MAX_OUTPUT_IMAGE_EDGE every truthy width is refused |
| ResizeAndConvert.DerivedDimensions | src/api/resize-and-convert.ts:84-85 | width is the given target or the source's; with a truthy width the height is the least integer keeping the aspect ratio, otherwise the source's |
| ResizeAndConvert.ZeroWidthStoredAsZero | src/api/resize-and-convert.ts:67-85 | a targetWidth of 0 passes the check and is stored as width 0 with the source's height |
| ResizeAndConvert.DerivedBytesConverted | src/api/resize-and-convert.ts:71-77 | the derived bytes are what `processImage` produced from the local source blob on this node |
| ResizeAndConvert.DerivedRecordShape | src/api/resize-and-convert.ts:80-89 | the derived record is locked, lives here, is owned by the caller and labelled like its source |
| BearerAuth.IdentifyBearer | src/api/list-image.ts:7-43 | a missing header is 401 MissingAuthorization; an accepted header is "Bearer " plus a token that is the master key, an existing key's "kona_sk_" secret, an image's "kona_ri_" token, or has neither prefix; every failure is 401 |
| ListImage.ListImages | src/api/list-image.ts:6-106 | refusals are 400, 401 or 405, and an owner-scoped query carries a limit in 1..100, and any answer but a refusal means the bearer was identified; the handler lemmas below pin each caller's outcome |
| ListImage.ListIdentityRefusal | src/api/list-image.ts:7-43 | a failed bearer identification is the reply, with its own status and code |
| ListImage.ListUnknownTokenRefused | src/api/list-image.ts:22-41 | a "kona_sk_" secret that is no key's, or a "kona_ri_" token that is no image's, is 401 InvalidAuthorization unless it is the master key |
| ListImage.PageSize | src/api/list-image.ts:47-49 | an absent limit is 10, a number in 1..100 is itself, NaN or anything else is refused |
| ListImage.NewestFirst | src/api/list-image.ts:76 | the order holds each row once, nothing else, by descending createdAt |
| ListImage.PageIsNewest | src/api/list-image.ts:59-78 | a page holds min(limit, #candidates) rows older than the cursor (none filtered at 0), newest first, each once, none older than a row left out |
| ListImage.NextCursor | src/api/list-image.ts:79 | a next cursor exists exactly when the page is full, and it is the last row's createdAt |
| ListImage.WalkListsEverything | src/api/list-image.ts:59-79 | following nextCursor from no cursor delivers every row exactly once, newest first, when creation times are distinct and after the epoch |
| ListImage.WalkDeterministic | src/api/list-image.ts:79 | what following the cursor delivers is determined by where it starts |
| ListImage.ListHeaderChecked | src/api/list-image.ts:7-12 | a missing header is 401 MissingAuthorization, a non-"Bearer " one 401 InvalidAuthorization |
| ListImage.ListOnlyGet | src/api/list-image.ts:45-46 | once identified, a caller gets 405 exactly for verbs other than GET |
| ListImage.ListQueryChecked | src/api/list-image.ts:47-57 | a GET is 400 InvalidQuery exactly when the limit is NaN or outside 1..100 or the cursor does not parse |
| ListImage.UnscopedListing | src/api/list-image.ts:16-43 | the master key and any token with neither known prefix list from all images: the page and its next cursor |
| ListImage.TokenCallerSeesOwnImage | src/api/list-image.ts:78-79 | a revocation-token caller gets exactly its image and no next cursor, whatever the limit or cursor |
| ListImage.KeyCallerScoped | src/api/list-image.ts:71-74 | an API-key caller's listing is the query scoped to that key's uuid |
| DeleteImage.PlanDelete | src/api/delete-image.ts:8-65 | only 400/401/404/405 refuse; a removal names an existing image the DELETE body asked for, and needs an identified bearer |
| DeleteImage.DeleteIdentityRefusal | src/api/delete-image.ts:8-45 | a failed bearer identification is the reply, with its own status and code |
| DeleteImage.DeleteUnknownTokenRefused | src/api/delete-image.ts:22-42 | a "kona_sk_" secret that is no key's, or a "kona_ri_" token that is no image's, is 401 InvalidAuthorization unless it is the master key |
| DeleteImage.HandleDelete | src/api/delete-image.ts:67-75 | a refusal changes nothing; a removal removes exactly that row and its "image/<id>" blob |
| DeleteImage.DeleteRequestChecked | src/api/delete-image.ts:48-52 | after identification a verb other than DELETE is 405, and a DELETE without uuid is 400 |
| DeleteImage.DeleteAuthorized | src/api/delete-image.ts:19-65 | whatever is removed is an ownerless image for the master key, an image owned by the presented key, or the image of the presented token |
| DeleteImage.OwnersCanDelete | src/api/delete-image.ts:19-65 | conversely, each of those callers can remove such an image |
| DeleteImage.MasterOnlyOwnerless | src/api/delete-image.ts:57-62 | the master key gets 404 for an image with an owner |
| DeleteImage.TokenMismatchRejected | src/api/delete-image.ts:54-55 | a revocation token naming another image is 401 |
| DeleteImage.OtherBearerRejected | src/api/delete-image.ts:43-45 | a token with no known prefix that is not the master key is 401 |
| AppApiKey.AdminGate | src/api/app-api-key.ts:8-13 | the gate passes exactly when API_AUTH_ENABLED and MASTER_API_KEY are truthy and the header is "Bearer <master key>"; MissingAuthorization exactly for a missing header |
| AppApiKey.SelectKey | src/api/app-api-key.ts:26-41 | 400 exactly when both or neither selector is present or the present one is empty; a found key is the named one |
| AppApiKey.PlanKey | src/api/app-api-key.ts:15-110 | a rotation or revocation always names an existing key; PlanKeyPastGate gives every verb's answer |
| AppApiKey.PlanKeyPastGate | src/api/app-api-key.ts:15-110 | past the master-key gate: POST creates; PATCH rotates and DELETE revokes (with `content_removal`) the selected key, or answers the selector's error; any other verb is 405 |
| AppApiKey.CascadePaths | src/api/app-api-key.ts:91 | the removed paths are exactly "images/<id>" for the destroyed ids |
| AppApiKey.RemoveContent | src/api/app-api-key.ts:79-96 | the loop destroys exactly the key's images and removes exactly their "images/<id>" paths |
| AppApiKey.HandleKey | src/api/app-api-key.ts:15-110 | POST inserts one key; PATCH replaces only the secret; DELETE removes the key after orphaning or destroying its images; a refusal changes nothing |
| AppApiKey.OnlyMasterAdministers | src/api/app-api-key.ts:8-13 | a request is refused with 401 exactly when it is not the master key presented while both settings are truthy |
| AppApiKey.AuthFlagIsTruthiness | src/api/app-api-key.ts:11 | API_AUTH_ENABLED "false" enables the endpoint, as it is tested for truthiness |
| AppApiKey.SelectorFindsKey | src/api/app-api-key.ts:36-38 | a body naming an existing key by exactly one non-empty selector reaches that key |
| AppApiKey.RotationRevokesOldSecret | src/api/app-api-key.ts:43 | after rotation the old secret finds no key and the new one finds the rotated key |
| AppApiKey.RevokedSecretRejected | src/api/app-api-key.ts:98-100 | a deleted key's secret finds no key |
| AppApiKey.OrphaningClearsLabel | src/api/app-api-key.ts:70-78 | orphaning keeps every image, clears owner and label of the key's images, leaves the others unchanged |
| AppApiKey.CascadeLeavesStoredBlobs | src/api/app-api-key.ts:91-94 | every stored "image/<id>" blob survives the cascade unchanged |

## Left out

- Codecs (ImageMagick read, resize and write, resvg, ffmpeg, ffprobe) are function-valued inputs, and their pixel semantics are not modelled. `resize(width, 0)` carries no aspect-ratio promise.
- The conversion trace records the read callback's own calls. Whatever `ImageMagick.read` itself does with the image after its callback throws is not modelled.
- `boyerMooreStringSearch` is specified by its result (first offset or -1), not by its skip table; its source is not part of this model.
- Disk, database and network I/O are not modelled. Tables and the blob directory are maps, and each handler's awaits run in order without interleaving. Concurrent requests are not modelled.
- Random ids, secrets and tokens are parameters, and their freshness is a precondition. Temp-file naming (`Date.now`, `Math.random`) is a fresh path given to `ProcessImage`.
- JavaScript parsing (`+x`, `parseInt`, `Number(env)`, JSON bodies) is not modelled. Limit, cursor, widths and MAX_* settings arrive parsed as integers or NaN flags, and non-integer limits are not considered. Unparsable bodies, which raise 500 or an unhandled rejection, and non-string JSON values for `uuid` or `key` are not modelled.
- ResizeAndConvert.DerivedDimensions: the height is the exact rational ceiling; the source's `Math.ceil(h * (tw / w))` in doubles may differ by rounding for large values.
- ResizeAndConvert.PlanResize: a truthy target width on a source of width 0 makes the source store a non-finite height; the model answers 500 there. The same answer is given for a negative source width, which no stored record has and for which the source would compute a finite height.
- `disableResizing` is not declared in the `Image` schema. The model keeps it as a record field, as the handlers read and write it, and does not model whether the database persists it.
- The `ownerUUID` filter in list-image names a column the schema does not declare. An API-key caller's listing is therefore returned as the query (`OwnerScopedQuery`), not as rows.
- Pagination is proved for distinct, positive creation times. Equal times make the `<` cursor skip rows, and ties are ordered arbitrarily (`NewestFirst` picks one order).
- Text.Lower: lower-casing is ASCII only, which is enough for the ASCII extension table.
- Response bodies, headers other than status, Location and content-type, and JSON serialisation are not modelled. Error replies are a status and an error code.
- `src/api-router.ts`, `index.ts`, `src/env-types.d.ts`, `src/error-enum.ts` and `src/image-process.ts` are not part of this model. They hold routing, the server entry point, type declarations, an enum (replaced by the `ErrorCode` datatype) and codec loading.
- The database dialect and connection setup (src/database.ts:4-62) and the `sync` calls are not modelled.
