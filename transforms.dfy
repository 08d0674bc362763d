/** The transform registry: derived images of a photo, each with a QR code pointing at the
    derived image, kept as `transform` rows next to their two remote assets. */
module TransformRepo {
  import opened Types
  import opened Store
  import opened Media

  /** The row's QR asset is live and encodes the row's image url. */
  predicate QrPointsAtImage(row: TransformRow, assets: map<PublicId, Hosted>)
  {
    && row.qrCodeUrl.Some? && row.qrCodePublicId.Some?
    && row.qrCodePublicId.value in assets
    && assets[row.qrCodePublicId.value] == Hosted(row.qrCodeUrl.value, QrMake(row.imageUrl))
  }

  /** `get_image_by_id`. */
  function GetImageById(images: map<int, ImageRow>, id: int): (r: Option<ImageRow>)
    ensures r.None? <==> id !in images
    ensures r.Some? ==> r.value == images[id]
  {
    if id in images then Some(images[id]) else None
  }

  /** `get_transformed_image`: the first row with the id, which is the one stored under it. */
  function GetTransformedImage(transforms: map<int, TransformRow>, id: int): (r: Option<TransformRow>)
    ensures r.None? <==> id !in transforms
    ensures r.Some? ==> r.value == transforms[id] && r.value in transforms.Values
  {
    if id in transforms then Some(transforms[id]) else None
  }

  /** `get_transforms_by_user_id`: the rows owned by the user (as a set: the query has no order). */
  function GetTransformsByUserId(transforms: map<int, TransformRow>, userId: int): (r: set<TransformRow>)
    ensures forall t :: t in r ==> t in transforms.Values && t.userId == userId
    ensures forall id :: id in transforms && transforms[id].userId == userId ==> transforms[id] in r
  {
    set id | id in transforms && transforms[id].userId == userId :: transforms[id]
  }

  /** Inserts a transform row under the next id. */
  method AddTransform(db: Db, naturalPhotoId: int, imageUrl: string, publicId: PublicId,
                      qrCodeUrl: string, qrCodePublicId: PublicId, userId: int) returns (row: TransformRow)
    requires db.Valid()
    modifies db`transforms, db`nextTransformId
    ensures db.Valid()
    ensures row == TransformRow(old(db.nextTransformId), naturalPhotoId, imageUrl, publicId,
                                Some(qrCodeUrl), Some(qrCodePublicId), userId)
    ensures row.id !in old(db.transforms) && db.transforms == old(db.transforms)[row.id := row]
  {
    row := TransformRow(db.nextTransformId, naturalPhotoId, imageUrl, publicId, Some(qrCodeUrl), Some(qrCodePublicId), userId);
    db.transforms := db.transforms[row.id := row];
    db.nextTransformId := db.nextTransformId + 1;
  }

  /** `create_transformed_image`: derive the image, upload a QR code of the derived image's url,
      then store the row. Any failure yields None with no row written; an asset already
      uploaded by then stays on the host. */
  method CreateTransformedImage(db: Db, host: MediaHost, userId: int, naturalPhotoId: int, params: Params)
    returns (r: Option<TransformRow>)
    requires db.Valid() && host.Valid()
    modifies db`transforms, db`nextTransformId, host
    ensures db.Valid() && host.Valid()
    ensures naturalPhotoId !in db.images ==> r.None? && host.assets == old(host.assets)
    ensures r.None? ==> db.transforms == old(db.transforms) && old(host.assets).Keys <= host.assets.Keys
    ensures r.None? ==>
      || host.assets == old(host.assets)
      || (&& naturalPhotoId in db.images
          && exists p: PublicId, u: string :: p !in old(host.assets) &&
               host.assets == old(host.assets)[p := Hosted(u, Derived(db.images[naturalPhotoId].url, params))])
    ensures r.Some? ==>
      && naturalPhotoId in db.images
      && r.value.id == old(db.nextTransformId) && r.value.id !in old(db.transforms)
      && db.transforms == old(db.transforms)[r.value.id := r.value]
      && r.value.naturalPhotoId == naturalPhotoId && r.value.userId == userId
      && r.value.publicId !in old(host.assets)
      && r.value.publicId in host.assets
      && host.assets[r.value.publicId] == Hosted(r.value.imageUrl, Derived(db.images[naturalPhotoId].url, params))
      && QrPointsAtImage(r.value, host.assets)
      && r.value.qrCodePublicId.value !in old(host.assets)
      && host.assets.Keys == old(host.assets).Keys + {r.value.publicId, r.value.qrCodePublicId.value}
  {
    var initialPhoto := GetImageById(db.images, naturalPhotoId);
    if initialPhoto.None? {
      return None;
    }
    var transformed := host.UploadTransformed(userId, initialPhoto.value.url, params);
    if !transformed.Asset? {
      return None;
    }
    var qrImage := QrMake(transformed.url);
    var qr := host.UploadQrCode(userId, qrImage);
    if !qr.Asset? {
      assert host.assets == old(host.assets)[transformed.publicId := Hosted(transformed.url, Derived(initialPhoto.value.url, params))];
      return None;
    }
    var row := AddTransform(db, naturalPhotoId, transformed.url, transformed.publicId, qr.url, qr.publicId, userId);
    r := Some(row);
  }

  /** Lines 69-72 as written: the owner is read from the lookup before it is checked for None,
      so a missing id raises AttributeError instead of returning None. */
  function LookupForUpdateAsWritten(transforms: map<int, TransformRow>, id: int): (r: Result<Option<TransformRow>>)
    ensures r.Err? <==> id !in transforms
    ensures r.Err? ==> r.error == InternalError
  {
    if id !in transforms then Err(InternalError) else Ok(Some(transforms[id]))
  }

  /** The lookup as intended: None for a missing id, never an error. */
  function LookupForUpdate(transforms: map<int, TransformRow>, id: int): (r: Option<TransformRow>)
    ensures r.None? <==> id !in transforms
    ensures r.Some? ==> r.value == transforms[id] && r.value in transforms.Values
  {
    GetTransformedImage(transforms, id)
  }

  /** A missing id crashes the lookup as written, where the intended lookup answers None. */
  lemma MissingTransformCrashesUpdate(transforms: map<int, TransformRow>, id: int)
    requires id !in transforms
    ensures LookupForUpdateAsWritten(transforms, id) == Err(InternalError)
    ensures LookupForUpdate(transforms, id) == None
  {
  }

  /** Lines 82-84 as written: the new urls go to attributes that are not columns (`url`,
      `qr_url`, `qr_public_id`), so the stored row is the old one. */
  function ApplyUpdateAsWritten(row: TransformRow, imageUrl: string, qrUrl: string, qrPublicId: PublicId): (r: TransformRow)
    ensures r.imageUrl == row.imageUrl && r.qrCodeUrl == row.qrCodeUrl && r.qrCodePublicId == row.qrCodePublicId
  {
    row
  }

  /** The assignment as intended: the new image url and QR asset replace the old ones in the
      row; identity, source photo, owner and asset id are kept. */
  function ApplyUpdate(row: TransformRow, imageUrl: string, qrUrl: string, qrPublicId: PublicId): (r: TransformRow)
    ensures r.imageUrl == imageUrl && r.qrCodeUrl == Some(qrUrl) && r.qrCodePublicId == Some(qrPublicId)
    ensures r.id == row.id && r.naturalPhotoId == row.naturalPhotoId
    ensures r.publicId == row.publicId && r.userId == row.userId
  {
    row.(imageUrl := imageUrl, qrCodeUrl := Some(qrUrl), qrCodePublicId := Some(qrPublicId))
  }

  /** As written, a successful update leaves the row pointing at the previous image and the
      previous QR code, though a new QR code was uploaded; the intended update points at the new ones. */
  lemma UpdateAsWrittenKeepsStaleRow(row: TransformRow, imageUrl: string, qrUrl: string, qrPublicId: PublicId,
                                     assets: map<PublicId, Hosted>)
    requires imageUrl != row.imageUrl
    requires qrPublicId in assets && assets[qrPublicId] == Hosted(qrUrl, QrMake(imageUrl))
    ensures ApplyUpdateAsWritten(row, imageUrl, qrUrl, qrPublicId).imageUrl != imageUrl
    ensures ApplyUpdate(row, imageUrl, qrUrl, qrPublicId).imageUrl == imageUrl
    ensures QrPointsAtImage(ApplyUpdate(row, imageUrl, qrUrl, qrPublicId), assets)
  {
  }

  /** `update_transformed_image`, with both corrections: a missing id answers None, and the
      new url and QR asset are written to the row. A falsy new url (none, or empty) or any
      failure answers None and writes nothing; the old QR asset is not destroyed. */
  method UpdateTransformedImage(db: Db, host: MediaHost, id: int, params: Params) returns (r: Option<TransformRow>)
    requires db.Valid() && host.Valid()
    modifies db`transforms, host
    ensures db.Valid() && host.Valid()
    ensures id !in old(db.transforms) ==> r.None? && host.assets == old(host.assets)
    ensures r.None? ==> db.transforms == old(db.transforms) && host.assets == old(host.assets)
    ensures r.Some? ==>
      && id in old(db.transforms)
      && var before := old(db.transforms)[id];
      && r.value.id == id && r.value.naturalPhotoId == before.naturalPhotoId
      && r.value.userId == before.userId && r.value.publicId == before.publicId
      && r.value.imageUrl != ""
      && db.transforms == old(db.transforms)[id := r.value]
      && QrPointsAtImage(r.value, host.assets)
      && r.value.qrCodePublicId.value !in old(host.assets)
      && host.assets.Keys == old(host.assets).Keys + {r.value.qrCodePublicId.value}
  {
    var found := LookupForUpdate(db.transforms, id);
    if found.None? {
      return None;
    }
    var transformed := found.value;
    var userId := transformed.userId;
    var newUrl := host.ExplicitTransform(transformed.publicId, params);
    if newUrl.Err? || newUrl.value.None? || newUrl.value.value == "" {
      return None;
    }
    var url := newUrl.value.value;
    var qr := host.UploadQrCode(userId, QrMake(url));
    if !qr.Asset? {
      return None;
    }
    var updated := ApplyUpdate(transformed, url, qr.url, qr.publicId);
    db.transforms := db.transforms[id := updated];
    r := Some(updated);
  }

  /** The host assets a transform row holds: its derived image and, when present, its QR code. */
  function AssetIds(row: TransformRow): (r: set<PublicId>)
    ensures forall p :: p in r <==> p == row.publicId || row.qrCodePublicId == Some(p)
  {
    {row.publicId} + if row.qrCodePublicId.Some? then {row.qrCodePublicId.value} else {}
  }

  /** `delete_transformed_image`: False for a missing id. Otherwise the derived asset, then the
      QR asset, is destroyed and the row deleted; a host error escapes with its status and
      detail, and leaves the row (and whatever was not yet destroyed) in place. */
  method DeleteTransformedImage(db: Db, host: MediaHost, id: int) returns (r: Result<bool>)
    requires db.Valid() && host.Valid()
    modifies db`transforms, host
    ensures db.Valid() && host.Valid()
    ensures r == Ok(false) <==> id !in old(db.transforms)
    ensures r == Ok(false) ==> host.assets == old(host.assets)
    ensures r.Err? || r == Ok(false) ==> db.transforms == old(db.transforms)
    ensures r.Err? ==> host.assets.Keys <= old(host.assets).Keys
    ensures r.Err? ==>
      && id in old(db.transforms)
      && (host.assets == old(host.assets) || host.assets == old(host.assets) - {old(db.transforms)[id].publicId})
    ensures r == Ok(true) ==>
      && id in old(db.transforms)
      && db.transforms == old(db.transforms) - {id}
      && var row := old(db.transforms)[id];
      && row.publicId !in host.assets
      && (row.qrCodePublicId.Some? ==> row.qrCodePublicId.value !in host.assets)
      && host.assets == old(host.assets) - AssetIds(row)
  {
    var found := GetTransformedImage(db.transforms, id);
    if found.None? {
      return Ok(false);
    }
    var row := found.value;
    var first := host.Destroy(row.publicId);
    if first.Fail? {
      return Err(first.error);
    }
    var second := host.DestroyOptional(row.qrCodePublicId);
    if second.Fail? {
      return Err(second.error);
    }
    db.transforms := db.transforms - {id};
    r := Ok(true);
  }
}
