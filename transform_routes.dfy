/** The transform endpoints: the order of the checks each one runs, and how repository results
    become HTTP statuses. The authenticated caller is an input (`Tokens.GetCurrentUser`). */
module TransformRoutes {
  import opened Types
  import opened Store
  import opened Access
  import opened Media
  import opened TransformRepo

  const ValidationError := HttpError(422, "Unprocessable Entity")
  const NoParams := HttpError(400, "At least one transformation parameter must be specified")
  const NotDone := HttpError(500, "Internal Server Error. The transformation is not done")
  const NotDeleted := HttpError(404, "Unfortunately the deletion was not completed")

  /** The owner of a looked-up row, None when the lookup found nothing. */
  function OwnerOfImage(image: Option<ImageRow>): Option<int>
  {
    if image.Some? then Some(image.value.userId) else None
  }

  function OwnerOfTransform(row: Option<TransformRow>): Option<int>
  {
    if row.Some? then Some(row.value.userId) else None
  }

  /** `POST /transform/create_transform/{natural_photo_id}`: path bound, then existence and
      permission on the source photo, then a non-empty parameter map. The new transform
      belongs to the photo's owner, whoever asked for it. */
  method CreateTransformRoute(db: Db, host: MediaHost, user: UserRow, naturalPhotoId: int, params: Params)
    returns (r: Result<TransformRow>)
    requires db.Valid() && host.Valid()
    modifies db`transforms, db`nextTransformId, host
    ensures db.Valid() && host.Valid()
    ensures naturalPhotoId < 1 ==> r == Err(ValidationError)
    ensures naturalPhotoId >= 1 && VerifyPermissions(OwnerOfImage(GetImageById(db.images, naturalPhotoId)), user).Fail? ==>
      r == Err(VerifyPermissions(OwnerOfImage(GetImageById(db.images, naturalPhotoId)), user).error)
    ensures (naturalPhotoId >= 1 && |params| == 0 &&
             VerifyPermissions(OwnerOfImage(GetImageById(db.images, naturalPhotoId)), user).Pass?) ==>
      r == Err(NoParams)
    ensures r.Err? ==> db.transforms == old(db.transforms)
    ensures r.Err? && r.error != NotDone ==> host.assets == old(host.assets)
    ensures r.Ok? ==>
      && naturalPhotoId in db.images && |params| > 0
      && (db.images[naturalPhotoId].userId == user.id || user.role == Admin)
      && r.value.naturalPhotoId == naturalPhotoId
      && r.value.userId == db.images[naturalPhotoId].userId
      && db.transforms == old(db.transforms)[r.value.id := r.value]
      && QrPointsAtImage(r.value, host.assets)
  {
    if naturalPhotoId < 1 {
      return Err(ValidationError);
    }
    var image := GetImageById(db.images, naturalPhotoId);
    var permitted := VerifyPermissions(OwnerOfImage(image), user);
    if permitted.Fail? {
      return Err(permitted.error);
    }
    if |params| == 0 {
      return Err(NoParams);
    }
    var created := CreateTransformedImage(db, host, image.value.userId, naturalPhotoId, params);
    if created.None? {
      return Err(NotDone);
    }
    r := Ok(created.value);
  }

  /** `GET /transform/user_transforms`: every transform the caller owns; never an error. */
  function AllUserTransformsRoute(transforms: map<int, TransformRow>, user: UserRow): (r: Result<set<TransformRow>>)
    ensures r.Ok?
    ensures forall t :: t in r.value ==> t in transforms.Values && t.userId == user.id
    ensures forall id :: id in transforms && transforms[id].userId == user.id ==> transforms[id] in r.value
  {
    Ok(GetTransformsByUserId(transforms, user.id))
  }

  /** `GET /transform/{transform_id}`. */
  function GetTransformRoute(transforms: map<int, TransformRow>, user: UserRow, id: int): (r: Result<TransformRow>)
    ensures id < 1 ==> r == Err(ValidationError)
    ensures r.Ok? <==> id >= 1 && id in transforms && (transforms[id].userId == user.id || user.role == Admin)
    ensures r.Ok? ==> r.value == transforms[id]
    ensures id >= 1 && id !in transforms ==> r == Err(ImageNotFound)
    ensures id in transforms && id >= 1 && !r.Ok? ==> r == Err(NoRights)
  {
    if id < 1 then Err(ValidationError)
    else
      var row := GetTransformedImage(transforms, id);
      match VerifyPermissions(OwnerOfTransform(row), user)
      case Fail(e) => Err(e)
      case Pass => Ok(row.value)
  }

  /** `GET /transform/{transform_id}/qr_code`: the same checks, answering only the QR url. */
  function GetTransformQrCodeRoute(transforms: map<int, TransformRow>, user: UserRow, id: int): (r: Result<Option<string>>)
    ensures r.Ok? <==> GetTransformRoute(transforms, user, id).Ok?
    ensures r.Ok? ==> r.value == transforms[id].qrCodeUrl
    ensures r.Err? ==> r.error == GetTransformRoute(transforms, user, id).error
  {
    match GetTransformRoute(transforms, user, id)
    case Err(e) => Err(e)
    case Ok(row) => Ok(row.qrCodeUrl)
  }

  /** `PATCH /transform/{transform_id}`: the same checks as reading, then the repository update;
      its None is 500. No check for an empty parameter map here. */
  method UpdateTransformRoute(db: Db, host: MediaHost, user: UserRow, id: int, params: Params)
    returns (r: Result<TransformRow>)
    requires db.Valid() && host.Valid()
    modifies db`transforms, host
    ensures db.Valid() && host.Valid()
    ensures GetTransformRoute(old(db.transforms), user, id).Err? ==>
      r == Err(GetTransformRoute(old(db.transforms), user, id).error) &&
      db.transforms == old(db.transforms) && host.assets == old(host.assets)
    ensures r.Err? ==> db.transforms == old(db.transforms)
    ensures r.Ok? ==>
      && GetTransformRoute(old(db.transforms), user, id).Ok?
      && r.value.id == id && r.value.userId == old(db.transforms)[id].userId
      && db.transforms == old(db.transforms)[id := r.value]
      && QrPointsAtImage(r.value, host.assets)
  {
    var allowed := GetTransformRoute(db.transforms, user, id);
    if allowed.Err? {
      return Err(allowed.error);
    }
    var updated := UpdateTransformedImage(db, host, id, params);
    if updated.None? {
      return Err(NotDone);
    }
    r := Ok(updated.value);
  }

  /** `DELETE /transform/{transform_id}` (no lower bound on the path): the permission check,
      then the repository delete; host errors escape unchanged, and a repository False (which
      a row that passed the check cannot produce) is 404. */
  method DeleteTransformRoute(db: Db, host: MediaHost, user: UserRow, id: int) returns (r: Outcome)
    requires db.Valid() && host.Valid()
    modifies db`transforms, host
    ensures db.Valid() && host.Valid()
    ensures id !in old(db.transforms) ==>
      r == Fail(ImageNotFound) && db.transforms == old(db.transforms) && host.assets == old(host.assets)
    ensures id in old(db.transforms) && old(db.transforms)[id].userId != user.id && user.role != Admin ==>
      r == Fail(NoRights) && db.transforms == old(db.transforms) && host.assets == old(host.assets)
    ensures r.Fail? ==> db.transforms == old(db.transforms)
    ensures r.Pass? ==>
      && id in old(db.transforms) && (old(db.transforms)[id].userId == user.id || user.role == Admin)
      && db.transforms == old(db.transforms) - {id}
      && old(db.transforms)[id].publicId !in host.assets
      && host.assets == old(host.assets) - AssetIds(old(db.transforms)[id])
  {
    var row := GetTransformedImage(db.transforms, id);
    var permitted := VerifyPermissions(OwnerOfTransform(row), user);
    if permitted.Fail? {
      return Fail(permitted.error);
    }
    var deleted := DeleteTransformedImage(db, host, id);
    if deleted.Err? {
      return Fail(deleted.error);
    }
    if !deleted.value {
      return Fail(NotDeleted);
    }
    r := Pass;
  }
}
