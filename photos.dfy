/** The photo registry: uploads with tag attachment, lookup, description update and deletion,
    keeping the remote asset and the stored row in step where the code does. */
module PhotoRepo {
  import opened Types
  import opened Store
  import opened Access
  import opened Media
  import PyStr
  import opened TagRepo

  /** The picture as the registry hands it out (`created_at` is not modelled). */
  datatype PictureView = PictureView(
    userId: int,
    pictureId: int,
    url: string,
    description: Option<string>,
    tags: seq<string>)

  /** `[tag.name for tag in picture.tags]`. */
  function TagNames(tags: seq<TagRow>): (r: seq<string>)
    ensures |r| == |tags|
    ensures forall i :: 0 <= i < |tags| ==> r[i] == tags[i].name
  {
    seq(|tags|, i requires 0 <= i < |tags| => tags[i].name)
  }

  function View(row: ImageRow): PictureView
  {
    PictureView(row.userId, row.id, row.url, row.description, TagNames(row.tags))
  }

  const NotEnoughPermissions := HttpError(403, "Not enough permissions")

  /** `get_picture`: None for an unknown id, 403 for a caller who neither owns the picture nor
      is an admin, otherwise the picture's fields with its tag names. */
  function GetPicture(images: map<int, ImageRow>, pictureId: int, user: UserRow): (r: Result<Option<PictureView>>)
    ensures r == Ok(None) <==> pictureId !in images
    ensures r.Err? <==> pictureId in images && !HasAccess(user, images[pictureId].userId, user.role)
    ensures r.Err? ==> r.error == NotEnoughPermissions
    ensures r.Ok? && r.value.Some? ==>
      var row := images[pictureId];
      && r.value.value.pictureId == row.id
      && r.value.value.userId == row.userId
      && r.value.value.url == row.url
      && r.value.value.description == row.description
      && |r.value.value.tags| == |row.tags|
      && forall i :: 0 <= i < |row.tags| ==> r.value.value.tags[i] == row.tags[i].name
  {
    if pictureId !in images then Ok(None)
    else
      var picture := images[pictureId];
      if !HasAccess(user, picture.userId, user.role) then Err(NotEnoughPermissions)
      else Ok(Some(View(picture)))
  }

  /** The tag names in a comma-separated tag string: split on commas, each piece stripped. */
  function ParseTags(s: string): (r: seq<string>)
    ensures |r| == PyStr.Count(s, ',') + 1
    ensures forall i :: 0 <= i < |r| ==> ',' !in r[i] && PyStr.Trimmed(r[i])
  {
    var pieces := PyStr.Split(s, ',');
    PyStr.SplitLength(s, ',');
    seq(|pieces|, i requires 0 <= i < |pieces| =>
      PyStr.StripKeepsOut(pieces[i], ','); PyStr.Strip(pieces[i]))
  }

  /** Tag names written out comma-separated are read back as the same names, in order. */
  lemma ParseTagsOfJoin(names: seq<string>)
    requires |names| >= 1
    requires forall i :: 0 <= i < |names| ==> ',' !in names[i] && PyStr.Trimmed(names[i])
    ensures ParseTags(PyStr.Join(names, ',')) == names
  {
    var s := PyStr.Join(names, ',');
    PyStr.SplitJoin(names, ',');
    var r := ParseTags(s);
    forall i | 0 <= i < |names|
      ensures r[i] == names[i]
    {
      PyStr.StripTrimmed(names[i]);
    }
  }

  const MaxTags := 5
  const TooManyTags := "You can add up to 5 tags"

  /** What `process_tags` yields: the resolved tags, or the ValueError it raises. */
  datatype TagsOutcome = Tags(tags: seq<TagRow>) | ValueError(message: string)

  /** `process_tags`: more than five names is a ValueError raised before any tag is touched;
      otherwise each name is looked up or created, in order, duplicates included. */
  method ProcessTags(db: Db, tagsStr: string) returns (r: TagsOutcome)
    requires db.Valid()
    modifies db`tags, db`nextTagId
    ensures db.Valid()
    ensures |ParseTags(tagsStr)| > MaxTags ==>
      r == ValueError(TooManyTags) && db.tags == old(db.tags) && db.nextTagId == old(db.nextTagId)
    ensures |ParseTags(tagsStr)| <= MaxTags ==>
      var res := ResolveTags(old(db.tags), old(db.nextTagId), ParseTags(tagsStr));
      r == Tags(res.tags) && db.tags == res.rows && db.nextTagId == res.nextId
  {
    var names := ParseTags(tagsStr);
    if |names| > MaxTags {
      return ValueError(TooManyTags);
    }
    ghost var rows0, next0 := db.tags, db.nextTagId;
    var tagObjects := [];
    var i := 0;
    while i < |names|
      invariant 0 <= i <= |names|
      invariant ResolveTags(rows0, next0, names[..i]) == Resolved(db.tags, db.nextTagId, tagObjects)
    {
      ghost var prefix := names[..i + 1];
      assert prefix[..i] == names[..i] && prefix[i] == names[i];
      var tag := GetOrCreateTag(db, names[i]);
      tagObjects := tagObjects + [tag];
      i := i + 1;
    }
    assert names[..i] == names;
    ResolveTagsPreservesValid(rows0, next0, names);
    r := Tags(tagObjects);
  }

  /** The upload form: an optional description and an optional comma-separated tag string. */
  datatype ImageBody = ImageBody(description: Option<string>, tags: Option<string>)

  /** `if body.tags:` — a tag string that is present and not empty. */
  predicate HasTags(body: ImageBody)
  {
    body.tags.Some? && |body.tags.value| > 0
  }

  /** The tags a successful upload attaches, given the tag table it started from. */
  function AttachedTags(body: ImageBody, tags: seq<TagRow>, nextTagId: int): seq<TagRow>
  {
    if HasTags(body) then ResolveTags(tags, nextTagId, ParseTags(body.tags.value)).tags else []
  }

  const UploadFailed := "Image upload failed"

  /** What `upload_picture` ends with: the new picture, a 400 body it returns, or an error raised. */
  datatype Upload = Created(view: PictureView) | BadRequest(detail: string) | Failed(error: HttpError)

  /** Inserts an image row under the next id (`db.add`, `commit`, `refresh`). */
  method AddImage(db: Db, url: string, description: Option<string>, publicId: PublicId, userId: int, tags: seq<TagRow>)
    returns (row: ImageRow)
    requires db.Valid()
    modifies db`images, db`nextImageId
    ensures db.Valid()
    ensures row == ImageRow(old(db.nextImageId), url, description, publicId, userId, tags)
    ensures row.id !in old(db.images) && db.images == old(db.images)[row.id := row]
  {
    row := ImageRow(db.nextImageId, url, description, publicId, userId, tags);
    db.images := db.images[row.id := row];
    db.nextImageId := db.nextImageId + 1;
  }

  /** The `if body.tags:` branch: no tag string attaches no tags and touches nothing. */
  method TagsOfBody(db: Db, body: ImageBody) returns (r: TagsOutcome)
    requires db.Valid()
    modifies db`tags, db`nextTagId
    ensures db.Valid()
    ensures r.ValueError? ==> r.message == TooManyTags && HasTags(body) && |ParseTags(body.tags.value)| > MaxTags
    ensures r.ValueError? ==> db.tags == old(db.tags)
    ensures r.Tags? ==> r.tags == AttachedTags(body, old(db.tags), old(db.nextTagId)) && |r.tags| <= MaxTags
    ensures HasTags(body) && |ParseTags(body.tags.value)| > MaxTags ==> r.ValueError?
  {
    if !HasTags(body) {
      return Tags([]);
    }
    r := ProcessTags(db, body.tags.value);
  }

  /** The compensation after a tag ValueError: the asset just uploaded is destroyed, and the
      ValueError's message is returned as a 400 body; if the destroy raises, that error escapes. */
  method Withdraw(host: MediaHost, publicId: PublicId, message: string) returns (r: Upload)
    requires host.Valid()
    modifies host
    ensures host.Valid()
    ensures r.BadRequest? || r.Failed?
    ensures r.BadRequest? ==> r.detail == message && host.assets == old(host.assets) - {publicId}
    ensures r.Failed? ==> host.assets == old(host.assets)
  {
    var removed := host.Destroy(publicId);
    if removed.Fail? {
      return Failed(removed.error);
    }
    r := BadRequest(message);
  }

  /** `upload_picture`. The binary goes to the media host first; the row is written only after
      the tags resolved, and a tag string with too many names removes the uploaded asset again. */
  method UploadPicture(db: Db, host: MediaHost, user: UserRow, body: ImageBody, file: Binary) returns (r: Upload)
    requires db.Valid() && host.Valid()
    modifies db`images, db`nextImageId, db`tags, db`nextTagId, host
    ensures db.Valid() && host.Valid()
    ensures !r.Created? ==> db.images == old(db.images) && db.tags == old(db.tags)
    ensures r.BadRequest? ==> host.assets == old(host.assets)
    ensures r.BadRequest? ==> r.detail == UploadFailed || r.detail == TooManyTags
    ensures r.BadRequest? && r.detail == TooManyTags ==> HasTags(body) && |ParseTags(body.tags.value)| > MaxTags
    ensures HasTags(body) && |ParseTags(body.tags.value)| > MaxTags ==> !r.Created?
    ensures r.Failed? ==> old(host.assets.Keys) <= host.assets.Keys
    ensures r.Created? ==>
      var id := old(db.nextImageId);
      && id !in old(db.images) && id in db.images
      && db.images == old(db.images)[id := db.images[id]]
      && r.view == View(db.images[id])
      && db.images[id].userId == user.id
      && db.images[id].description == body.description
      && db.images[id].publicId !in old(host.assets)
      && host.assets == old(host.assets)[db.images[id].publicId := Hosted(db.images[id].url, file)]
      && db.images[id].tags == AttachedTags(body, old(db.tags), old(db.nextTagId))
      && |db.images[id].tags| <= MaxTags
  {
    var imageData := host.UploadImage(user.id, file);
    if imageData.Raised? {
      return Failed(imageData.error);
    }
    if imageData.NoData? {
      return BadRequest(UploadFailed);
    }
    var tagged := TagsOfBody(db, body);
    if tagged.ValueError? {
      r := Withdraw(host, imageData.publicId, tagged.message);
      return;
    }
    var picture := AddImage(db, imageData.url, body.description, imageData.publicId, user.id, tagged.tags);
    r := Created(View(picture));
  }

  const NotFound := HttpError(404, "Not found")
  const AccessForbidden := HttpError(403, "Access forbidden")
  const DeleteFailed := HttpError(500, "Error deleting picture")

  /** Rows that still point at the image: the row delete is refused while any exist. */
  predicate Referenced(db: Db, pictureId: int)
    reads db
  {
    || (exists i :: 0 <= i < |db.comments| && db.comments[i].imageId == pictureId)
    || (exists t :: t in db.transforms && db.transforms[t].naturalPhotoId == pictureId)
  }

  /** `delete_picture`: 404 and 403 gates, then the remote asset is destroyed and the row
      deleted. Either step failing is reported as 500; a row delete refused by a referencing
      comment or transform comes after the asset is already gone. */
  method DeletePicture(db: Db, host: MediaHost, pictureId: int, user: UserRow) returns (r: Result<string>)
    requires db.Valid() && host.Valid()
    modifies db`images, host
    ensures db.Valid() && host.Valid()
    ensures pictureId !in old(db.images) ==>
      r == Err(NotFound) && db.images == old(db.images) && host.assets == old(host.assets)
    ensures pictureId in old(db.images) && !HasAccess(user, old(db.images)[pictureId].userId, user.role) ==>
      r == Err(AccessForbidden) && db.images == old(db.images) && host.assets == old(host.assets)
    ensures r.Ok? ==>
      && r.value == "Success"
      && pictureId in old(db.images) && HasAccess(user, old(db.images)[pictureId].userId, user.role)
      && db.images == old(db.images) - {pictureId}
      && host.assets == old(host.assets) - {old(db.images)[pictureId].publicId}
    ensures r.Err? ==> db.images == old(db.images)
    ensures r.Err? && r.error.status == 500 ==> r.error == DeleteFailed
    ensures r == Err(DeleteFailed) ==>
      && pictureId in old(db.images)
      && (host.assets == old(host.assets) || host.assets == old(host.assets) - {old(db.images)[pictureId].publicId})
    ensures r == Err(DeleteFailed) && !Referenced(db, pictureId) ==> host.assets == old(host.assets)
    ensures pictureId in old(db.images) && Referenced(db, pictureId) ==> r.Err?
    ensures r.Err? ==> r.error in {NotFound, AccessForbidden, DeleteFailed}
  {
    if pictureId !in db.images {
      return Err(NotFound);
    }
    var picture := db.images[pictureId];
    if !HasAccess(user, picture.userId, user.role) {
      return Err(AccessForbidden);
    }
    var removed := host.Destroy(picture.publicId);
    if removed.Fail? || Referenced(db, pictureId) {
      return Err(DeleteFailed);
    }
    db.images := db.images - {pictureId};
    r := Ok("Success");
  }

  /** `image_update`: the same gates as deletion, then only the description changes. */
  method ImageUpdate(db: Db, pictureId: int, description: Option<string>, user: UserRow) returns (r: Result<PictureView>)
    requires db.Valid()
    modifies db`images
    ensures db.Valid()
    ensures pictureId !in old(db.images) ==> r == Err(NotFound) && db.images == old(db.images)
    ensures pictureId in old(db.images) && !HasAccess(user, old(db.images)[pictureId].userId, user.role) ==>
      r == Err(AccessForbidden) && db.images == old(db.images)
    ensures pictureId in old(db.images) && HasAccess(user, old(db.images)[pictureId].userId, user.role) ==>
      var updated := old(db.images)[pictureId].(description := description);
      r == Ok(View(updated)) && db.images == old(db.images)[pictureId := updated]
  {
    if pictureId !in db.images {
      return Err(NotFound);
    }
    var picture := db.images[pictureId];
    if !HasAccess(user, picture.userId, user.role) {
      return Err(AccessForbidden);
    }
    picture := picture.(description := description);
    db.images := db.images[pictureId := picture];
    r := Ok(View(picture));
  }
}
