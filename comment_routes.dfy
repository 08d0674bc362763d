/** The comment endpoints: request validation, the role guard on deletion and the mapping of
    registry results to HTTP statuses. The authenticated caller is an input: resolving it is
    `Tokens.GetCurrentUser`, which runs before anything here. */
module CommentRoutes {
  import opened Types
  import opened Store
  import opened Access
  import opened CommentRepo

  /** The framework's rejection of a body, path or query parameter that fails its declared bounds. */
  const ValidationError := HttpError(422, "Unprocessable Entity")
  const TextMissing := HttpError(400, "The text is missing")
  const Malformed := HttpError(400, "The request is malformed")
  const ImageMissing := HttpError(404, "The image is not found")
  const CommentMissing := HttpError(404, "The comment is not found")
  const DeleteMissing := HttpError(404, "the comment is not found or the user lacks the necessary permissions")

  const MinText := 1
  const MaxText := 250
  const DefaultOffset := 0
  const DefaultLimit := 10
  const MinLimit := 10
  const MaxLimit := 100

  /** `CommentSchema.text`: between 1 and 250 characters. */
  predicate TextValid(text: string)
  {
    MinText <= |text| <= MaxText
  }

  /** `POST /comments/{image_id}`. */
  method CreateCommentRoute(db: Db, user: UserRow, imageId: int, text: string) returns (r: Result<CommentRow>)
    requires db.Valid()
    modifies db`comments, db`nextCommentId
    ensures db.Valid()
    ensures r.Ok? <==> imageId >= 1 && TextValid(text) && KeysExist(db, imageId, user.id)
    ensures r.Err? ==> db.comments == old(db.comments)
    ensures r.Err? ==> r.error in {ValidationError, Malformed}
    ensures imageId < 1 || !TextValid(text) ==> r == Err(ValidationError)
    ensures imageId >= 1 && TextValid(text) && !KeysExist(db, imageId, user.id) ==> r == Err(Malformed)
    ensures r.Ok? ==>
      && r.value == CommentRow(old(db.nextCommentId), text, user.id, imageId)
      && db.comments == old(db.comments) + [r.value]
  {
    if imageId < 1 || !TextValid(text) {
      return Err(ValidationError);
    }
    if |text| == 0 {
      return Err(TextMissing);
    }
    var created := CreateComment(db, text, imageId, user);
    if created.IntegrityError? {
      return Err(Malformed);
    }
    r := Ok(created.comment);
  }

  /** A query parameter as received: absent, or the value given. */
  function OrDefault(given: Option<int>, default: int): int
  {
    if given.Some? then given.value else default
  }

  /** `GET /comments/all/{image_id}`: `offset` at least 0 (default 0), `limit` within [10, 100]
      (default 10); a missing image is 404. */
  function GetCommentsRoute(images: map<int, ImageRow>, comments: seq<CommentRow>, imageId: int,
                            offset: Option<int>, limit: Option<int>): (r: Result<seq<CommentRow>>)
    ensures r == Err(ValidationError) <==>
      imageId < 1 || OrDefault(offset, DefaultOffset) < 0 ||
      !(MinLimit <= OrDefault(limit, DefaultLimit) <= MaxLimit)
    ensures r == Err(ImageMissing) <==>
      imageId >= 1 && OrDefault(offset, DefaultOffset) >= 0 &&
      MinLimit <= OrDefault(limit, DefaultLimit) <= MaxLimit && imageId !in images
    ensures r.Err? ==> r.error in {ValidationError, ImageMissing}
    ensures r.Ok? ==> |r.value| <= OrDefault(limit, DefaultLimit) <= MaxLimit
    ensures r.Ok? ==> forall c :: c in r.value ==> c in comments && c.imageId == imageId
    ensures r.Ok? ==>
      var o, l, n := OrDefault(offset, DefaultOffset), OrDefault(limit, DefaultLimit), |CommentsOf(comments, imageId)|;
      |r.value| == if o >= n then 0 else if n - o < l then n - o else l
    ensures r.Ok? ==> forall i :: 0 <= i < |r.value| ==>
      var o := OrDefault(offset, DefaultOffset);
      o + i < |CommentsOf(comments, imageId)| && r.value[i] == CommentsOf(comments, imageId)[o + i]
  {
    var o := OrDefault(offset, DefaultOffset);
    var l := OrDefault(limit, DefaultLimit);
    if imageId < 1 || o < 0 || !(MinLimit <= l <= MaxLimit) then Err(ValidationError)
    else match GetComments(images, comments, imageId, o, l)
      case None => Err(ImageMissing)
      case Some(page) => Ok(page)
  }

  /** Without query parameters the first ten comments of an existing image are listed. */
  lemma DefaultPage(images: map<int, ImageRow>, comments: seq<CommentRow>, imageId: int)
    requires imageId >= 1 && imageId in images
    ensures GetCommentsRoute(images, comments, imageId, None, None)
         == Ok(Page(CommentsOf(comments, imageId), 0, 10))
  {
  }

  /** `PATCH /comments/{comment_id}`: a comment that does not exist and one the caller does not
      own are the same 404. */
  method UpdateCommentRoute(db: Db, user: UserRow, commentId: int, text: string) returns (r: Result<CommentRow>)
    requires db.Valid()
    modifies db`comments
    ensures db.Valid()
    ensures r.Err? ==> db.comments == old(db.comments)
    ensures r.Err? ==> r.error in {ValidationError, CommentMissing}
    ensures commentId < 1 || !TextValid(text) ==> r == Err(ValidationError)
    ensures r.Ok? ==> r.value.id == commentId && r.value.userId == user.id && r.value.text == text
    ensures r == Err(CommentMissing) <==>
      commentId >= 1 && TextValid(text) &&
      forall i :: 0 <= i < |old(db.comments)| ==> old(db.comments)[i].id != commentId || old(db.comments)[i].userId != user.id
    ensures r.Ok? <==>
      commentId >= 1 && TextValid(text) &&
      exists i :: 0 <= i < |old(db.comments)| && old(db.comments)[i].id == commentId && old(db.comments)[i].userId == user.id
    ensures r.Ok? ==> var k := OwnCommentIndex(old(db.comments), commentId, user.id).value;
      r.value == old(db.comments)[k].(text := text) && db.comments == old(db.comments)[k := r.value]
  {
    if commentId < 1 || !TextValid(text) {
      return Err(ValidationError);
    }
    if |text| == 0 {
      return Err(TextMissing);
    }
    var updated := UpdateComment(db, commentId, text, user);
    if updated.None? {
      return Err(CommentMissing);
    }
    r := Ok(updated.value);
  }

  /** `DELETE /comments/{comment_id}`: the role guard runs before the path is validated; only
      admins and moderators get through, and then any comment can be deleted. */
  method DeleteCommentRoute(db: Db, user: UserRow, commentId: int) returns (r: Result<CommentRow>)
    requires db.Valid()
    modifies db`comments
    ensures db.Valid()
    ensures user.role == User ==> r == Err(Forbidden)
    ensures r.Err? ==> db.comments == old(db.comments)
    ensures r.Err? ==> r.error in {Forbidden, ValidationError, DeleteMissing}
    ensures r.Ok? ==> user.role in {Admin, Moderator} && r.value.id == commentId && r.value in old(db.comments)
    ensures user.role in {Admin, Moderator} && commentId < 1 ==> r == Err(ValidationError)
    ensures user.role in {Admin, Moderator} && commentId >= 1 ==>
      (r.Ok? <==> exists i :: 0 <= i < |old(db.comments)| && old(db.comments)[i].id == commentId)
    ensures r.Ok? ==> var k := CommentIndex(old(db.comments), commentId).value;
      r.value == old(db.comments)[k] && db.comments == old(db.comments)[..k] + old(db.comments)[k + 1..]
  {
    var guard := DeleteAccess.Check(user);
    if guard.Fail? {
      return Err(guard.error);
    }
    if commentId < 1 {
      return Err(ValidationError);
    }
    var deleted := DeleteComment(db, commentId);
    if deleted.None? {
      return Err(DeleteMissing);
    }
    r := Ok(deleted.value);
  }
}
