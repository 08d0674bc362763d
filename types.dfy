/** Shared vocabulary of the photo-sharing service: roles, table rows, HTTP errors
    and the small failure-carrying wrappers every layer returns. */
module Types {

  datatype Option<+T> = None | Some(value: T)

  /** An error as the web layer reports it: a status code and a detail message. */
  datatype HttpError = HttpError(status: int, detail: string)

  /** The value of a handler or repository call, or the error it raises. */
  datatype Result<+T> = Ok(value: T) | Err(error: HttpError)

  /** Pass, or the error raised by a check that returns nothing. */
  datatype Outcome = Pass | Fail(error: HttpError)

  /** The closed set of roles of the `users.role` column. */
  datatype Role = Admin | Moderator | User

  /** An opaque identifier the media host issues for a stored binary. */
  type PublicId = nat

  /** Row of `users`; `created_at`/`updated_at` are not modelled. */
  datatype UserRow = UserRow(
    id: int,
    username: string,
    email: string,
    password: string,
    avatar: Option<string>,
    refreshToken: Option<Token>,
    confirmed: bool,
    role: Role,
    countPhoto: Option<int>)

  /** Row of `tags`; `name` is unique across the table. */
  datatype TagRow = TagRow(id: int, name: string)

  /** Row of `images` together with its `tag_for_photo` associations, in the order they were attached. */
  datatype ImageRow = ImageRow(
    id: int,
    url: string,
    description: Option<string>,
    publicId: PublicId,
    userId: int,
    tags: seq<TagRow>)

  /** Row of `comments`. */
  datatype CommentRow = CommentRow(id: int, text: string, userId: int, imageId: int)

  /** Row of `transform`: a transformed asset and its QR-code asset derived from one image. */
  datatype TransformRow = TransformRow(
    id: int,
    naturalPhotoId: int,
    imageUrl: string,
    publicId: PublicId,
    qrCodeUrl: Option<string>,
    qrCodePublicId: Option<PublicId>,
    userId: int)

  /** A claim value of a token payload. */
  datatype Claim = Str(s: string) | Num(n: int) | Null

  /** A token payload: the claim names of a JSON Web Token mapped to their values. */
  type Payload = map<string, Claim>

  /** A signed token. Signing is opaque: a token carries the payload, the key and the
      algorithm it was signed with; anything else presented as a token is `Malformed`. */
  datatype Token = Signed(payload: Payload, key: string, alg: string) | Malformed(raw: string)

  /** The error every uncaught Python exception (KeyError, AttributeError, ...) becomes. */
  const InternalError := HttpError(500, "Internal Server Error")
}
