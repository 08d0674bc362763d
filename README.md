# ImageHub core, modelled in Dafny

ImageHub is a photo-sharing web service. Users register, confirm their email and log in with
JSON Web Tokens. They upload pictures with up to five comma-separated tags, comment on
pictures, and derive transformed images, each published with a QR code that points at it.
This project models the decision logic of that service over an abstract store and proves
what each operation does to it.

- **Store** (`store.dfy`): the relational database as in-memory tables in one `Db` object.
  `users`, `tags` and `comments` are sequences in insertion order; `images` and `transforms`
  are maps keyed by id. Ids come from per-table counters. `Db.Valid()` states the table
  invariants: ids distinct and below the counter, emails unique, tag names unique.
  Every repository method preserves it.
- **Media host** (`media.dfy`): the remote image host, a `MediaHost` object whose state is
  the live assets, each with a url and what it holds. Every call may succeed, return nothing
  or raise, chosen nondeterministically, so the proofs cover every outcome. Whether an asset
  leaks is therefore visible in the postconditions.
- **Access** (`access.dfy`): the ownership-or-admin predicate, the transform routes'
  permission check, and the role allow-list guard.
- **Users, tags, photos, comments, transforms** (`users.dfy`, `tags.dfy`, `photos.dfy`,
  `comments.dfy`, `transforms.dfy`): the repository operations as methods on `Db`/`MediaHost`.
  Each is proved against functions that specify it: `TagRepo.GetOrCreate`,
  `TagRepo.ResolveTags`, `CommentRepo.CommentsOf`, `CommentRepo.Page` and others.
- **Tokens** (`tokens.dfy`): token creation and decoding, with signing opaque and time an
  integer parameter. Both the code as written and the corrected decoders are modelled.
- **Routes** (`auth_routes.dfy`, `comment_routes.dfy`, `transform_routes.dfy`): the order
  of checks in each endpoint and how their results become HTTP statuses. The framework's
  422 for a path, query or body outside its declared bounds is folded in.
- **Python strings** (`pystr.dfy`): `str.split(',')` and `str.strip()`, as used by tag
  parsing, with their round-trip lemmas.
- **Configuration** (`config.dfy`): validation of the signing algorithm.

An uncaught Python exception (a `KeyError`, an `AttributeError` on `None`, a database
integrity error) is modelled as `Types.InternalError`, the framework's 500 answer.

## Model

| member | source | states |
|---|---|---|
| Access.HasAccessTruthTable | src/repository/photos.py:14-23 | the owner and an admin are granted; a non-owner moderator or user is refused |
| Access.VerifyPermissions | src/routes/transform.py:15-30 | passes iff the object exists and the caller owns it or is admin; a missing object is 404 "Image Not Found", a foreign one 403 |
| Access.VerifyPermissionsAgreesWithHasAccess | src/routes/transform.py:26-29 | on an existing object the transform check grants exactly the callers `has_access` grants |
| Access.RoleAccess.Check | src/services/roles.py:7-24 | passes iff the user's role is in the allow-list; otherwise 403 "FORBIDDEN" |
| Access.EmptyAllowListRejects | src/services/roles.py:8-9 | a guard built with no roles refuses every user |
| Access.DeleteAccessRoles | src/routes/comments.py:13 | the comment delete guard passes exactly admins and moderators |
| Config.ValidateAlgorithm | src/conf/config.py:20-25 | accepts exactly "HS256" and "HS512" and returns them unchanged; anything else is ValueError "Algorithm must be HS256 or HS512" |
| Config.DefaultAlgorithmValid | src/conf/config.py:10 | the default "HS256" passes validation |
| Config.ValidateAlgorithmIdempotent | src/conf/config.py:25 | an accepted value validates again to itself |
| Store.Db.constructor | migrations/versions/c8490c7a34e1_initial_migration.py:23-86 | a freshly migrated database has empty tables that satisfy every table invariant |
| Media.MediaHost.UploadImage | src/repository/photos.py:87-91 | on success exactly one fresh asset, holding the uploaded file, is added; otherwise the assets are unchanged |
| Media.MediaHost.UploadTransformed | src/repository/transform.py:36-37 | on success exactly one fresh asset is added, holding the source image derived by the parameters |
| Media.MediaHost.UploadQrCode | src/repository/transform.py:38-39 | on success exactly one fresh asset is added, holding the QR image |
| Media.MediaHost.Destroy | src/repository/photos.py:142 | on success exactly that asset is gone; on failure nothing changes |
| Media.MediaHost.DestroyOptional | src/repository/transform.py:147 | a null id never removes anything; otherwise as `Destroy` |
| UserRepo.GetUserByEmail | src/repository/users.py:11-23 | the result has the email and is in the table; None iff no user has the email |
| UserRepo.GetUserByEmailUnique | src/repository/users.py:20-22 | with unique emails the lookup finds exactly the user who has the email |
| UserRepo.GetUserByUsername | src/repository/users.py:111-123 | None iff no user has the name; one match is returned; two or more raise (usernames are not unique) |
| UserRepo.NewUserRole | src/repository/users.py:41-46 | the role is admin iff the user table is empty, the default role otherwise |
| UserRepo.BootstrapOnce | src/repository/users.py:54-64 | once any account exists, a new account gets the default role |
| UserRepo.CreateUser | src/repository/users.py:26-51 | appends exactly one unconfirmed user with the body's fields, the avatar lookup result (None when it failed), a fresh id and the bootstrap role |
| UserRepo.UpdateToken | src/repository/users.py:67-77 | the user's refresh token becomes the given value, None included; no other field or row changes |
| UserRepo.ConfirmedEmail | src/repository/users.py:80-92 | the user with the email becomes confirmed and nothing else changes; an unknown email raises |
| UserRepo.UpdateAvatarUrl | src/repository/users.py:95-108 | the user's avatar becomes the url and that updated user is returned; an unknown email raises |
| UserRepo.OwnedImages | src/repository/users.py:139-140 | exactly the ids of the images the user owns |
| UserRepo.GetCountPhoto | src/repository/users.py:126-149 | the user's photo count becomes the number of images they own; nothing else changes |
| Tokens.Expiry | src/services/auth.py:60-63 | expiry is now plus the given delta, or now plus the default lifetime when the delta is None or 0 |
| Tokens.Stamp | src/services/auth.py:59-64 | the claims are the caller's data plus `iat`, `exp` and the scope; other claims are copied unchanged |
| Tokens.CreateAccessToken | src/services/auth.py:47-66 | signed with the configured key and algorithm, scope "access_token", `iat` now, `exp` from `Expiry` with 15 minutes by default |
| Tokens.CreateRefreshToken | src/services/auth.py:69-88 | the same with scope "refresh_token" and 7 days by default |
| Tokens.CreateEmailToken | src/services/auth.py:143-158 | the data plus `iat` and `exp` one day ahead, and no scope claim |
| Tokens.Decode | src/services/auth.py:128 | the payload is returned iff key and algorithm match and `exp` is not past |
| Tokens.DecodeRefreshTokenAsWritten | src/services/auth.py:90-107 | returns `sub` iff the token decodes with scope "refresh_token"; a decode error is 401; a token without `scope` raises |
| Tokens.DecodeRefreshToken | src/services/auth.py:90-107 | returns `sub` iff the token decodes with scope "refresh_token"; every failure is a 401 |
| Tokens.UserForSubject | src/services/auth.py:138-140 | a found user is in the table and has the subject as email; a string subject with no user finds nothing |
| Tokens.GetCurrentUserAsWritten | src/services/auth.py:109-141 | a decodable token without `scope` raises instead of answering 401 |
| Tokens.GetCurrentUser | src/services/auth.py:109-141 | a user is returned iff the token decodes, has scope "access_token", has a string `sub` and that email is registered; every other case is the 401 credentials error |
| Tokens.GetCurrentUserAgreesWhenClaimsPresent | src/services/auth.py:126-141 | the two versions agree on every token that carries both `scope` and `sub` |
| Tokens.DecodeRefreshTokenAgreesWhenClaimsPresent | src/services/auth.py:100-107 | the two versions agree on every token that carries both `scope` and `sub` |
| Tokens.EmailTokenCrashesGetCurrentUser | src/services/auth.py:129 | a live confirmation token used as a bearer token makes the code as written raise, where the corrected version answers 401 |
| Tokens.EmailTokenCrashesRefreshDecoder | src/services/auth.py:102 | the same token at the refresh decoder raises as written, and is a 401 scope error when corrected |
| Tokens.GetEmailFromToken | src/services/auth.py:160-176 | returns `sub` of any decodable token whatever its scope; a decode error is 422 |
| Tokens.DecodeUntilExpiry | src/services/auth.py:60-64 | a fresh access or refresh token decodes exactly until its expiry |
| Tokens.RefreshTokenRoundTrip | src/services/auth.py:81-104 | a live refresh token decodes back to the subject it was issued for |
| Tokens.AccessTokenRejectedByRefreshDecoder | src/services/auth.py:102-105 | an access token is never accepted as a refresh token |
| Tokens.RefreshTokenRejectedByGetCurrentUser | src/services/auth.py:129-134 | a refresh token is never accepted as an access token |
| Tokens.AccessTokenAuthenticates | src/services/auth.py:126-141 | a live access token for a registered email authenticates exactly that user |
| Tokens.EmailTokenRoundTrip | src/services/auth.py:154-172 | a confirmation token gives back its subject for one day |
| Tokens.ForeignTokenRejected | src/services/auth.py:101 | a token signed with another key or algorithm is refused by all three decoders |
| PyStr.Split | src/repository/photos.py:67 | at least one piece, and no piece contains the separator |
| PyStr.SplitLength | src/repository/photos.py:67 | the number of pieces is the number of separators plus one |
| PyStr.JoinSplit | src/repository/photos.py:67 | joining the pieces with the separator gives back the string |
| PyStr.SplitJoin | src/repository/photos.py:67 | splitting a join of separator-free pieces gives back the pieces |
| PyStr.SplitNoSep | src/repository/photos.py:67 | a string without the separator splits into itself |
| PyStr.Strip | src/repository/photos.py:67 | the result is the contiguous middle of the input with only whitespace cut from both ends, and has no whitespace at either end |
| PyStr.StripTrimmed | src/repository/photos.py:67 | a string with no whitespace at either end is its own strip |
| PyStr.StripIdempotent | src/repository/photos.py:67 | stripping twice is stripping once |
| PyStr.StripKeepsOut | src/repository/photos.py:67 | stripping adds no character that was absent |
| TagRepo.TagIndex | src/repository/tags.py:19-20 | the found row has the name; None iff no row has it |
| TagRepo.GetOrCreate | src/repository/tags.py:7-30 | an existing tag of that name is returned and the table is unchanged; otherwise exactly one row with the name and the next id is appended and returned |
| TagRepo.GetOrCreatePreservesValid | src/repository/tags.py:25-30 | ids stay distinct and names unique after the call |
| TagRepo.GetOrCreateIdempotent | src/repository/tags.py:19-23 | a second call with the same name returns the same tag and changes nothing |
| TagRepo.GetOrCreateSingleRow | src/repository/tags.py:19-30 | afterwards the only row with the name is the one returned |
| TagRepo.ResolveTags | src/repository/photos.py:70-74 | one tag per name, in order, each carrying its name and present in the table; the old table is a prefix of the new one |
| TagRepo.ResolveTagsPreservesValid | src/repository/photos.py:71-73 | resolving a list of names keeps the tag table well formed |
| TagRepo.ResolveTagsAddsOnlyNames | src/repository/photos.py:71-73 | every row added carries one of the names |
| TagRepo.GetOrCreateTag | src/repository/tags.py:7-30 | the tag table, counter and returned tag are those of `GetOrCreate` |
| PhotoRepo.TagNames | src/repository/photos.py:52 | the names of the tags, one per tag, in tag order |
| PhotoRepo.GetPicture | src/repository/photos.py:26-56 | None iff no image has the id; 403 "Not enough permissions" iff it exists and the caller lacks access; otherwise its owner, id, url, description and tag names in order |
| PhotoRepo.ParseTags | src/repository/photos.py:67 | one name per comma-separated piece (separators plus one), each free of commas and stripped; empty names are kept |
| PhotoRepo.ParseTagsOfJoin | src/repository/photos.py:67 | names written out comma-separated are read back as the same names in order |
| PhotoRepo.ProcessTags | src/repository/photos.py:59-74 | more than five names is ValueError "You can add up to 5 tags" with the tag table untouched; otherwise the tags resolved for the names in order, and the table they leave |
| PhotoRepo.AddImage | src/repository/photos.py:102-104 | exactly one image row is added, under a fresh id, with the given fields |
| PhotoRepo.TagsOfBody | src/repository/photos.py:94-97 | no tag string attaches nothing; otherwise the result of tag processing, at most five tags |
| PhotoRepo.Withdraw | src/repository/photos.py:98-100 | the asset just uploaded is destroyed and the ValueError message returned as a 400 body, or the destroy error escapes with the assets unchanged |
| PhotoRepo.UploadPicture | src/repository/photos.py:77-113 | a failed upload is a 400 body with nothing written; too many tags removes the uploaded asset and writes no row; on success exactly one image row is added, owned by the caller, with the host's url and asset, the description and the resolved tags, and the one new asset holds the file |
| PhotoRepo.DeletePicture | src/repository/photos.py:116-150 | a missing id is 404 and a foreign picture 403, with nothing changed; on success the asset and then the row are gone; every other failure is 500 "Error deleting picture" with the row kept and the host either untouched or missing only that picture's asset, which is untouched unless a comment or transform still refers to the picture |
| PhotoRepo.ImageUpdate | src/repository/photos.py:153-193 | the same 404 and 403 gates; on success only the description changes, and the updated picture is returned |
| CommentRepo.CreateComment | src/repository/comments.py:8-27 | exactly one comment is appended with the text, the caller as owner and the image; a dangling foreign key is an integrity error that writes nothing |
| CommentRepo.CommentsOf | src/repository/comments.py:49 | exactly the comments on the image |
| CommentRepo.CommentsOfAppend | src/repository/comments.py:49 | the selection distributes over concatenation, so it keeps stored order |
| CommentRepo.Page | src/repository/comments.py:49 | the window that starts at the offset and is at most limit long, element for element |
| CommentRepo.ConsecutivePages | src/repository/comments.py:49 | two consecutive pages read together are the page that spans both |
| CommentRepo.GetComments | src/repository/comments.py:30-51 | None iff the image does not exist; otherwise the image's comments in stored order from the offset, exactly min(limit, what remains) of them |
| CommentRepo.UpdateComment | src/repository/comments.py:54-76 | None iff no comment has both the id and the caller as owner, and then nothing changes; otherwise only that comment's text changes |
| CommentRepo.DeleteComment | src/repository/comments.py:79-96 | the comment with the id is removed and returned whoever owns it; None and nothing changed iff there is none |
| CommentRepo.RemovePreservesValid | src/repository/comments.py:93-95 | removing one comment keeps the table well formed |
| CommentRepo.DeleteLeavesNoCopy | src/repository/comments.py:90-96 | after a delete no comment with that id is left |
| CommentRoutes.CreateCommentRoute | src/routes/comments.py:16-44 | created iff the image id is at least 1, the text is 1 to 250 characters and both keys exist; bounds are 422 and, with valid input, a missing key is exactly 400 "The request is malformed"; errors write nothing |
| CommentRoutes.GetCommentsRoute | src/routes/comments.py:47-72 | 422 iff image id, offset (default 0) or limit (default 10, within 10 to 100) is out of bounds; 404 iff the image is missing; otherwise the window of that image's comments from the offset, of length min(limit, what remains) |
| CommentRoutes.DefaultPage | src/routes/comments.py:50-51 | without query parameters the first ten comments of the image are listed |
| CommentRoutes.UpdateCommentRoute | src/routes/comments.py:75-105 | bounds are 422; 404 iff no comment has the id and the caller as owner; success iff the input is in bounds and such a comment exists, and then the new table is the old one with only that comment's text replaced |
| CommentRoutes.DeleteCommentRoute | src/routes/comments.py:108-128 | a plain user is 403 before anything else; for an admin or moderator an id below 1 is 422, and otherwise success iff a comment has the id, when the new table is the old one without exactly that row |
| TransformRepo.GetImageById | src/repository/transform.py:92-102 | the image with the id, None iff there is none |
| TransformRepo.GetTransformedImage | src/repository/transform.py:104-117 | the transform with the id, None iff there is none |
| TransformRepo.GetTransformsByUserId | src/repository/transform.py:119-129 | exactly the transforms the user owns |
| TransformRepo.AddTransform | src/repository/transform.py:40-51 | exactly one row is added under a fresh id with the given fields |
| TransformRepo.CreateTransformedImage | src/repository/transform.py:16-55 | a missing photo is None with no host call; any failure is None with no row, and the host is either unchanged or holds exactly one new asset with the derived photo (the QR upload failed after it); on success one row whose asset holds the photo derived by the parameters and whose QR asset encodes the derived url |
| TransformRepo.LookupForUpdateAsWritten | src/repository/transform.py:69-72 | raises exactly when the id is missing |
| TransformRepo.LookupForUpdate | src/repository/transform.py:69-72 | None exactly when the id is missing, the row otherwise |
| TransformRepo.MissingTransformCrashesUpdate | src/repository/transform.py:69-72 | a missing id raises as written and is None when corrected |
| TransformRepo.ApplyUpdateAsWritten | src/repository/transform.py:82-84 | the row's image url and QR fields stay as they were |
| TransformRepo.ApplyUpdate | src/repository/transform.py:82-84 | the row gets the new image url and QR asset; id, source photo, owner and asset id are kept |
| TransformRepo.UpdateAsWrittenKeepsStaleRow | src/repository/transform.py:80-84 | as written the row keeps the old url though a QR for the new one was uploaded; corrected, its QR points at its image |
| TransformRepo.UpdateTransformedImage | src/repository/transform.py:57-90 | a missing id, no new url, or a failure is None with no row and no host change; on success only the url and QR fields change and the new QR asset encodes the new url |
| TransformRepo.AssetIds | src/repository/transform.py:146-147 | the assets a delete destroys: the derived image's id and the QR code's id when there is one |
| TransformRepo.DeleteTransformedImage | src/repository/transform.py:131-156 | false iff the id is missing, with nothing changed; true after the derived asset, the QR asset and then the row are gone, and exactly those assets (`AssetIds`) leave the host; a host error escapes with the row kept and at most the derived asset removed |
| TransformRoutes.CreateTransformRoute | src/routes/transform.py:33-64 | 422, then 404/403 on the photo, then 400 for no parameters; on success the transform belongs to the photo's owner, not the caller; a repository None is 500 |
| TransformRoutes.AllUserTransformsRoute | src/routes/transform.py:67-83 | always the set of the caller's transforms, never an error |
| TransformRoutes.GetTransformRoute | src/routes/transform.py:86-101 | the row iff the id is at least 1, exists and the caller owns it or is admin; 422, 404 and 403 otherwise |
| TransformRoutes.GetTransformQrCodeRoute | src/routes/transform.py:104-119 | the same checks as reading, answering the row's QR url |
| TransformRoutes.UpdateTransformRoute | src/routes/transform.py:122-146 | the read checks first, with nothing changed when they fail; a repository None is 500; on success the row keeps its id and owner |
| TransformRoutes.DeleteTransformRoute | src/routes/transform.py:149-167 | 404 or 403 with nothing changed; on success the row is gone and the host lost exactly its derived and QR assets |
| AuthRoutes.Hash | src/services/auth.py:33-42 | the stored hash is never the plain password |
| AuthRoutes.VerifyPasswordExact | src/services/auth.py:20-31 | a hash verifies exactly the password it was made from |
| AuthRoutes.Signup | src/routes/auth.py:18-38 | bounds are 422 and a known email 409, with no user created; otherwise one unconfirmed user whose stored password is the hash |
| AuthRoutes.Login | src/routes/auth.py:41-63 | in order 401 "Invalid email", "Email not confirmed", "Invalid password", with nothing stored; on success the user's stored refresh token is the one issued, which decodes to the email, and the access token authenticates that user; a confirmed user with the right password always succeeds, and then only that user's stored token changes |
| AuthRoutes.TokenHolder | src/routes/auth.py:79-80 | the user a decodable refresh token names |
| AuthRoutes.RefreshTokenRoute | src/routes/auth.py:66-88 | a decode failure is its 401 and an unknown subject raises, with nothing written; a token other than the stored one clears the stored token and is 401 "Invalid refresh token"; otherwise the pair rotates and the stored token is the new refresh token; every write touches only the holder's row |
| AuthRoutes.ReplayRevokesSession | src/routes/auth.py:81-83 | replaying a replaced refresh token is refused and then the current one is refused too |
| AuthRoutes.RevokedTokenStaysRevoked | src/routes/auth.py:81-83 | a token refused as not stored is refused again |
| AuthRoutes.EmailHolder | src/routes/auth.py:105-106 | the user a decodable confirmation token names |
| AuthRoutes.ConfirmedEmailRoute | src/routes/auth.py:91-112 | decode failure 422; no such user 400 "Verification error"; a confirmed user is told so and nothing is written; otherwise only that user's confirmed flag is set |
| AuthRoutes.ConfirmTwice | src/routes/auth.py:109-112 | following a confirmation link twice: the second visit answers "Your email is already confirmed" |
| AuthRoutes.SignupThenLogin | src/routes/auth.py:55-56 | a new account cannot log in before it confirms its email |
| AuthRoutes.RequestEmailAsWritten | src/routes/auth.py:131-137 | raises exactly when no user has the email |
| AuthRoutes.RequestEmail | src/routes/auth.py:131-137 | a confirmed user is told so; a registered unconfirmed user is mailed; an unknown email gets the usual answer and no mail |
| AuthRoutes.UnknownEmailCrashesRequestEmail | src/routes/auth.py:131-133 | an unknown email raises as written and is answered when corrected |

## Left out

- Mail delivery: sending the confirmation mail is left out. `RequestEmail` names the recipient it would mail. `Signup` does not model the mail it schedules.
- The media host client: its exception mapping and network calls are left out. Each call is an abstract step that may succeed, return nothing or raise. The client has no `upload_transformed_image`, `upload_qr_code` or `update_image_on_cloudinary`. Calling them raises, so transform create and update always fail in practice. The model keeps their evident meaning.
- Cryptography: bcrypt is a one-to-one stand-in (`Hash`) with no salt. JWT signing and decoding is an abstract token record checked for key, algorithm and expiry.
- Time and encoding: the clock is an integer parameter in seconds. `qrcode.make` is opaque.
- AuthRoutes.RefreshTokenRoute: composes the corrected `Tokens.DecodeRefreshToken`, so a live token without a `scope` claim (a confirmation token) gets a 401 here, where the code as written answers 500 (second Findings row).
- AuthRoutes.Signup: does not check the email format (`EmailStr`), because an email grammar is outside this model.
- The database session, engine and app wiring are left out. Each repository call is one atomic step with no interleaving. Concurrent get-or-create races and a stale photo count are therefore not modelled.
- ORM declarations are not modelled. Record shapes follow the initial migration. Column width limits are not enforced: tag names over 50 characters, descriptions over 255.
- `created_at`/`updated_at` columns are not modelled.
- The photo and user HTTP handlers are pass-through. Their logic is the repository logic modelled here.
- pydantic is not modelled. Its bounds appear only where a route declares them (path ids at least 1, comment text length, paging bounds, signup field lengths).
- `upload_picture` answers failures with a dict whose status is 400 (`BadRequest`), not a raised error. That is how the code behaves.
- The media host's "no data" outcome (`Media.Stored.NoData`) cannot arise from `CloudService.upload_image`, which returns the pair or raises through `handle_exceptions` (src/services/cloud_service.py:19-54). The model keeps it as one more possible host outcome. `PhotoRepo.UploadPicture`'s 400 "Image upload failed" for it is therefore unreachable in the code.
- `delete_picture`:
  - A row delete refused because comments or transforms still point at the image comes after the remote asset was already destroyed.
  - The model reports 500 there. Its postconditions state that the row is kept and that the asset can be gone only in that case.
- The "text is missing" 400 of the comment routes is unreachable: the schema's length bound (at least 1) is checked first. The model keeps the branch.
- The 404 of `delete_transform` for a False repository result is unreachable. The same row passed the permission check just before.
- Comments are listed in insertion order: the query has no ORDER BY, and the store's natural order stands in for it.
- A tag string that names the same tag twice attaches it twice, as the loop does.
- A refresh rotated within the same second as the previous issue yields a token equal to the old one. The model does not exclude this; the source does not either.
- Tests are not modelled. Where `src/tests/test_repository_users.py` expects `create_user` to fail when the avatar lookup raises, the model follows the code: creation proceeds with no avatar.

## Findings

| source | as written | input that shows it | evidently intended | confidence | as-written member | corrected member |
|---|---|---|---|---|---|---|
| src/services/auth.py:129-130 | `payload['scope']` and `payload["sub"]` are indexed, so a missing claim raises KeyError, which no handler catches | an unexpired email-confirmation token (it has no `scope`) sent as the bearer token: 500 (`Tokens.EmailTokenCrashesGetCurrentUser`) | 401 "Could not validate credentials" for every token that is not a valid access token | high; not executed | Tokens.GetCurrentUserAsWritten | Tokens.GetCurrentUser |
| src/services/auth.py:102-103 | the refresh decoder indexes `payload['scope']` and `payload['sub']` the same way | the same confirmation token sent to `/auth/refresh_token`: 500 (`Tokens.EmailTokenCrashesRefreshDecoder`) | 401 "Invalid scope for token" | high; not executed | Tokens.DecodeRefreshTokenAsWritten | Tokens.DecodeRefreshToken |
| src/routes/auth.py:131-135 | `user.confirmed` is read before `if user:`, so an unknown email dereferences None | `POST /auth/request_email` with an email nobody registered: 500 (`AuthRoutes.UnknownEmailCrashesRequestEmail`) | the usual "Check your email for confirmation." with no mail sent | high; not executed | AuthRoutes.RequestEmailAsWritten | AuthRoutes.RequestEmail |
| src/repository/transform.py:69-72 | `transformed_image.user_id` is read before the None check | `PATCH /transform/{id}` reaching the repository with an id that has no row: AttributeError (`TransformRepo.MissingTransformCrashesUpdate`) | None, so the route answers its 500 "transformation is not done" | high; not executed | TransformRepo.LookupForUpdateAsWritten | TransformRepo.LookupForUpdate |
| src/repository/transform.py:82-84 | the new values go to `url`, `qr_url` and `qr_public_id`, which are not columns (the row's columns are `image_url`, `qr_code_url`, `qr_code_public_id`, as the create at lines 42-45 uses) | any successful update whose new url differs: the stored row keeps the old url and QR code (`TransformRepo.UpdateAsWrittenKeepsStaleRow`) | the row points at the new image and the new QR code | medium; not executed | TransformRepo.ApplyUpdateAsWritten | TransformRepo.ApplyUpdate |
