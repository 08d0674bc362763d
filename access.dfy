/** The three authorization rules: the ownership-or-admin predicate of the photo registry,
    the permission check of the transform routes, and the role allow-list guard. */
module Access {
  import opened Types

  /** `has_access`: the caller owns the resource or the role passed in is admin. */
  predicate HasAccess(user: UserRow, owner: int, statusRole: Role)
  {
    user.id == owner || statusRole == Admin
  }

  /** The full truth table of `HasAccess` over ownership and the three roles. */
  lemma HasAccessTruthTable(user: UserRow, owner: int, statusRole: Role)
    ensures user.id == owner ==> HasAccess(user, owner, statusRole)
    ensures statusRole == Admin ==> HasAccess(user, owner, statusRole)
    ensures user.id != owner && statusRole == Moderator ==> !HasAccess(user, owner, statusRole)
    ensures user.id != owner && statusRole == User ==> !HasAccess(user, owner, statusRole)
  {
  }

  const ImageNotFound := HttpError(404, "Image Not Found")
  const NoRights := HttpError(403, "You do not have rights to perform this action")

  /** `verify_permissions`: a missing object is 404, a caller who is neither the object's
      owner nor an admin is 403, anything else passes. `ownerOf` is the object's `user_id`,
      `None` when the lookup found nothing. */
  function VerifyPermissions(ownerOf: Option<int>, currentUser: UserRow): (r: Outcome)
    ensures r == Pass <==> ownerOf.Some? && (ownerOf.value == currentUser.id || currentUser.role == Admin)
    ensures ownerOf.None? ==> r == Fail(ImageNotFound)
    ensures r.Fail? && ownerOf.Some? ==> r == Fail(NoRights)
  {
    if ownerOf.None? then Fail(ImageNotFound)
    else if ownerOf.value != currentUser.id && currentUser.role != Admin then Fail(NoRights)
    else Pass
  }

  /** The transform routes' check and the photo registry's predicate grant the same callers. */
  lemma VerifyPermissionsAgreesWithHasAccess(owner: int, currentUser: UserRow)
    ensures VerifyPermissions(Some(owner), currentUser) == Pass <==> HasAccess(currentUser, owner, currentUser.role)
  {
  }

  const Forbidden := HttpError(403, "FORBIDDEN")

  /** `RoleAccess`: an allow-list of roles fixed when the guard is built. */
  datatype RoleAccess = RoleAccess(allowedRoles: seq<Role>)
  {
    /** `__call__`: passes iff the user's role is listed, otherwise 403 FORBIDDEN. */
    function Check(user: UserRow): (r: Outcome)
      ensures r == Pass <==> user.role in allowedRoles
      ensures r != Pass ==> r == Fail(Forbidden)
    {
      if user.role !in allowedRoles then Fail(Forbidden) else Pass
    }
  }

  /** An empty allow-list rejects every user. */
  lemma EmptyAllowListRejects(user: UserRow)
    ensures RoleAccess([]).Check(user) == Fail(Forbidden)
  {
  }

  /** The guard the comment routes put in front of deletion. */
  const DeleteAccess := RoleAccess([Admin, Moderator])

  /** Only admins and moderators pass the delete guard. */
  lemma DeleteAccessRoles(user: UserRow)
    ensures DeleteAccess.Check(user) == Pass <==> user.role != User
  {
  }
}
