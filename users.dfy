/** The user directory: lookups by email, first-user bootstrap and the per-user fields the
    credential lifecycle writes. */
module UserRepo {
  import opened Types
  import opened Store

  /** The registration body (`UserModel`); `password` already holds the hash when it gets here. */
  datatype UserModel = UserModel(username: string, email: string, password: string)

  function EmailIndex(users: seq<UserRow>, email: string): Option<nat>
  {
    IndexWhere(users, (u: UserRow) => u.email == email)
  }

  function IdIndex(users: seq<UserRow>, id: int): Option<nat>
  {
    IndexWhere(users, (u: UserRow) => u.id == id)
  }

  /** `get_user_by_email`: the user with that email, or None when there is none. */
  function GetUserByEmail(users: seq<UserRow>, email: string): (r: Option<UserRow>)
    ensures r.Some? ==> r.value in users && r.value.email == email
    ensures r.None? <==> forall i :: 0 <= i < |users| ==> users[i].email != email
  {
    match EmailIndex(users, email)
    case None => None
    case Some(i) => Some(users[i])
  }

  /** Emails are unique, so the lookup finds exactly the one user who has the email. */
  lemma GetUserByEmailUnique(users: seq<UserRow>, nextId: int, i: nat)
    requires UsersValid(users, nextId) && i < |users|
    ensures GetUserByEmail(users, users[i].email) == Some(users[i])
  {
    var k := EmailIndex(users, users[i].email);
    assert k.Some?;
    assert users[k.value].email == users[i].email;
  }

  /** Ids are unique, so the lookup by a member's id finds that member's row. */
  lemma IdIndexOfMember(users: seq<UserRow>, nextId: int, k: nat)
    requires UsersValid(users, nextId) && k < |users|
    ensures IdIndex(users, users[k].id) == Some(k)
  {
    var j := IdIndex(users, users[k].id);
    assert j.Some?;
    assert users[j.value].id == users[k].id;
  }

  /** `get_user_by_username`: usernames carry no unique constraint, and `scalar_one_or_none`
      raises when more than one row matches (an uncaught error, so 500). */
  function GetUserByUsername(users: seq<UserRow>, username: string): (r: Result<Option<UserRow>>)
    ensures r == Ok(None) <==> forall i :: 0 <= i < |users| ==> users[i].username != username
    ensures r.Err? <==> exists i, j :: 0 <= i < j < |users| && users[i].username == username && users[j].username == username
    ensures r.Err? ==> r.error == InternalError
    ensures r.Ok? && r.value.Some? ==>
      && r.value.value in users && r.value.value.username == username
      && forall i :: 0 <= i < |users| && users[i].username == username ==> users[i] == r.value.value
  {
    match IndexWhere(users, (u: UserRow) => u.username == username)
    case None => Ok(None)
    case Some(i) =>
      var rest := users[i + 1..];
      match IndexWhere(rest, (u: UserRow) => u.username == username)
      case Some(k) =>
        assert users[i + 1 + k] == rest[k];
        Err(InternalError)
      case None =>
        assert forall j :: i < j < |users| ==> users[j] == rest[j - i - 1];
        Ok(Some(users[i]))
  }

  /** `check_is_first_user`: the user table is empty. */
  predicate CheckIsFirstUser(users: seq<UserRow>)
  {
    |users| == 0
  }

  /** The role `create_user` gives: admin when the table was empty, the column default otherwise. */
  function NewUserRole(users: seq<UserRow>): (r: Role)
    ensures r == Admin <==> CheckIsFirstUser(users)
    ensures r != Admin ==> r == User
  {
    if CheckIsFirstUser(users) then Admin else User
  }

  /** The bootstrap happens once: after any account exists, every new account gets the default role. */
  lemma BootstrapOnce(users: seq<UserRow>, created: UserRow)
    ensures NewUserRole(users + [created]) == User
  {
  }

  /** `create_user`. `avatar` is what the avatar lookup produced, None when it raised: creation
      proceeds either way. Inserting an email already present violates the unique constraint, an
      uncaught integrity error (500). */
  method CreateUser(db: Db, body: UserModel, avatar: Option<string>) returns (r: Result<UserRow>)
    requires db.Valid()
    modifies db`users, db`nextUserId
    ensures db.Valid()
    ensures GetUserByEmail(old(db.users), body.email).Some? ==>
      r == Err(InternalError) && db.users == old(db.users)
    ensures GetUserByEmail(old(db.users), body.email).None? ==>
      && r.Ok?
      && r.value == UserRow(old(db.nextUserId), body.username, body.email, body.password,
                            avatar, None, false, NewUserRole(old(db.users)), None)
      && db.users == old(db.users) + [r.value]
  {
    if GetUserByEmail(db.users, body.email).Some? {
      return Err(InternalError);
    }
    var isFirstUser := CheckIsFirstUser(db.users);
    var role := if isFirstUser then Admin else User;
    var created := UserRow(db.nextUserId, body.username, body.email, body.password,
                           avatar, None, false, role, None);
    db.users := db.users + [created];
    db.nextUserId := db.nextUserId + 1;
    r := Ok(created);
  }

  /** `update_token`: the user's stored refresh token becomes `token` (None clears it);
      nothing else changes. The user passed in is a row of the table. */
  method UpdateToken(db: Db, userId: int, token: Option<Token>)
    requires db.Valid() && IdIndex(db.users, userId).Some?
    modifies db`users
    ensures db.Valid()
    ensures var i := IdIndex(old(db.users), userId).value;
      db.users == old(db.users)[i := old(db.users)[i].(refreshToken := token)]
  {
    var i := IdIndex(db.users, userId).value;
    db.users := db.users[i := db.users[i].(refreshToken := token)];
  }

  /** `confirmed_email`: the user with the email becomes confirmed. An unknown email
      dereferences None and raises. */
  method ConfirmedEmail(db: Db, email: string) returns (r: Outcome)
    requires db.Valid()
    modifies db`users
    ensures db.Valid()
    ensures EmailIndex(old(db.users), email).None? ==> r == Fail(InternalError) && db.users == old(db.users)
    ensures EmailIndex(old(db.users), email).Some? ==>
      var i := EmailIndex(old(db.users), email).value;
      r == Pass && db.users == old(db.users)[i := old(db.users)[i].(confirmed := true)]
  {
    var found := EmailIndex(db.users, email);
    if found.None? {
      return Fail(InternalError);
    }
    var i := found.value;
    db.users := db.users[i := db.users[i].(confirmed := true)];
    r := Pass;
  }

  /** `update_avatar_url`: sets the avatar of the user with the email and returns that user. */
  method UpdateAvatarUrl(db: Db, email: string, url: Option<string>) returns (r: Result<UserRow>)
    requires db.Valid()
    modifies db`users
    ensures db.Valid()
    ensures EmailIndex(old(db.users), email).None? ==> r == Err(InternalError) && db.users == old(db.users)
    ensures EmailIndex(old(db.users), email).Some? ==>
      var i := EmailIndex(old(db.users), email).value;
      && r == Ok(old(db.users)[i].(avatar := url))
      && db.users == old(db.users)[i := r.value]
  {
    var found := EmailIndex(db.users, email);
    if found.None? {
      return Err(InternalError);
    }
    var i := found.value;
    var updated := db.users[i].(avatar := url);
    db.users := db.users[i := updated];
    r := Ok(updated);
  }

  /** The ids of the images a user owns. */
  function OwnedImages(images: map<int, ImageRow>, userId: int): (r: set<int>)
    ensures forall id :: id in r <==> id in images && images[id].userId == userId
  {
    set id | id in images && images[id].userId == userId
  }

  /** `get_count_photo`: the user's `count_photo` becomes the number of images they own. */
  method GetCountPhoto(db: Db, userId: int)
    requires db.Valid() && IdIndex(db.users, userId).Some?
    modifies db`users
    ensures db.Valid()
    ensures var i := IdIndex(old(db.users), userId).value;
      db.users == old(db.users)[i := old(db.users)[i].(countPhoto := Some(|OwnedImages(db.images, userId)|))]
  {
    var i := IdIndex(db.users, userId).value;
    var countPhoto := |OwnedImages(db.images, userId)|;
    db.users := db.users[i := db.users[i].(countPhoto := Some(countPhoto))];
  }
}
