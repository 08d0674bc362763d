/** The authentication endpoints: registration, login, refresh-token rotation and email
    confirmation. Mail delivery is left out; where an endpoint schedules a mail, the recipient
    is part of the result. */
module AuthRoutes {
  import opened Types
  import opened Store
  import opened UserRepo
  import opened Tokens

  /** Stand-in for `get_password_hash`: a one-to-one encoding that never equals its input.
      Salting and the hash function itself are not modelled. */
  const HashPrefix: string := "$2b$12$"

  function Hash(password: string): (h: string)
    ensures |h| > |password|
  {
    HashPrefix + password
  }

  /** `verify_password`. */
  predicate VerifyPassword(plain: string, hashed: string)
  {
    hashed == Hash(plain)
  }

  /** A stored hash accepts exactly the password it was made from. */
  lemma VerifyPasswordExact(password: string, attempt: string)
    ensures VerifyPassword(attempt, Hash(password)) <==> attempt == password
  {
    if Hash(attempt) == Hash(password) {
      assert attempt == Hash(attempt)[|HashPrefix|..];
      assert password == Hash(password)[|HashPrefix|..];
    }
  }

  /** The framework's rejection of a body that fails its declared bounds. */
  const ValidationError := HttpError(422, "Unprocessable Entity")
  const AccountExists := HttpError(409, "Account already exists")
  const InvalidEmail := HttpError(401, "Invalid email")
  const EmailNotConfirmed := HttpError(401, "Email not confirmed")
  const InvalidPassword := HttpError(401, "Invalid password")
  const InvalidRefreshToken := HttpError(401, "Invalid refresh token")
  const VerificationError := HttpError(400, "Verification error")
  const AlreadyConfirmed := "Your email is already confirmed"
  const EmailConfirmed := "Email confirmed"
  const CheckYourEmail := "Check your email for confirmation."

  /** `UserModel`'s declared bounds: a username of 3 to 50 characters and a password of 6 to
      10. The email format check is not modelled. */
  predicate SignupBodyValid(body: UserModel)
  {
    3 <= |body.username| <= 50 && 6 <= |body.password| <= 10
  }

  /** `POST /auth/signup`: a body out of bounds is 422, a known email is 409; otherwise the
      account is created with the password hashed, unconfirmed. */
  method Signup(db: Db, body: UserModel, avatar: Option<string>) returns (r: Result<UserRow>)
    requires db.Valid()
    modifies db`users, db`nextUserId
    ensures db.Valid()
    ensures !SignupBodyValid(body) ==> r == Err(ValidationError) && db.users == old(db.users)
    ensures SignupBodyValid(body) && GetUserByEmail(old(db.users), body.email).Some? ==>
      r == Err(AccountExists) && db.users == old(db.users)
    ensures r.Err? ==> db.users == old(db.users)
    ensures SignupBodyValid(body) && GetUserByEmail(old(db.users), body.email).None? ==>
      && r.Ok? && r.value.email == body.email && r.value.username == body.username
      && r.value.password == Hash(body.password) && r.value.password != body.password
      && !r.value.confirmed && r.value.refreshToken.None?
      && r.value.role == NewUserRole(old(db.users))
      && db.users == old(db.users) + [r.value]
  {
    if !SignupBodyValid(body) {
      return Err(ValidationError);
    }
    var existing := GetUserByEmail(db.users, body.email);
    if existing.Some? {
      return Err(AccountExists);
    }
    r := CreateUser(db, body.(password := Hash(body.password)), avatar);
  }

  /** The pair of tokens login and refresh hand out (`token_type` is always "bearer"). */
  datatype TokenPair = TokenPair(accessToken: Token, refreshToken: Token)

  /** `POST /auth/login`: unknown email, unconfirmed account and wrong password are three
      distinct 401s, checked in that order. On success both tokens name the user's email and
      the refresh token is stored on the user's row. */
  method Login(db: Db, s: Signer, email: string, password: string, now: int) returns (r: Result<TokenPair>)
    requires db.Valid()
    modifies db`users
    ensures db.Valid()
    ensures GetUserByEmail(old(db.users), email).None? ==> r == Err(InvalidEmail) && db.users == old(db.users)
    ensures GetUserByEmail(old(db.users), email).Some? && !GetUserByEmail(old(db.users), email).value.confirmed ==>
      r == Err(EmailNotConfirmed) && db.users == old(db.users)
    ensures GetUserByEmail(old(db.users), email).Some? && GetUserByEmail(old(db.users), email).value.confirmed &&
            !VerifyPassword(password, GetUserByEmail(old(db.users), email).value.password) ==>
      r == Err(InvalidPassword) && db.users == old(db.users)
    ensures r.Ok? ==>
      && GetUserByEmail(old(db.users), email).Some?
      && VerifyPassword(password, GetUserByEmail(old(db.users), email).value.password)
      && GetUserByEmail(db.users, email) == Some(GetUserByEmail(old(db.users), email).value.(refreshToken := Some(r.value.refreshToken)))
      && GetCurrentUser(s, r.value.accessToken, now, db.users) == Ok(GetUserByEmail(db.users, email).value)
      && DecodeRefreshToken(s, r.value.refreshToken, now) == Ok(Str(email))
    ensures GetUserByEmail(old(db.users), email).Some? && GetUserByEmail(old(db.users), email).value.confirmed &&
            VerifyPassword(password, GetUserByEmail(old(db.users), email).value.password) ==>
      r.Ok?
    ensures r.Ok? ==>
      var k := EmailIndex(old(db.users), email).value;
      db.users == old(db.users)[k := old(db.users)[k].(refreshToken := Some(r.value.refreshToken))]
  {
    var found := GetUserByEmail(db.users, email);
    if found.None? {
      return Err(InvalidEmail);
    }
    var user := found.value;
    if !user.confirmed {
      return Err(EmailNotConfirmed);
    }
    if !VerifyPassword(password, user.password) {
      return Err(InvalidPassword);
    }
    var data := map["sub" := Str(user.email)];
    var accessToken := CreateAccessToken(s, data, None, now);
    var refreshToken := CreateRefreshToken(s, data, None, now);
    ghost var k := EmailIndex(db.users, email).value;
    IdIndexOfMember(db.users, db.nextUserId, k);
    UpdateToken(db, user.id, Some(refreshToken));
    GetUserByEmailUnique(db.users, db.nextUserId, k);
    AccessTokenAuthenticates(s, db.users, db.nextUserId, k, None, now, now);
    RefreshTokenRoundTrip(s, data, None, now, now);
    r := Ok(TokenPair(accessToken, refreshToken));
  }

  /** The user a refresh token names, when it decodes and its subject is registered. */
  function TokenHolder(users: seq<UserRow>, s: Signer, token: Token, now: int): (r: Option<UserRow>)
    ensures r.Some? ==> DecodeRefreshToken(s, token, now).Ok? && r.value in users
    ensures r.Some? ==> DecodeRefreshToken(s, token, now).value == Str(r.value.email)
  {
    match DecodeRefreshToken(s, token, now)
    case Err(_) => None
    case Ok(sub) => UserForSubject(users, sub)
  }

  /** `GET /auth/refresh_token`. A token that does not decode is refused with the decoder's
      401. A decodable token whose subject is not registered dereferences None (500). A token
      that is not the one stored on its holder's row revokes the stored one and is refused.
      Otherwise a fresh pair is issued and the new refresh token replaces the old on the row. */
  method RefreshTokenRoute(db: Db, s: Signer, token: Token, now: int) returns (r: Result<TokenPair>)
    requires db.Valid()
    modifies db`users
    ensures db.Valid()
    ensures DecodeRefreshToken(s, token, now).Err? ==>
      r == Err(DecodeRefreshToken(s, token, now).error) && db.users == old(db.users)
    ensures DecodeRefreshToken(s, token, now).Ok? && TokenHolder(old(db.users), s, token, now).None? ==>
      r == Err(InternalError) && db.users == old(db.users)
    ensures TokenHolder(old(db.users), s, token, now).Some? &&
            TokenHolder(old(db.users), s, token, now).value.refreshToken != Some(token) ==>
      && r == Err(InvalidRefreshToken)
      && TokenHolder(db.users, s, token, now) == Some(TokenHolder(old(db.users), s, token, now).value.(refreshToken := None))
      && var k := EmailIndex(old(db.users), TokenHolder(old(db.users), s, token, now).value.email).value;
         db.users == old(db.users)[k := old(db.users)[k].(refreshToken := None)]
    ensures TokenHolder(old(db.users), s, token, now).Some? &&
            TokenHolder(old(db.users), s, token, now).value.refreshToken == Some(token) ==>
      && r.Ok?
      && TokenHolder(db.users, s, token, now) == Some(TokenHolder(old(db.users), s, token, now).value.(refreshToken := Some(r.value.refreshToken)))
      && DecodeRefreshToken(s, r.value.refreshToken, now) == DecodeRefreshToken(s, token, now)
      && GetCurrentUser(s, r.value.accessToken, now, db.users) == Ok(TokenHolder(db.users, s, token, now).value)
      && var k := EmailIndex(old(db.users), TokenHolder(old(db.users), s, token, now).value.email).value;
         db.users == old(db.users)[k := old(db.users)[k].(refreshToken := Some(r.value.refreshToken))]
    ensures |db.users| == |old(db.users)|
  {
    var decoded := DecodeRefreshToken(s, token, now);
    if decoded.Err? {
      return Err(decoded.error);
    }
    var email := decoded.value;
    var found := UserForSubject(db.users, email);
    if found.None? {
      return Err(InternalError);
    }
    var user := found.value;
    ghost var k := EmailIndex(db.users, email.s).value;
    IdIndexOfMember(db.users, db.nextUserId, k);
    if user.refreshToken != Some(token) {
      UpdateToken(db, user.id, None);
      GetUserByEmailUnique(db.users, db.nextUserId, k);
      return Err(InvalidRefreshToken);
    }
    var data := map["sub" := email];
    var accessToken := CreateAccessToken(s, data, None, now);
    var refreshToken := CreateRefreshToken(s, data, None, now);
    UpdateToken(db, user.id, Some(refreshToken));
    GetUserByEmailUnique(db.users, db.nextUserId, k);
    AccessTokenAuthenticates(s, db.users, db.nextUserId, k, None, now, now);
    RefreshTokenRoundTrip(s, data, None, now, now);
    r := Ok(TokenPair(accessToken, refreshToken));
  }

  /** Presenting a refresh token that has been replaced (by a later login or refresh) is refused
      and logs the holder out: the very next refresh with the current token is refused too. */
  method ReplayRevokesSession(db: Db, s: Signer, stale: Token, current: Token, now: int)
    returns (first: Result<TokenPair>, second: Result<TokenPair>)
    requires db.Valid()
    requires TokenHolder(db.users, s, stale, now).Some?
    requires TokenHolder(db.users, s, stale, now).value.refreshToken == Some(current) && current != stale
    requires TokenHolder(db.users, s, current, now) == TokenHolder(db.users, s, stale, now)
    modifies db`users
    ensures first == Err(InvalidRefreshToken) && second == Err(InvalidRefreshToken)
  {
    first := RefreshTokenRoute(db, s, stale, now);
    second := RefreshTokenRoute(db, s, current, now);
  }

  /** A refused refresh token stays refused: once revoked, the same token is refused again. */
  method RevokedTokenStaysRevoked(db: Db, s: Signer, token: Token, now: int)
    returns (first: Result<TokenPair>, second: Result<TokenPair>)
    requires db.Valid()
    modifies db`users
    ensures first == Err(InvalidRefreshToken) ==> second == Err(InvalidRefreshToken)
  {
    first := RefreshTokenRoute(db, s, token, now);
    second := RefreshTokenRoute(db, s, token, now);
  }

  /** The user a confirmation token names, when it decodes and its subject is registered. */
  function EmailHolder(users: seq<UserRow>, s: Signer, token: Token, now: int): (r: Option<UserRow>)
    ensures r.Some? ==> GetEmailFromToken(s, token, now).Ok? && r.value in users
    ensures r.Some? ==> GetEmailFromToken(s, token, now).value == Str(r.value.email)
  {
    match GetEmailFromToken(s, token, now)
    case Err(_) => None
    case Ok(sub) => UserForSubject(users, sub)
  }

  /** `GET /auth/confirmed_email/{token}`: a token that does not decode is 422, one naming no
      registered user is 400; an already confirmed user is told so, and any other becomes
      confirmed. Nothing but that user's `confirmed` flag changes. */
  method ConfirmedEmailRoute(db: Db, s: Signer, token: Token, now: int) returns (r: Result<string>)
    requires db.Valid()
    modifies db`users
    ensures db.Valid()
    ensures GetEmailFromToken(s, token, now).Err? ==>
      r == Err(GetEmailFromToken(s, token, now).error) && db.users == old(db.users)
    ensures GetEmailFromToken(s, token, now).Ok? && EmailHolder(old(db.users), s, token, now).None? ==>
      r == Err(VerificationError) && db.users == old(db.users)
    ensures EmailHolder(old(db.users), s, token, now).Some? && EmailHolder(old(db.users), s, token, now).value.confirmed ==>
      r == Ok(AlreadyConfirmed) && db.users == old(db.users)
    ensures EmailHolder(old(db.users), s, token, now).Some? && !EmailHolder(old(db.users), s, token, now).value.confirmed ==>
      && r == Ok(EmailConfirmed)
      && EmailHolder(db.users, s, token, now) == Some(EmailHolder(old(db.users), s, token, now).value.(confirmed := true))
      && var k := EmailIndex(old(db.users), EmailHolder(old(db.users), s, token, now).value.email).value;
         db.users == old(db.users)[k := old(db.users)[k].(confirmed := true)]
    ensures |db.users| == |old(db.users)|
  {
    var extracted := GetEmailFromToken(s, token, now);
    if extracted.Err? {
      return Err(extracted.error);
    }
    var email := extracted.value;
    var found := UserForSubject(db.users, email);
    if found.None? {
      return Err(VerificationError);
    }
    var user := found.value;
    if user.confirmed {
      return Ok(AlreadyConfirmed);
    }
    ghost var k := EmailIndex(db.users, email.s).value;
    var done := ConfirmedEmail(db, email.s);
    GetUserByEmailUnique(db.users, db.nextUserId, k);
    r := Ok(EmailConfirmed);
  }

  /** Following a confirmation link twice: the second visit reports the account as already confirmed. */
  method ConfirmTwice(db: Db, s: Signer, token: Token, now: int) returns (first: Result<string>, second: Result<string>)
    requires db.Valid()
    modifies db`users
    ensures first == Ok(EmailConfirmed) ==> second == Ok(AlreadyConfirmed)
    ensures first.Ok? ==> second == Ok(AlreadyConfirmed)
  {
    first := ConfirmedEmailRoute(db, s, token, now);
    second := ConfirmedEmailRoute(db, s, token, now);
  }

  /** A new account cannot log in before it confirms its email, whatever password it gives. */
  method SignupThenLogin(db: Db, s: Signer, body: UserModel, avatar: Option<string>, password: string, now: int)
    returns (signed: Result<UserRow>, logged: Result<TokenPair>)
    requires db.Valid()
    modifies db`users, db`nextUserId
    ensures signed.Ok? ==> logged == Err(EmailNotConfirmed)
  {
    signed := Signup(db, body, avatar);
    if signed.Ok? {
      GetUserByEmailUnique(db.users, db.nextUserId, |db.users| - 1);
    }
    logged := Login(db, s, body.email, password, now);
  }

  /** What `request_email` answers, and the user a confirmation mail is scheduled for. */
  datatype EmailReply = EmailReply(message: string, mailTo: Option<UserRow>)

  /** `POST /auth/request_email` as written: `user.confirmed` is read before `user` is checked,
      so an unknown email raises AttributeError (500). */
  function RequestEmailAsWritten(users: seq<UserRow>, email: string): (r: Result<EmailReply>)
    ensures r.Err? <==> GetUserByEmail(users, email).None?
    ensures r.Err? ==> r.error == InternalError
    ensures r.Ok? ==> r.value == RequestEmail(users, email)
  {
    match GetUserByEmail(users, email)
    case None => Err(InternalError)
    case Some(user) =>
      if user.confirmed then Ok(EmailReply(AlreadyConfirmed, None))
      else Ok(EmailReply(CheckYourEmail, Some(user)))
  }

  /** `request_email` as intended: a confirmed user is told so; a registered unconfirmed user
      is sent the confirmation mail; an unknown email gets the same answer and no mail. */
  function RequestEmail(users: seq<UserRow>, email: string): (r: EmailReply)
    ensures r.message == AlreadyConfirmed <==> GetUserByEmail(users, email).Some? && GetUserByEmail(users, email).value.confirmed
    ensures r.message != AlreadyConfirmed ==> r.message == CheckYourEmail
    ensures r.mailTo.Some? <==> GetUserByEmail(users, email).Some? && !GetUserByEmail(users, email).value.confirmed
    ensures r.mailTo.Some? ==> r.mailTo.value.email == email && r.mailTo.value in users
  {
    match GetUserByEmail(users, email)
    case None => EmailReply(CheckYourEmail, None)
    case Some(user) =>
      if user.confirmed then EmailReply(AlreadyConfirmed, None)
      else EmailReply(CheckYourEmail, Some(user))
  }

  /** An email nobody registered crashes the endpoint as written; the intended endpoint answers
      the usual message and mails no one. */
  lemma UnknownEmailCrashesRequestEmail(users: seq<UserRow>, email: string)
    requires forall i :: 0 <= i < |users| ==> users[i].email != email
    ensures RequestEmailAsWritten(users, email) == Err(InternalError)
    ensures RequestEmail(users, email) == EmailReply(CheckYourEmail, None)
  {
  }
}
