/** The credential service's token logic. Tokens are JSON Web Tokens (RFC 7519) whose
    payload carries the registered claims `sub`, `iat` and `exp` of section 4.1 and a private
    `scope` claim telling access tokens from refresh tokens; email-confirmation tokens carry no
    `scope`. Signing is opaque and time is a parameter, in seconds. */
module Tokens {
  import opened Types
  import opened UserRepo

  const AccessScope: string := "access_token"
  const RefreshScope: string := "refresh_token"

  /** Default lifetimes: 15 minutes, 7 days, 1 day. */
  const AccessLifetime: int := 15 * 60
  const RefreshLifetime: int := 7 * 24 * 60 * 60
  const EmailLifetime: int := 24 * 60 * 60

  /** `Auth.SECRET_KEY` and `Auth.ALGORITHM`. */
  datatype Signer = Signer(secret: string, alg: string)

  const CredentialsError := HttpError(401, "Could not validate credentials")
  const ScopeError := HttpError(401, "Invalid scope for token")
  const EmailTokenError := HttpError(422, "Invalid token for email verification")

  /** The expiry a creator stamps: `expires_delta` seconds from now when it is truthy,
      the default lifetime when it is None or 0. */
  function Expiry(now: int, expiresDelta: Option<int>, defaultLifetime: int): (exp: int)
    ensures expiresDelta.None? || expiresDelta.value == 0 ==> exp == now + defaultLifetime
    ensures expiresDelta.Some? && expiresDelta.value != 0 ==> exp == now + expiresDelta.value
  {
    if expiresDelta.Some? && expiresDelta.value != 0 then now + expiresDelta.value
    else now + defaultLifetime
  }

  /** A copy of `data` updated with `iat`, `exp` and, when given, `scope`; the caller's
      `data` is a value and stays as it was. */
  function Stamp(data: Payload, now: int, exp: int, scope: Option<string>): (p: Payload)
    ensures p.Keys == data.Keys + {"iat", "exp"} + (if scope.Some? then {"scope"} else {})
    ensures p["iat"] == Num(now) && p["exp"] == Num(exp)
    ensures scope.Some? ==> p["scope"] == Str(scope.value)
    ensures scope.None? && "scope" in data ==> p["scope"] == data["scope"]
    ensures forall k :: k in data && k != "iat" && k != "exp" && k != "scope" ==> p[k] == data[k]
  {
    var stamped := data + map["iat" := Num(now), "exp" := Num(exp)];
    if scope.Some? then stamped["scope" := Str(scope.value)] else stamped
  }

  /** `create_access_token`. */
  function CreateAccessToken(s: Signer, data: Payload, expiresDelta: Option<int>, now: int): (t: Token)
    ensures t.Signed? && t.key == s.secret && t.alg == s.alg
    ensures t.payload.Keys == data.Keys + {"iat", "exp", "scope"}
    ensures t.payload["scope"] == Str(AccessScope)
    ensures t.payload["iat"] == Num(now) && t.payload["exp"] == Num(Expiry(now, expiresDelta, AccessLifetime))
    ensures forall k :: k in data && k != "iat" && k != "exp" && k != "scope" ==> t.payload[k] == data[k]
  {
    Signed(Stamp(data, now, Expiry(now, expiresDelta, AccessLifetime), Some(AccessScope)), s.secret, s.alg)
  }

  /** `create_refresh_token`. */
  function CreateRefreshToken(s: Signer, data: Payload, expiresDelta: Option<int>, now: int): (t: Token)
    ensures t.Signed? && t.key == s.secret && t.alg == s.alg
    ensures t.payload.Keys == data.Keys + {"iat", "exp", "scope"}
    ensures t.payload["scope"] == Str(RefreshScope)
    ensures t.payload["iat"] == Num(now) && t.payload["exp"] == Num(Expiry(now, expiresDelta, RefreshLifetime))
    ensures forall k :: k in data && k != "iat" && k != "exp" && k != "scope" ==> t.payload[k] == data[k]
  {
    Signed(Stamp(data, now, Expiry(now, expiresDelta, RefreshLifetime), Some(RefreshScope)), s.secret, s.alg)
  }

  /** `create_email_token`: one day of life and no `scope` claim of its own. */
  function CreateEmailToken(s: Signer, data: Payload, now: int): (t: Token)
    ensures t.Signed? && t.key == s.secret && t.alg == s.alg
    ensures t.payload.Keys == data.Keys + {"iat", "exp"}
    ensures t.payload["iat"] == Num(now) && t.payload["exp"] == Num(now + EmailLifetime)
    ensures forall k :: k in data && k != "iat" && k != "exp" ==> t.payload[k] == data[k]
  {
    Signed(Stamp(data, now, now + EmailLifetime, None), s.secret, s.alg)
  }

  /** `jwt.decode(token, SECRET_KEY, algorithms=[ALGORITHM])` at time `now`: the payload of a
      token signed with this key and algorithm whose `exp`, if any, is a number not yet past;
      None stands for the JWTError raised otherwise. */
  function Decode(s: Signer, t: Token, now: int): (r: Option<Payload>)
    ensures r.Some? <==> && t.Signed? && t.key == s.secret && t.alg == s.alg
                         && ("exp" in t.payload ==> t.payload["exp"].Num? && now <= t.payload["exp"].n)
    ensures r.Some? ==> r.value == t.payload
  {
    match t
    case Malformed(_) => None
    case Signed(payload, key, alg) =>
      if key != s.secret || alg != s.alg then None
      else if "exp" in payload && !(payload["exp"].Num? && now <= payload["exp"].n) then None
      else Some(payload)
  }

  /** `decode_refresh_token` as the source has it: `payload['scope']` and `payload['sub']`
      raise KeyError when the claim is missing, which no handler catches. */
  function DecodeRefreshTokenAsWritten(s: Signer, t: Token, now: int): (r: Result<Claim>)
    ensures r.Ok? <==> && Decode(s, t, now).Some? && "scope" in t.payload && "sub" in t.payload
                       && t.payload["scope"] == Str(RefreshScope)
    ensures r.Ok? ==> r.value == t.payload["sub"]
    ensures Decode(s, t, now).None? ==> r == Err(CredentialsError)
    ensures Decode(s, t, now).Some? && "scope" !in t.payload ==> r == Err(InternalError)
  {
    match Decode(s, t, now)
    case None => Err(CredentialsError)
    case Some(payload) =>
      if "scope" !in payload then Err(InternalError)
      else if payload["scope"] == Str(RefreshScope) then
        (if "sub" !in payload then Err(InternalError) else Ok(payload["sub"]))
      else Err(ScopeError)
  }

  /** `decode_refresh_token` as intended: the subject of a decodable refresh token; every
      failure is 401, and a token with no `scope` claim has the wrong scope. */
  function DecodeRefreshToken(s: Signer, t: Token, now: int): (r: Result<Claim>)
    ensures r.Ok? <==> && Decode(s, t, now).Some? && "scope" in t.payload && "sub" in t.payload
                       && t.payload["scope"] == Str(RefreshScope)
    ensures r.Ok? ==> r.value == t.payload["sub"]
    ensures Decode(s, t, now).None? ==> r == Err(CredentialsError)
    ensures r.Err? ==> r.error.status == 401
  {
    match Decode(s, t, now)
    case None => Err(CredentialsError)
    case Some(payload) =>
      if "scope" !in payload || payload["scope"] != Str(RefreshScope) then Err(ScopeError)
      else if "sub" !in payload then Err(CredentialsError)
      else Ok(payload["sub"])
  }

  /** The user a `sub` claim names: a string claim looked up as an email. */
  function UserForSubject(users: seq<UserRow>, sub: Claim): (r: Option<UserRow>)
    ensures r.Some? ==> sub.Str? && r.value in users && r.value.email == sub.s
    ensures sub.Str? && r.None? ==> GetUserByEmail(users, sub.s).None?
  {
    if sub.Str? then GetUserByEmail(users, sub.s) else None
  }

  /** `get_current_user` as the source has it: a missing `scope` or `sub` claim raises an
      uncaught KeyError instead of the credentials exception. */
  function GetCurrentUserAsWritten(s: Signer, t: Token, now: int, users: seq<UserRow>): (r: Result<UserRow>)
    ensures Decode(s, t, now).Some? && "scope" !in t.payload ==> r == Err(InternalError)
    ensures r.Ok? ==> r.value in users
  {
    match Decode(s, t, now)
    case None => Err(CredentialsError)
    case Some(payload) =>
      if "scope" !in payload then Err(InternalError)
      else if payload["scope"] != Str(AccessScope) then Err(CredentialsError)
      else if "sub" !in payload then Err(InternalError)
      else if payload["sub"] == Null then Err(CredentialsError)
      else match UserForSubject(users, payload["sub"])
        case None => Err(CredentialsError)
        case Some(u) => Ok(u)
  }

  /** `get_current_user` as intended: the user named by a decodable access token whose
      subject exists; every other case is the 401 credentials error. */
  function GetCurrentUser(s: Signer, t: Token, now: int, users: seq<UserRow>): (r: Result<UserRow>)
    ensures r.Ok? <==> && Decode(s, t, now).Some?
                       && "scope" in t.payload && t.payload["scope"] == Str(AccessScope)
                       && "sub" in t.payload && t.payload["sub"].Str?
                       && GetUserByEmail(users, t.payload["sub"].s).Some?
    ensures r.Ok? ==> r.value in users && t.Signed? && t.payload["sub"] == Str(r.value.email)
    ensures r.Err? ==> r.error == CredentialsError
  {
    match Decode(s, t, now)
    case None => Err(CredentialsError)
    case Some(payload) =>
      if "scope" !in payload || payload["scope"] != Str(AccessScope) then Err(CredentialsError)
      else if "sub" !in payload || payload["sub"] == Null then Err(CredentialsError)
      else match UserForSubject(users, payload["sub"])
        case None => Err(CredentialsError)
        case Some(u) => Ok(u)
  }

  /** The two versions of `get_current_user` differ only where a claim is missing. */
  lemma GetCurrentUserAgreesWhenClaimsPresent(s: Signer, t: Token, now: int, users: seq<UserRow>)
    requires t.Signed? && "scope" in t.payload && "sub" in t.payload
    ensures GetCurrentUserAsWritten(s, t, now, users) == GetCurrentUser(s, t, now, users)
  {
  }

  /** The two versions of `decode_refresh_token` differ only where a claim is missing. */
  lemma DecodeRefreshTokenAgreesWhenClaimsPresent(s: Signer, t: Token, now: int)
    requires t.Signed? && "scope" in t.payload && "sub" in t.payload
    ensures DecodeRefreshTokenAsWritten(s, t, now) == DecodeRefreshToken(s, t, now)
  {
  }

  /** A confirmation-link token, presented as a bearer token before it expires, makes the
      source's `get_current_user` fail with a server error instead of a 401. */
  lemma EmailTokenCrashesGetCurrentUser(s: Signer, email: string, issued: int, now: int, users: seq<UserRow>)
    requires issued <= now <= issued + EmailLifetime
    ensures GetCurrentUserAsWritten(s, CreateEmailToken(s, map["sub" := Str(email)], issued), now, users) == Err(InternalError)
    ensures GetCurrentUser(s, CreateEmailToken(s, map["sub" := Str(email)], issued), now, users) == Err(CredentialsError)
  {
    var t := CreateEmailToken(s, map["sub" := Str(email)], issued);
    assert "scope" !in t.payload;
    assert Decode(s, t, now).Some?;
  }

  /** The same token sent to the refresh endpoint makes the source's `decode_refresh_token`
      fail with a server error instead of 401 "Invalid scope for token". */
  lemma EmailTokenCrashesRefreshDecoder(s: Signer, email: string, issued: int, now: int)
    requires issued <= now <= issued + EmailLifetime
    ensures DecodeRefreshTokenAsWritten(s, CreateEmailToken(s, map["sub" := Str(email)], issued), now) == Err(InternalError)
    ensures DecodeRefreshToken(s, CreateEmailToken(s, map["sub" := Str(email)], issued), now) == Err(ScopeError)
  {
    var t := CreateEmailToken(s, map["sub" := Str(email)], issued);
    assert "scope" !in t.payload;
    assert Decode(s, t, now).Some?;
  }

  /** `get_email_from_token`: the `sub` claim of any decodable token, whatever its scope;
      a decode failure is 422 and a missing `sub` an uncaught KeyError. */
  function GetEmailFromToken(s: Signer, t: Token, now: int): (r: Result<Claim>)
    ensures r.Ok? <==> Decode(s, t, now).Some? && "sub" in t.payload
    ensures r.Ok? ==> r.value == t.payload["sub"]
    ensures Decode(s, t, now).None? ==> r == Err(EmailTokenError)
  {
    match Decode(s, t, now)
    case None => Err(EmailTokenError)
    case Some(payload) => if "sub" !in payload then Err(InternalError) else Ok(payload["sub"])
  }

  /** A fresh token decodes until its expiry and not after it. */
  lemma {:induction false} DecodeUntilExpiry(s: Signer, data: Payload, expiresDelta: Option<int>, issued: int, now: int)
    ensures var t := CreateAccessToken(s, data, expiresDelta, issued);
      Decode(s, t, now).Some? <==> now <= Expiry(issued, expiresDelta, AccessLifetime)
    ensures var t := CreateRefreshToken(s, data, expiresDelta, issued);
      Decode(s, t, now).Some? <==> now <= Expiry(issued, expiresDelta, RefreshLifetime)
  {
    var a := CreateAccessToken(s, data, expiresDelta, issued);
    var f := CreateRefreshToken(s, data, expiresDelta, issued);
    assert "exp" in a.payload && "exp" in f.payload;
  }

  /** Issuing and then decoding a refresh token gives back its subject while it is alive. */
  lemma RefreshTokenRoundTrip(s: Signer, data: Payload, expiresDelta: Option<int>, issued: int, now: int)
    requires "sub" in data
    requires now <= Expiry(issued, expiresDelta, RefreshLifetime)
    ensures DecodeRefreshToken(s, CreateRefreshToken(s, data, expiresDelta, issued), now) == Ok(data["sub"])
  {
    var t := CreateRefreshToken(s, data, expiresDelta, issued);
    assert "exp" in t.payload && "scope" in t.payload && "sub" in t.payload;
  }

  /** An access token is never accepted where a refresh token is required. */
  lemma AccessTokenRejectedByRefreshDecoder(s: Signer, data: Payload, expiresDelta: Option<int>, issued: int, now: int)
    ensures DecodeRefreshToken(s, CreateAccessToken(s, data, expiresDelta, issued), now).Err?
  {
    var t := CreateAccessToken(s, data, expiresDelta, issued);
    assert "scope" in t.payload;
  }

  /** A refresh token is never accepted as an access token. */
  lemma RefreshTokenRejectedByGetCurrentUser(s: Signer, data: Payload, expiresDelta: Option<int>, issued: int, now: int, users: seq<UserRow>)
    ensures GetCurrentUser(s, CreateRefreshToken(s, data, expiresDelta, issued), now, users) == Err(CredentialsError)
  {
    var t := CreateRefreshToken(s, data, expiresDelta, issued);
    assert "scope" in t.payload;
  }

  /** A live access token for a registered email authenticates exactly that user. */
  lemma AccessTokenAuthenticates(s: Signer, users: seq<UserRow>, nextId: int, i: nat, expiresDelta: Option<int>, issued: int, now: int)
    requires Store.UsersValid(users, nextId) && i < |users|
    requires now <= Expiry(issued, expiresDelta, AccessLifetime)
    ensures GetCurrentUser(s, CreateAccessToken(s, map["sub" := Str(users[i].email)], expiresDelta, issued), now, users) == Ok(users[i])
  {
    var t := CreateAccessToken(s, map["sub" := Str(users[i].email)], expiresDelta, issued);
    assert "exp" in t.payload && "scope" in t.payload && "sub" in t.payload;
    GetUserByEmailUnique(users, nextId, i);
  }

  /** A confirmation token gives back its subject for one day. */
  lemma EmailTokenRoundTrip(s: Signer, data: Payload, issued: int, now: int)
    requires "sub" in data && now <= issued + EmailLifetime
    ensures GetEmailFromToken(s, CreateEmailToken(s, data, issued), now) == Ok(data["sub"])
  {
    var t := CreateEmailToken(s, data, issued);
    assert "exp" in t.payload && "sub" in t.payload;
  }

  /** A token signed under another key or algorithm is refused by every decoder. */
  lemma ForeignTokenRejected(s: Signer, other: Signer, data: Payload, issued: int, now: int, users: seq<UserRow>)
    requires other != s
    ensures DecodeRefreshToken(s, CreateRefreshToken(other, data, None, issued), now) == Err(CredentialsError)
    ensures GetCurrentUser(s, CreateAccessToken(other, data, None, issued), now, users) == Err(CredentialsError)
    ensures GetEmailFromToken(s, CreateEmailToken(other, data, issued), now) == Err(EmailTokenError)
  {
  }
}
