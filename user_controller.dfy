/**
 * The account and session handlers of `user.controller.js`. Each handler
 * is a fixed sequence of guards followed by at most one write to the user
 * table; its result is the response it sends (`Ok`), the `ApiError` it
 * throws (`Err`), or an exception that escapes it (`Crash`).
 *
 * The handlers are modelled as the code is written. Where a line does not
 * do what it evidently means to do, a corrected variant stands beside the
 * as-written one (`AnyFieldBlank`, `RefreshAccessTokenFixed`,
 * `ChangePasswordFixed`).
 */
module UserController {
  import opened Wrappers
  import opened Strings
  import opened Crypto
  import opened Responses
  import opened UserModel
  import opened AuthMiddleware

  /** The pair returned by `generateAccessAndRefreshToken`. */
  datatype Tokens = Tokens(accessToken: Token, refreshToken: Token)

  /** The `data` of a successful login response. */
  datatype LoginData = LoginData(user: PublicUser, accessToken: Token, refreshToken: Token)

  /** `req.body` of a registration; an absent field is `None`. */
  datatype RegisterBody = RegisterBody(
    fullName: Option<string>, username: Option<string>, email: Option<string>, password: Option<string>)

  /**
   * What the multipart upload yields: the avatar's local path, and the URL of
   * each upload result (`None` when `uploadOnCloudinary` gave null, which it
   * does for a missing path and for a failed upload).
   */
  datatype Uploads = Uploads(avatarPath: Option<string>, avatarUpload: Option<string>, coverUpload: Option<string>)

  datatype LoginBody = LoginBody(email: Option<string>, username: Option<string>, password: Option<string>)

  datatype PasswordBody = PasswordBody(
    oldPassword: Option<string>, confirmOldPassword: Option<string>, newPassword: Option<string>)

  const TokenFailure := ApiError(500, "Error occured while generating access and refresh token")

  function OrEmpty(s: Option<string>): string {
    if s.Some? then s.value else ""
  }

  /** What `.select("-password")` returns for a stored document. */
  function View(id: UserId, r: UserRecord): AccountView {
    AccountView(Sanitize(id, r), r.refreshToken)
  }

  // ------------------------------------------------- token issue helper

  /**
   * `generateAccessAndRefreshToken(userId)`: load the user, sign both
   * tokens at time `now`, store the refresh token on the document and save
   * it (the password is untouched, so the save hook does not hash again).
   * Any failure, including a missing id, becomes a 500.
   */
  method GenerateAccessAndRefreshToken(db: UserTable, userId: Option<UserId>, now: NumericDate)
    returns (r: Result<Tokens, ApiError>)
    requires db.Valid()
    modifies db
    ensures db.Valid() && db.nextId == old(db.nextId)
    ensures r.Failure? <==> userId.None? || userId.value !in old(db.records)
    ensures r.Failure? ==> r.error == TokenFailure && db.records == old(db.records)
    ensures r.Success? ==>
      var id := userId.value;
      && r.value == Tokens(GenerateAccessToken(db.cfg, id, old(db.records)[id], now), GenerateRefreshToken(db.cfg, id, now))
      && db.records == old(db.records)[id := old(db.records)[id].(refreshToken := Some(r.value.refreshToken))]
  {
    if userId.None? || userId.value !in db.records {
      return Failure(TokenFailure);
    }
    var id := userId.value;
    var user := db.records[id];
    var accessToken := GenerateAccessToken(db.cfg, id, user, now);
    var refreshToken := GenerateRefreshToken(db.cfg, id, now);
    db.Save(id, user.(refreshToken := Some(refreshToken)));
    r := Success(Tokens(accessToken, refreshToken));
  }

  // ----------------------------------------------------------- register

  /**
   * The `.some` callback at lines 45-47 as written: its block body has no
   * `return`, so it yields `undefined` for every field.
   */
  function BlankCallbackAsWritten(field: Option<string>): Option<bool> {
    None
  }

  /** The emptiness check as written: `some` of a callback that is never truthy. */
  predicate AnyFieldBlankAsWritten(fields: seq<Option<string>>)
  {
    exists i :: 0 <= i < |fields| && BlankCallbackAsWritten(fields[i]) == Some(true)
  }

  /** The as-written check never fires, whatever the fields. */
  lemma AsWrittenNeverRejects(fields: seq<Option<string>>)
    ensures !AnyFieldBlankAsWritten(fields)
  {
  }

  /** The evidently intended check, `field?.trim() === ""`: a present field that trims to nothing. */
  predicate AnyFieldBlank(fields: seq<Option<string>>)
  {
    exists i :: 0 <= i < |fields| && fields[i].Some? && Trim(fields[i].value) == []
  }

  /** Every character of `s` is whitespace (the empty string included). */
  predicate AllSpace(s: string) {
    forall j :: 0 <= j < |s| ==> IsSpace(s[j])
  }

  /**
   * The intended check rejects exactly the field lists holding a present,
   * all-whitespace field (an absent field gives `undefined`, which is not `""`).
   */
  lemma AnyFieldBlankMeaning(fields: seq<Option<string>>)
    ensures AnyFieldBlank(fields) <==> exists i :: 0 <= i < |fields| && fields[i].Some? && AllSpace(fields[i].value)
  {
    if AnyFieldBlank(fields) {
      var i :| 0 <= i < |fields| && fields[i].Some? && Trim(fields[i].value) == [];
      TrimBlank(fields[i].value);
    }
    if exists i :: 0 <= i < |fields| && fields[i].Some? && AllSpace(fields[i].value) {
      var i :| 0 <= i < |fields| && fields[i].Some? && AllSpace(fields[i].value);
      TrimBlank(fields[i].value);
    }
  }

  /** A blank full name is the input that shows the difference: the check as written lets it through. */
  lemma BlankFullNameSlipsThrough(body: RegisterBody)
    requires body.fullName == Some("  ")
    ensures !AnyFieldBlankAsWritten([body.fullName, body.username, body.email, body.password])
    ensures AnyFieldBlank([body.fullName, body.username, body.email, body.password])
  {
    var fields := [body.fullName, body.username, body.email, body.password];
    TrimBlank("  ");
    assert fields[0].Some? && Trim(fields[0].value) == [];
  }

  /**
   * The document handed to `User.create` at lines 84-91. Once the setters
   * run, its username is the one the setters alone would make of the body's.
   */
  function RegisterFields(body: RegisterBody, files: Uploads): (doc: UserRecord)
    ensures ApplySetters(doc).username == Normalize(OrEmpty(body.username))
    ensures doc.refreshToken.None? && doc.watchHistory == []
    ensures !Truthy(files.coverUpload) ==> doc.coverImage == ""
  {
    NormalizeAfterLower(OrEmpty(body.username));
    UserRecord(
      username := ToLower(OrEmpty(body.username)),
      email := OrEmpty(body.email),
      password := OrEmpty(body.password),
      fullName := OrEmpty(body.fullName),
      avatar := OrEmpty(files.avatarUpload),
      coverImage := if Truthy(files.coverUpload) then files.coverUpload.value else "",
      refreshToken := None,
      watchHistory := [])
  }

  /**
   * When the `$or` lookup for the given username and email finds nothing,
   * the document created from them collides with no stored one: the
   * lower-casing before `create` does not change what the setters make of
   * the username.
   */
  lemma NoMatchNoClash(records: map<UserId, UserRecord>, bound: nat, body: RegisterBody, files: Uploads)
    requires forall j :: j in records ==> j < bound
    requires body.username.Some? && body.email.Some?
    requires FindOne(records, bound, ByIdentity(body.username, body.email)).None?
    ensures !ClashesWith(records, None, ApplySetters(RegisterFields(body, files)))
  {
    var doc := ApplySetters(RegisterFields(body, files));
    NormalizeAfterLower(body.username.value);
    forall j | j in records
      ensures !Collides(records[j], doc)
    {
      assert !Matches(records[j], ByIdentity(body.username, body.email));
    }
  }

  /**
   * `registerUser`. The checks run in the source's order: the emptiness
   * check (which never fires), the "@" test on the email, the `$or`
   * lookup, the avatar path, the avatar upload; then `create` and the
   * sanitized read-back. A missing email or username is dereferenced and
   * crashes; a document the `required` validators refuse crashes in
   * `create`. Nothing is stored on any path but the last.
   */
  method RegisterUser(db: UserTable, body: RegisterBody, files: Uploads) returns (r: Outcome<PublicUser>)
    requires db.Valid()
    modifies db
    ensures db.Valid()
    ensures !r.Ok? ==> db.records == old(db.records) && db.nextId == old(db.nextId)
    ensures body.email.None? ==> r.Crash?
    ensures body.email.Some? && '@' !in body.email.value ==>
      r == Err(ApiError(400, "Please enter your email address"))
    ensures (body.email.Some? && '@' in body.email.value &&
             FindOne(old(db.records), old(db.nextId), ByIdentity(body.username, body.email)).Some?) ==>
      r == Err(ApiError(409, "A User with username or email address already exists"))
    ensures (body.email.Some? && '@' in body.email.value &&
             FindOne(old(db.records), old(db.nextId), ByIdentity(body.username, body.email)).None?) ==>
      && (!Truthy(files.avatarPath) ==> r == Err(ApiError(400, "Upload your avatar")))
      && (Truthy(files.avatarPath) && files.avatarUpload.None? ==>
            r == Err(ApiError(400, "Try uploading your avatar again")))
      && (Truthy(files.avatarPath) && files.avatarUpload.Some? &&
          (body.username.None? || !PassesValidation(ApplySetters(RegisterFields(body, files)))) ==>
            r.Crash?)
    ensures r.Ok? <==>
      && body.email.Some? && '@' in body.email.value
      && FindOne(old(db.records), old(db.nextId), ByIdentity(body.username, body.email)).None?
      && Truthy(files.avatarPath) && files.avatarUpload.Some? && body.username.Some?
      && PassesValidation(ApplySetters(RegisterFields(body, files)))
    ensures r.Ok? ==>
      var id := old(db.nextId);
      var doc := ApplySetters(RegisterFields(body, files));
      && r == Ok(200, Sanitize(id, doc), "User registered successfully")
      && db.nextId == old(db.nextId) + 1
      && db.records == old(db.records)[id := PreSave(db.cfg.crypto, doc, true)]
      && r.data.username == Normalize(body.username.value)
      && (!Truthy(files.coverUpload) ==> r.data.coverImage == "")
  {
    if AnyFieldBlankAsWritten([body.fullName, body.username, body.email, body.password]) {
      return Err(ApiError(400, "All fields are required"));
    }
    if body.email.None? {
      return Crash("TypeError: cannot read properties of undefined (reading 'includes')");
    }
    if '@' !in body.email.value {
      return Err(ApiError(400, "Please enter your email address"));
    }
    var existing := FindOne(db.records, db.nextId, ByIdentity(body.username, body.email));
    if existing.Some? {
      return Err(ApiError(409, "A User with username or email address already exists"));
    }
    if !Truthy(files.avatarPath) {
      return Err(ApiError(400, "Upload your avatar"));
    }
    if files.avatarUpload.None? {
      return Err(ApiError(400, "Try uploading your avatar again"));
    }
    if body.username.None? {
      return Crash("TypeError: cannot read properties of undefined (reading 'toLowerCase')");
    }
    var fields := RegisterFields(body, files);
    NoMatchNoClash(db.records, db.nextId, body, files);
    NormalizeAfterLower(body.username.value);
    var created := db.Create(fields);
    if created.Failure? {
      return Crash(created.error);
    }
    r := Ok(200, Sanitize(created.value, db.records[created.value]), "User registered successfully");
  }

  // -------------------------------------------------------------- login

  /** The user `loginUser` looks up: the first one matching the username or the email. */
  function LoginMatch(records: map<UserId, UserRecord>, bound: nat, body: LoginBody): Option<UserId> {
    FindOne(records, bound, ByIdentity(body.username, body.email))
  }

  /**
   * `loginUser`: at least one of username and email, a matching user, a
   * password bcrypt accepts; then both tokens are issued at time `now` and
   * the refresh token is stored. A missing password makes bcrypt throw.
   */
  method LoginUser(db: UserTable, body: LoginBody, now: NumericDate) returns (r: Outcome<LoginData>)
    requires db.Valid()
    modifies db
    ensures db.Valid() && db.nextId == old(db.nextId)
    ensures !r.Ok? ==> db.records == old(db.records)
    ensures !Truthy(body.email) && !Truthy(body.username) ==>
      r == Err(ApiError(400, "username or email is required"))
    ensures (Truthy(body.email) || Truthy(body.username)) && LoginMatch(old(db.records), old(db.nextId), body).None? ==>
      r == Err(ApiError(404, "User does not exists"))
    ensures (Truthy(body.email) || Truthy(body.username)) && LoginMatch(old(db.records), old(db.nextId), body).Some? ==>
      var id := LoginMatch(old(db.records), old(db.nextId), body).value;
      && (body.password.None? ==> r.Crash?)
      && (body.password.Some? && !IsPasswordCorrect(db.cfg.crypto, old(db.records)[id], body.password.value) ==>
            r == Err(ApiError(401, "Invalid User credentials")))
    ensures r.Ok? <==>
      && (Truthy(body.email) || Truthy(body.username))
      && LoginMatch(old(db.records), old(db.nextId), body).Some?
      && body.password.Some?
      && IsPasswordCorrect(db.cfg.crypto, old(db.records)[LoginMatch(old(db.records), old(db.nextId), body).value],
                           body.password.value)
    ensures r.Ok? ==>
      var id := LoginMatch(old(db.records), old(db.nextId), body).value;
      var user := old(db.records)[id];
      var refreshToken := GenerateRefreshToken(db.cfg, id, now);
      && r == Ok(200, LoginData(Sanitize(id, user), GenerateAccessToken(db.cfg, id, user, now), refreshToken),
                 "User logged in successfully")
      && db.records == old(db.records)[id := user.(refreshToken := Some(refreshToken))]
  {
    if !Truthy(body.email) && !Truthy(body.username) {
      return Err(ApiError(400, "username or email is required"));
    }
    var found := LoginMatch(db.records, db.nextId, body);
    if found.None? {
      return Err(ApiError(404, "User does not exists"));
    }
    var id := found.value;
    if body.password.None? {
      return Crash("Error: data and hash arguments required");
    }
    if !IsPasswordCorrect(db.cfg.crypto, db.records[id], body.password.value) {
      return Err(ApiError(401, "Invalid User credentials"));
    }
    var tokens := GenerateAccessAndRefreshToken(db, Some(id), now);
    var loggedIn := Sanitize(id, db.records[id]);
    r := Ok(200, LoginData(loggedIn, tokens.value.accessToken, tokens.value.refreshToken), "User logged in successfully");
  }

  // ------------------------------------------------------------- logout

  /**
   * `logoutUser`: `$set` the acting user's refresh token to nothing. Only
   * that field of that user changes; a second logout changes nothing more.
   */
  method LogoutUser(db: UserTable, actor: UserId) returns (r: Outcome<()>)
    requires db.Valid()
    modifies db
    ensures db.Valid() && db.nextId == old(db.nextId)
    ensures r == Ok(201, (), "User loged out")
    ensures db.records == if actor in old(db.records)
                          then old(db.records)[actor := old(db.records)[actor].(refreshToken := None)]
                          else old(db.records)
  {
    if actor in db.records {
      SameIdentityNoClash(db.records, actor, ApplyUpdate(db.records[actor], UnsetRefreshToken));
    }
    var updated := db.FindByIdAndUpdate(actor, UnsetRefreshToken);
    r := Ok(201, (), "User loged out");
  }

  /** Clearing the refresh token twice is clearing it once. */
  lemma LogoutIdempotent(r: UserRecord)
    ensures ApplyUpdate(ApplyUpdate(r, UnsetRefreshToken), UnsetRefreshToken) == ApplyUpdate(r, UnsetRefreshToken)
    ensures ApplyUpdate(r, UnsetRefreshToken).(refreshToken := r.refreshToken) == r
  {
  }

  // ------------------------------------------------------------ refresh

  /** `req.cookies.refreshToken || req.body.refreshToken`: the cookie when truthy, else the body's value. */
  function RefreshSource(cookie: Option<string>, bodyToken: Option<string>): (t: Option<string>)
    ensures Truthy(t) <==> Truthy(cookie) || Truthy(bodyToken)
    ensures Truthy(cookie) ==> t == cookie
    ensures !Truthy(cookie) ==> t == bodyToken
  {
    if Truthy(cookie) then cookie else bodyToken
  }

  /**
   * The guards of `refreshAccessToken` up to line 213: a token must be
   * present, verify under the refresh secret, name a stored user, and be
   * that user's stored refresh token. Every refusal is a 401; the ones
   * raised inside the `try` are rethrown with their own message.
   */
  function RefreshGuards(cfg: Config, records: map<UserId, UserRecord>,
                         cookie: Option<string>, bodyToken: Option<string>): (r: Result<UserId, ApiError>)
    ensures r.Failure? ==> r.error.status == 401
    ensures !Truthy(RefreshSource(cookie, bodyToken)) ==> r == Failure(ApiError(401, "Unauthorized request"))
    ensures r.Success? <==>
      var t := RefreshSource(cookie, bodyToken);
      && Truthy(t)
      && cfg.crypto.verify(t.value, cfg.refreshSecret).Success?
      && cfg.crypto.verify(t.value, cfg.refreshSecret).value.id in records
      && records[cfg.crypto.verify(t.value, cfg.refreshSecret).value.id].refreshToken == t
    ensures r.Success? ==> r.value == cfg.crypto.verify(RefreshSource(cookie, bodyToken).value, cfg.refreshSecret).value.id
    ensures
      var t := RefreshSource(cookie, bodyToken);
      (Truthy(t) && cfg.crypto.verify(t.value, cfg.refreshSecret).Success? &&
       cfg.crypto.verify(t.value, cfg.refreshSecret).value.id in records &&
       records[cfg.crypto.verify(t.value, cfg.refreshSecret).value.id].refreshToken != t) ==>
      r == Failure(ApiError(401, "Refresh Token is expired or used"))
  {
    var t := RefreshSource(cookie, bodyToken);
    if !Truthy(t) then
      Failure(ApiError(401, "Unauthorized request"))
    else
      match cfg.crypto.verify(t.value, cfg.refreshSecret)
      case Failure(message) => Failure(Rethrow401(message, "Invalid refresh token"))
      case Success(claims) =>
        if claims.id !in records then Failure(ApiError(401, "Invalid refresh token"))
        else if records[claims.id].refreshToken != t then Failure(ApiError(401, "Refresh Token is expired or used"))
        else Success(claims.id)
  }

  /**
   * `refreshAccessToken` as written. Line 215 calls the generator without
   * an id, so once the guards pass the generator's 500 is caught and
   * rethrown as a 401: every request is refused and the table never changes.
   */
  method RefreshAccessToken(db: UserTable, cookie: Option<string>, bodyToken: Option<string>, now: NumericDate)
    returns (r: Outcome<Tokens>)
    requires db.Valid()
    modifies db
    ensures db.Valid() && db.records == old(db.records) && db.nextId == old(db.nextId)
    ensures r.Err? && r.error.status == 401
    ensures RefreshGuards(db.cfg, old(db.records), cookie, bodyToken).Failure? ==>
      r == Err(RefreshGuards(db.cfg, old(db.records), cookie, bodyToken).error)
    ensures RefreshGuards(db.cfg, old(db.records), cookie, bodyToken).Success? ==>
      r == Err(ApiError(401, TokenFailure.message))
  {
    var guard := RefreshGuards(db.cfg, db.records, cookie, bodyToken);
    if guard.Failure? {
      return Err(guard.error);
    }
    var tokens := GenerateAccessAndRefreshToken(db, None, now);
    r := Err(Rethrow401(tokens.error.message, "Invalid refresh token"));
  }

  /**
   * `refreshAccessToken` with the guarded user's id passed to the
   * generator: a fresh pair is issued at time `now` and the new refresh
   * token replaces the stored one. A presented token issued at another
   * time is then retired: presenting it again is refused.
   */
  method RefreshAccessTokenFixed(db: UserTable, cookie: Option<string>, bodyToken: Option<string>, now: NumericDate)
    returns (r: Outcome<Tokens>)
    requires db.Valid()
    modifies db
    ensures db.Valid() && db.nextId == old(db.nextId)
    ensures RefreshGuards(db.cfg, old(db.records), cookie, bodyToken).Failure? ==>
      && r == Err(RefreshGuards(db.cfg, old(db.records), cookie, bodyToken).error)
      && db.records == old(db.records)
    ensures RefreshGuards(db.cfg, old(db.records), cookie, bodyToken).Success? ==>
      var id := RefreshGuards(db.cfg, old(db.records), cookie, bodyToken).value;
      var user := old(db.records)[id];
      && r == Ok(200, Tokens(GenerateAccessToken(db.cfg, id, user, now), GenerateRefreshToken(db.cfg, id, now)),
                 "Access token refreshed successfully")
      && db.records == old(db.records)[id := user.(refreshToken := Some(GenerateRefreshToken(db.cfg, id, now)))]
    ensures (Sound(db.cfg.crypto) && RefreshGuards(db.cfg, old(db.records), cookie, bodyToken).Success? &&
             db.cfg.crypto.verify(RefreshSource(cookie, bodyToken).value, db.cfg.refreshSecret).value.iat != now) ==>
      RefreshGuards(db.cfg, db.records, cookie, bodyToken) == Failure(ApiError(401, "Refresh Token is expired or used"))
  {
    var guard := RefreshGuards(db.cfg, db.records, cookie, bodyToken);
    if guard.Failure? {
      return Err(guard.error);
    }
    var t := RefreshSource(cookie, bodyToken).value;
    if Sound(db.cfg.crypto) && db.cfg.crypto.verify(t, db.cfg.refreshSecret).value.iat != now {
      RotationRetiresPresentedToken(db.cfg, db.records, cookie, bodyToken, now);
    }
    var tokens := GenerateAccessAndRefreshToken(db, Some(guard.value), now);
    r := Ok(200, tokens.value, "Access token refreshed successfully");
  }

  /**
   * Rotation retires the presented token: once the stored refresh token is
   * replaced by one issued at `now`, a presented token issued at another
   * time no longer matches it and is refused as expired or used.
   */
  lemma RotationRetiresPresentedToken(cfg: Config, records: map<UserId, UserRecord>,
                                      cookie: Option<string>, bodyToken: Option<string>, now: NumericDate)
    requires Sound(cfg.crypto) && RefreshGuards(cfg, records, cookie, bodyToken).Success?
    requires cfg.crypto.verify(RefreshSource(cookie, bodyToken).value, cfg.refreshSecret).value.iat != now
    ensures var id := RefreshGuards(cfg, records, cookie, bodyToken).value;
      RefreshGuards(cfg, records[id := records[id].(refreshToken := Some(GenerateRefreshToken(cfg, id, now)))],
                    cookie, bodyToken)
      == Failure(ApiError(401, "Refresh Token is expired or used"))
  {
    var id := RefreshGuards(cfg, records, cookie, bodyToken).value;
    var t := RefreshSource(cookie, bodyToken).value;
    RefreshTokenClaims(cfg, id, now);
    assert t != GenerateRefreshToken(cfg, id, now);
  }

  /** The refresh token a user holds in the store passes the guards, from the cookie or from the body. */
  lemma StoredRefreshTokenAccepted(cfg: Config, records: map<UserId, UserRecord>, id: UserId, iat: NumericDate,
                                   bodyToken: Option<string>)
    requires Sound(cfg.crypto)
    requires id in records && records[id].refreshToken == Some(GenerateRefreshToken(cfg, id, iat))
    ensures RefreshGuards(cfg, records, Some(GenerateRefreshToken(cfg, id, iat)), bodyToken) == Success(id)
    ensures RefreshGuards(cfg, records, None, Some(GenerateRefreshToken(cfg, id, iat))) == Success(id)
  {
    RefreshTokenClaims(cfg, id, iat);
  }

  /** After logout a user's refresh token is refused as expired or used. */
  lemma LogoutRevokesRefresh(cfg: Config, records: map<UserId, UserRecord>, id: UserId, iat: NumericDate, token: string)
    requires Sound(cfg.crypto) && id in records && token == GenerateRefreshToken(cfg, id, iat)
    ensures RefreshGuards(cfg, records[id := records[id].(refreshToken := None)], Some(token), None)
            == Failure(ApiError(401, "Refresh Token is expired or used"))
  {
    RefreshTokenClaims(cfg, id, iat);
  }

  /** An access token is refused by the refresh guards when the two secrets differ. */
  lemma AccessTokenNotRefreshToken(cfg: Config, records: map<UserId, UserRecord>, id: UserId, now: NumericDate)
    requires Sound(cfg.crypto) && cfg.accessSecret != cfg.refreshSecret && id in records
    ensures RefreshGuards(cfg, records, Some(GenerateAccessToken(cfg, id, records[id], now)), None).Failure?
  {
    AccessTokenClaims(cfg, id, records[id], now);
  }

  // ---------------------------------------------------- change password

  /**
   * `changePassword` as written. The confirmation must equal the old
   * password; the acting user is then loaded (a missing one is
   * dereferenced and crashes). The promise returned by `isPasswordCorrect`
   * is not awaited, is always truthy, and so never rejects: any old
   * password is accepted. The trimmed new password is assigned and saved;
   * the save hook hashes it when it differs from the stored hash, and a
   * missing one makes bcrypt throw.
   */
  method ChangePassword(db: UserTable, actor: Option<UserId>, body: PasswordBody) returns (r: Outcome<()>)
    requires db.Valid()
    modifies db
    ensures db.Valid() && db.nextId == old(db.nextId)
    ensures !r.Ok? ==> db.records == old(db.records)
    ensures body.oldPassword != body.confirmOldPassword ==>
      r == Err(ApiError(401, "Password and confirm password does not match"))
    ensures body.oldPassword == body.confirmOldPassword ==> !r.Err?
    ensures r.Ok? <==>
      body.oldPassword == body.confirmOldPassword && actor.Some? && actor.value in old(db.records) && body.newPassword.Some?
    ensures r.Ok? ==>
      var id := actor.value;
      var doc := old(db.records)[id].(password := Trim(body.newPassword.value));
      && r == Ok(200, (), "Password changed successfully")
      && db.records == old(db.records)[id := PreSave(db.cfg.crypto, doc, doc.password != old(db.records)[id].password)]
  {
    if body.oldPassword != body.confirmOldPassword {
      return Err(ApiError(401, "Password and confirm password does not match"));
    }
    if actor.None? || actor.value !in db.records {
      return Crash("TypeError: cannot read properties of null (reading 'isPasswordCorrect')");
    }
    var id := actor.value;
    if body.newPassword.None? {
      return Crash("Error: data and salt arguments required");
    }
    db.Save(id, db.records[id].(password := Trim(body.newPassword.value)));
    r := Ok(200, (), "Password changed successfully");
  }

  /**
   * `changePassword` with `isPasswordCorrect` awaited: a wrong old password
   * is refused with 401 "Invalid old password" and nothing is written. With
   * a sound bcrypt, a change succeeds only for the user's actual password.
   */
  method ChangePasswordFixed(db: UserTable, actor: Option<UserId>, body: PasswordBody) returns (r: Outcome<()>)
    requires db.Valid()
    modifies db
    ensures db.Valid() && db.nextId == old(db.nextId)
    ensures !r.Ok? ==> db.records == old(db.records)
    ensures body.oldPassword != body.confirmOldPassword ==>
      r == Err(ApiError(401, "Password and confirm password does not match"))
    ensures (body.oldPassword == body.confirmOldPassword && actor.Some? && actor.value in old(db.records) &&
             body.oldPassword.Some? &&
             !IsPasswordCorrect(db.cfg.crypto, old(db.records)[actor.value], body.oldPassword.value)) ==>
      r == Err(ApiError(401, "Invalid old password"))
    ensures r.Ok? <==>
      && body.oldPassword == body.confirmOldPassword && actor.Some? && actor.value in old(db.records)
      && body.oldPassword.Some?
      && IsPasswordCorrect(db.cfg.crypto, old(db.records)[actor.value], body.oldPassword.value)
      && body.newPassword.Some?
    ensures r.Ok? && Sound(db.cfg.crypto) ==> body.oldPassword == Some(old(db.passwords)[actor.value])
    ensures r.Ok? ==>
      var id := actor.value;
      var doc := old(db.records)[id].(password := Trim(body.newPassword.value));
      && r == Ok(200, (), "Password changed successfully")
      && db.records == old(db.records)[id := PreSave(db.cfg.crypto, doc, doc.password != old(db.records)[id].password)]
  {
    if body.oldPassword != body.confirmOldPassword {
      return Err(ApiError(401, "Password and confirm password does not match"));
    }
    if actor.None? || actor.value !in db.records {
      return Crash("TypeError: cannot read properties of null (reading 'isPasswordCorrect')");
    }
    var id := actor.value;
    if body.oldPassword.None? {
      return Crash("Error: data and hash arguments required");
    }
    if !IsPasswordCorrect(db.cfg.crypto, db.records[id], body.oldPassword.value) {
      return Err(ApiError(401, "Invalid old password"));
    }
    if Sound(db.cfg.crypto) {
      PasswordCheckExact(db.cfg.crypto, db.records[id], db.passwords[id], body.oldPassword.value);
    }
    if body.newPassword.None? {
      return Crash("Error: data and salt arguments required");
    }
    db.Save(id, db.records[id].(password := Trim(body.newPassword.value)));
    r := Ok(200, (), "Password changed successfully");
  }

  /** With a sound bcrypt, a changed password is then accepted for exactly the new value. */
  lemma NewPasswordAccepted(c: Crypto, stored: UserRecord, newPassword: string, candidate: string)
    requires Sound(c)
    ensures IsPasswordCorrect(c, PreSave(c, stored.(password := newPassword), true), candidate) <==> candidate == newPassword
  {
    PasswordCheckExact(c, PreSave(c, stored.(password := newPassword), true), newPassword, candidate);
  }

  // ---------------------------------------------------- account details

  /** The update document of lines 276-279: only the truthy fields are set. */
  function DetailsUpdate(fullName: Option<string>, email: Option<string>): Update {
    SetDetails(if Truthy(fullName) then fullName else None, if Truthy(email) then email else None)
  }

  /**
   * Only the supplied fields change: a truthy fullName replaces the stored
   * one (trimmed), a truthy email replaces the stored one (normalized), and
   * every other field is kept.
   */
  lemma DetailsUpdateOnlySupplied(r: UserRecord, fullName: Option<string>, email: Option<string>)
    ensures var u := ApplyUpdate(r, DetailsUpdate(fullName, email));
      && u.(fullName := r.fullName, email := r.email) == r
      && u.fullName == (if Truthy(fullName) then Trim(fullName.value) else r.fullName)
      && u.email == (if Truthy(email) then Normalize(email.value) else r.email)
  {
  }

  /**
   * `updateAccountDetails`: at least one of fullName and email must be
   * truthy; then `req.user._id` is read (with no user attached this
   * throws), `findByIdAndUpdate` applies the update and the updated
   * document without its password is returned (null when the user is
   * gone). An email another user holds breaks the unique index and crashes.
   */
  method UpdateAccountDetails(db: UserTable, actor: Option<UserId>, fullName: Option<string>, email: Option<string>)
    returns (r: Outcome<Option<AccountView>>)
    requires db.Valid()
    modifies db
    ensures db.Valid() && db.nextId == old(db.nextId)
    ensures !r.Ok? ==> db.records == old(db.records)
    ensures !Truthy(fullName) && !Truthy(email) ==>
      r == Err(ApiError(400, "Please provide the required details that you want to change"))
    ensures (Truthy(fullName) || Truthy(email)) && actor.None? ==> r.Crash?
    ensures (Truthy(fullName) || Truthy(email)) && actor.Some? && actor.value !in old(db.records) ==>
      r == Ok(200, None, "Account details updated") && db.records == old(db.records)
    ensures (Truthy(fullName) || Truthy(email)) && actor.Some? && actor.value in old(db.records) ==>
      var id := actor.value;
      var updated := ApplyUpdate(old(db.records)[id], DetailsUpdate(fullName, email));
      if ClashesWith(old(db.records), Some(id), updated) then r.Crash?
      else
        && r == Ok(200, Some(View(id, updated)), "Account details updated")
        && db.records == old(db.records)[id := updated]
  {
    if !Truthy(fullName) && !Truthy(email) {
      return Err(ApiError(400, "Please provide the required details that you want to change"));
    }
    if actor.None? {
      return Crash("TypeError: cannot read properties of undefined (reading '_id')");
    }
    var result := db.FindByIdAndUpdate(actor.value, DetailsUpdate(fullName, email));
    if result.Failure? {
      return Crash(result.error);
    }
    var user := if result.value.Some? then Some(View(actor.value, result.value.value)) else None;
    r := Ok(200, user, "Account details updated");
  }

  // ---------------------------------------------------- a whole session

  /**
   * A login followed by a request through the gate, a refresh check, a
   * logout and a second refresh check. With a sound bcrypt and JWT library
   * the fresh access token admits the user it was issued to, the stored
   * refresh token passes the refresh guards, and after logout the same
   * refresh token is refused as expired or used.
   */
  method Session(db: UserTable, body: LoginBody, now: NumericDate)
    returns (login: Outcome<LoginData>, gate: Option<Result<PublicUser, ApiError>>,
             beforeLogout: Option<Result<UserId, ApiError>>, afterLogout: Option<Result<UserId, ApiError>>)
    requires db.Valid() && Sound(db.cfg.crypto)
    modifies db
    ensures db.Valid()
    ensures !login.Ok? <==> gate.None? && beforeLogout.None? && afterLogout.None?
    ensures login.Ok? ==>
      && gate == Some(Success(login.data.user))
      && beforeLogout == Some(Success(login.data.user.id))
      && afterLogout == Some(Failure(ApiError(401, "Refresh Token is expired or used")))
  {
    login := LoginUser(db, body, now);
    if !login.Ok? {
      return login, None, None, None;
    }
    var id := login.data.user.id;
    AccessTokenAdmitted(db.cfg, db.records, id, now, None);
    gate := Some(VerifyJwt(db.cfg, db.records, Some(login.data.accessToken), None));
    StoredRefreshTokenAccepted(db.cfg, db.records, id, now, None);
    beforeLogout := Some(RefreshGuards(db.cfg, db.records, Some(login.data.refreshToken), None));
    LogoutRevokesRefresh(db.cfg, db.records, id, now, login.data.refreshToken);
    var out := LogoutUser(db, id);
    afterLogout := Some(RefreshGuards(db.cfg, db.records, Some(login.data.refreshToken), None));
  }
}
