/**
 * The `User` model: the stored document, the schema's setters and
 * validators, the pre("save") hook, `isPasswordCorrect`, the two token
 * builders, and the collection itself as a table of documents keyed by id.
 */
module UserModel {
  import opened Wrappers
  import opened Strings
  import opened Crypto

  type VideoId = nat

  /** One stored user document; once saved, `password` holds the bcrypt hash. */
  datatype UserRecord = UserRecord(
    username: string,
    email: string,
    password: string,
    fullName: string,
    avatar: string,
    coverImage: string,
    refreshToken: Option<Token>,
    watchHistory: seq<VideoId>)

  /** What `.select("-password -refreshToken")` leaves of a document. */
  datatype PublicUser = PublicUser(
    id: UserId,
    username: string,
    email: string,
    fullName: string,
    avatar: string,
    coverImage: string,
    watchHistory: seq<VideoId>)

  /** What `.select("-password")` leaves: the public fields and the refresh token. */
  datatype AccountView = AccountView(user: PublicUser, refreshToken: Option<Token>)

  function Sanitize(id: UserId, r: UserRecord): PublicUser {
    PublicUser(id, r.username, r.email, r.fullName, r.avatar, r.coverImage, r.watchHistory)
  }

  // ---------------------------------------------------------------- schema

  /** The setters: `lowercase` and `trim` on username and email, `trim` on password and fullName. */
  function ApplySetters(r: UserRecord): (s: UserRecord)
    ensures IsNormal(s.username) && IsNormal(s.email) && IsTrimmed(s.password) && IsTrimmed(s.fullName)
    ensures s.(username := r.username, email := r.email, password := r.password, fullName := r.fullName) == r
    ensures s.username == Normalize(r.username) && s.email == Normalize(r.email)
    ensures s.password == Trim(r.password) && s.fullName == Trim(r.fullName)
  {
    r.(username := Normalize(r.username), email := Normalize(r.email),
       password := Trim(r.password), fullName := Trim(r.fullName))
  }

  /** The shape every stored document keeps: username and email lower-case and trimmed, fullName trimmed. */
  predicate WellFormed(r: UserRecord) {
    IsNormal(r.username) && IsNormal(r.email) && IsTrimmed(r.fullName)
  }

  /** The setters always produce a well-formed document and leave a well-formed one's identity fields alone. */
  lemma SettersWellFormed(r: UserRecord)
    ensures WellFormed(ApplySetters(r))
    ensures WellFormed(r) ==> ApplySetters(r).(password := r.password) == r
  {
  }

  /** The `required` validators: a String path is present when it is a non-empty string. */
  predicate PassesValidation(r: UserRecord) {
    r.username != [] && r.email != [] && r.password != [] && r.fullName != [] && r.avatar != []
  }

  /** Two documents that share a username or an email violate a `unique` index. */
  predicate Collides(a: UserRecord, b: UserRecord) {
    a.username == b.username || a.email == b.email
  }

  predicate Unique(records: map<UserId, UserRecord>) {
    forall i, j :: i in records && j in records && i != j ==> !Collides(records[i], records[j])
  }

  /** Some document other than `self` would collide with `doc`. */
  predicate ClashesWith(records: map<UserId, UserRecord>, self: Option<UserId>, doc: UserRecord) {
    exists j :: j in records && Some(j) != self && Collides(records[j], doc)
  }

  /** A document that collides with no stored one keeps the indexes unique once inserted. */
  lemma UniqueAfterInsert(records: map<UserId, UserRecord>, id: UserId, doc: UserRecord)
    requires Unique(records) && id !in records && !ClashesWith(records, None, doc)
    ensures Unique(records[id := doc])
  {
    var m := records[id := doc];
    forall i, j | i in m && j in m && i != j
      ensures !Collides(m[i], m[j])
    {
      if i == id {
        assert !Collides(records[j], doc);
      } else if j == id {
        assert !Collides(records[i], doc);
      }
    }
  }

  /** Replacing one document by one that collides with no other keeps the indexes unique. */
  lemma UniqueAfterReplace(records: map<UserId, UserRecord>, id: UserId, doc: UserRecord)
    requires Unique(records) && id in records && !ClashesWith(records, Some(id), doc)
    ensures Unique(records[id := doc])
  {
    var m := records[id := doc];
    forall i, j | i in m && j in m && i != j
      ensures !Collides(m[i], m[j])
    {
      if i == id {
        assert Some(j) != Some(id) && !Collides(records[j], doc);
      } else if j == id {
        assert Some(i) != Some(id) && !Collides(records[i], doc);
      }
    }
  }

  /** A document with a stored document's username and email collides with no other stored document. */
  lemma SameIdentityNoClash(records: map<UserId, UserRecord>, id: UserId, doc: UserRecord)
    requires Unique(records) && id in records
    requires doc.username == records[id].username && doc.email == records[id].email
    ensures !ClashesWith(records, Some(id), doc)
  {
    forall j | j in records && Some(j) != Some(id)
      ensures !Collides(records[j], doc)
    {
      assert !Collides(records[j], records[id]);
    }
  }

  // ---------------------------------------------------------- save hook

  /**
   * The pre("save") hook: when `password` was modified, the hash replaces
   * it; otherwise the document is saved as it is.
   */
  function PreSave(c: Crypto, doc: UserRecord, passwordModified: bool): (saved: UserRecord)
    ensures saved.(password := doc.password) == doc
    ensures !passwordModified ==> saved == doc
    ensures Sound(c) && passwordModified ==> saved.password != doc.password && c.compare(doc.password, saved.password)
  {
    if passwordModified then doc.(password := c.hash(doc.password)) else doc
  }

  /** A modified password is stored as its hash, which verifies against it and is never the plaintext. */
  lemma PreSaveStoresHash(c: Crypto, doc: UserRecord)
    requires Sound(c)
    ensures var saved := PreSave(c, doc, true);
      && saved.password == c.hash(doc.password)
      && saved.password != doc.password
      && c.compare(doc.password, saved.password)
      && saved.(password := doc.password) == doc
  {
  }

  /** An unmodified password is not hashed a second time: the document is saved unchanged. */
  lemma PreSaveKeepsHash(c: Crypto, doc: UserRecord)
    ensures PreSave(c, doc, false) == doc
  {
  }

  // ---------------------------------------------------- instance methods

  /** `isPasswordCorrect(password)`: bcrypt's comparison of the candidate with the stored hash. */
  function IsPasswordCorrect(c: Crypto, r: UserRecord, candidate: string): (ok: bool)
    ensures Sound(c) && r.password == c.hash(candidate) ==> ok
  {
    c.compare(candidate, r.password)
  }

  /** Against a stored hash of `p`, exactly `p` is accepted. */
  lemma PasswordCheckExact(c: Crypto, r: UserRecord, p: string, candidate: string)
    requires Sound(c) && r.password == c.hash(p)
    ensures IsPasswordCorrect(c, r, candidate) <==> candidate == p
  {
  }

  /** `generateAccessToken()` at time `now`: `_id`, email, username and fullName, signed with the access secret. */
  function GenerateAccessToken(cfg: Config, id: UserId, r: UserRecord, now: NumericDate): (t: Token)
    ensures Sound(cfg.crypto) ==>
      cfg.crypto.verify(t, cfg.accessSecret) == Success(AccessClaims(id, r.email, r.username, r.fullName, now))
  {
    cfg.crypto.sign(AccessClaims(id, r.email, r.username, r.fullName, now), cfg.accessSecret)
  }

  /** `generateRefreshToken()` at time `now`: only `_id`, signed with the refresh secret. */
  function GenerateRefreshToken(cfg: Config, id: UserId, now: NumericDate): (t: Token)
    ensures Sound(cfg.crypto) ==> cfg.crypto.verify(t, cfg.refreshSecret) == Success(RefreshClaims(id, now))
  {
    cfg.crypto.sign(RefreshClaims(id, now), cfg.refreshSecret)
  }

  /** The access token verifies under the access secret to exactly its four claims, and not under a different refresh secret. */
  lemma AccessTokenClaims(cfg: Config, id: UserId, r: UserRecord, now: NumericDate)
    requires Sound(cfg.crypto)
    ensures cfg.crypto.verify(GenerateAccessToken(cfg, id, r, now), cfg.accessSecret)
            == Success(AccessClaims(id, r.email, r.username, r.fullName, now))
    ensures cfg.accessSecret != cfg.refreshSecret ==>
            cfg.crypto.verify(GenerateAccessToken(cfg, id, r, now), cfg.refreshSecret).Failure?
  {
  }

  /** The refresh token verifies under the refresh secret to `_id` alone, and not under a different access secret. */
  lemma RefreshTokenClaims(cfg: Config, id: UserId, now: NumericDate)
    requires Sound(cfg.crypto)
    ensures cfg.crypto.verify(GenerateRefreshToken(cfg, id, now), cfg.refreshSecret) == Success(RefreshClaims(id, now))
    ensures cfg.accessSecret != cfg.refreshSecret ==>
            cfg.crypto.verify(GenerateRefreshToken(cfg, id, now), cfg.accessSecret).Failure?
  {
  }

  /** Refresh tokens signed at different times are different tokens. */
  lemma {:induction false} RefreshTokensDiffer(cfg: Config, id: UserId, t1: NumericDate, t2: NumericDate)
    requires Sound(cfg.crypto) && t1 != t2
    ensures GenerateRefreshToken(cfg, id, t1) != GenerateRefreshToken(cfg, id, t2)
  {
    RefreshTokenClaims(cfg, id, t1);
    RefreshTokenClaims(cfg, id, t2);
  }

  // --------------------------------------------------------------- queries

  /**
   * A `findOne` filter. `ByIdentity` is `{ $or: [{ username }, { email }] }`
   * after query casting has run the schema setters on the given values; a
   * missing value matches nothing. `ByStoredUsername` is an aggregation
   * `$match`, which compares the value as given.
   */
  datatype Filter =
    | ByIdentity(username: Option<string>, email: Option<string>)
    | ByStoredUsername(name: string)

  predicate Matches(r: UserRecord, f: Filter) {
    match f
    case ByIdentity(u, e) =>
      (u.Some? && r.username == Normalize(u.value)) || (e.Some? && r.email == Normalize(e.value))
    case ByStoredUsername(n) => r.username == n
  }

  /** The first document with id in [from, bound) that matches, in id order. */
  function FindFrom(records: map<UserId, UserRecord>, from: nat, bound: nat, f: Filter): (r: Option<UserId>)
    ensures r.Some? ==> from <= r.value < bound && r.value in records && Matches(records[r.value], f)
    ensures r.Some? ==> forall j: nat :: from <= j < r.value && j in records ==> !Matches(records[j], f)
    ensures r.None? ==> forall j: nat :: from <= j < bound && j in records ==> !Matches(records[j], f)
    decreases bound - from
  {
    if from >= bound then None
    else if from in records && Matches(records[from], f) then Some(from)
    else FindFrom(records, from + 1, bound, f)
  }

  /** `findOne(filter)` over documents with ids below `bound`: the first match in natural (insertion) order. */
  function FindOne(records: map<UserId, UserRecord>, bound: nat, f: Filter): (r: Option<UserId>)
    ensures r.Some? ==> r.value < bound && r.value in records && Matches(records[r.value], f)
    ensures r.Some? ==> forall j: nat :: j < r.value && j in records ==> !Matches(records[j], f)
    ensures r.None? <==> forall j: nat :: j < bound && j in records ==> !Matches(records[j], f)
  {
    FindFrom(records, 0, bound, f)
  }

  // ----------------------------------------------------------------- table

  /** The update documents `findByIdAndUpdate` is given by the core. */
  datatype Update =
    | UnsetRefreshToken
    | SetDetails(fullName: Option<string>, email: Option<string>)

  /** An update applied to a document, with the setters run on the new values. */
  function ApplyUpdate(r: UserRecord, u: Update): (updated: UserRecord)
    ensures u.UnsetRefreshToken? ==> updated.refreshToken.None? && updated.(refreshToken := r.refreshToken) == r
    ensures u.SetDetails? ==> updated.(fullName := r.fullName, email := r.email) == r
    ensures u.SetDetails? && u.fullName.None? ==> updated.fullName == r.fullName
    ensures u.SetDetails? && u.email.None? ==> updated.email == r.email
    ensures u.SetDetails? && u.fullName.Some? ==> IsTrimmed(updated.fullName)
    ensures u.SetDetails? && u.email.Some? ==> IsNormal(updated.email)
  {
    match u
    case UnsetRefreshToken => r.(refreshToken := None)
    case SetDetails(f, e) =>
      r.(fullName := if f.Some? then Trim(f.value) else r.fullName,
         email := if e.Some? then Normalize(e.value) else r.email)
  }

  /** An update keeps a well-formed document well formed, since the setters run on the new values. */
  lemma UpdateWellFormed(r: UserRecord, u: Update)
    requires WellFormed(r)
    ensures WellFormed(ApplyUpdate(r, u))
  {
  }

  /**
   * The collection's invariant: ids are below
   * `nextId`, every document keeps the setters' shape, every stored
   * password is the hash of a plaintext, and username and email are unique.
   */
  ghost predicate TableInvariant(cfg: Config, records: map<UserId, UserRecord>, passwords: map<UserId, string>, nextId: UserId) {
    && passwords.Keys == records.Keys
    && (forall id :: id in records ==> id < nextId)
    && (forall id :: id in records ==> WellFormed(records[id]))
    && (forall id :: id in records ==> records[id].password == cfg.crypto.hash(passwords[id]))
    && Unique(records)
  }

  /** Inserting a well-formed, hashed, non-colliding document under a fresh id keeps the invariant. */
  lemma InsertKeepsInvariant(cfg: Config, records: map<UserId, UserRecord>, passwords: map<UserId, string>,
                             nextId: UserId, doc: UserRecord, plain: string)
    requires TableInvariant(cfg, records, passwords, nextId)
    requires WellFormed(doc) && doc.password == cfg.crypto.hash(plain) && !ClashesWith(records, None, doc)
    ensures nextId !in records
    ensures TableInvariant(cfg, records[nextId := doc], passwords[nextId := plain], nextId + 1)
  {
    UniqueAfterInsert(records, nextId, doc);
  }

  /** Replacing a document by a well-formed one with a hashed password that collides with no other document keeps the invariant. */
  lemma ReplaceKeepsInvariant(cfg: Config, records: map<UserId, UserRecord>, passwords: map<UserId, string>,
                              nextId: UserId, id: UserId, doc: UserRecord, plain: string)
    requires TableInvariant(cfg, records, passwords, nextId) && id in records
    requires WellFormed(doc) && doc.password == cfg.crypto.hash(plain) && !ClashesWith(records, Some(id), doc)
    ensures TableInvariant(cfg, records[id := doc], passwords[id := plain], nextId)
  {
    UniqueAfterReplace(records, id, doc);
  }

  /**
   * The users collection. `passwords` records, for the proof only, the
   * plaintext each stored hash was computed from.
   */
  class UserTable {
    var records: map<UserId, UserRecord>
    var nextId: UserId
    ghost var passwords: map<UserId, string>
    const cfg: Config

    /** The collection's invariant, see `TableInvariant`. */
    ghost predicate Valid()
      reads this
    {
      TableInvariant(cfg, records, passwords, nextId)
    }

    constructor (cfg: Config)
      ensures Valid() && this.cfg == cfg
      ensures records == map[] && nextId == 0
    {
      this.cfg := cfg;
      records := map[];
      passwords := map[];
      nextId := 0;
    }

    /**
     * `User.create(fields)`: the setters run, the `required` validators
     * check the result, the `unique` indexes refuse a collision, and the
     * pre("save") hook hashes the (new, hence modified) password.
     */
    method Create(fields: UserRecord) returns (r: Result<UserId, string>)
      requires Valid()
      modifies this
      ensures Valid()
      ensures var doc := ApplySetters(fields);
        r.Success? <==> PassesValidation(doc) && !ClashesWith(old(records), None, doc)
      ensures r.Success? ==>
        && r.value == old(nextId) && r.value !in old(records) && nextId == old(nextId) + 1
        && records == old(records)[r.value := PreSave(cfg.crypto, ApplySetters(fields), true)]
      ensures r.Failure? ==> records == old(records) && nextId == old(nextId)
    {
      var doc := ApplySetters(fields);
      if !PassesValidation(doc) {
        return Failure("ValidationError: a required path is missing");
      }
      var clash := exists j :: j in records && Collides(records[j], doc);
      assert clash == ClashesWith(records, None, doc);
      if clash {
        return Failure("MongoServerError: E11000 duplicate key error");
      }
      SettersWellFormed(fields);
      var id := Insert(doc);
      r := Success(id);
    }

    /** Stores a new document under the next id, hashing its password (the pre("save") hook on a new document). */
    method Insert(doc: UserRecord) returns (id: UserId)
      requires Valid() && WellFormed(doc) && !ClashesWith(records, None, doc)
      modifies this
      ensures Valid()
      ensures id == old(nextId) && id !in old(records) && nextId == old(nextId) + 1
      ensures records == old(records)[id := PreSave(cfg.crypto, doc, true)]
    {
      id := nextId;
      var saved := PreSave(cfg.crypto, doc, true);
      InsertKeepsInvariant(cfg, records, passwords, nextId, saved, doc.password);
      records := records[id := saved];
      passwords := passwords[id := doc.password];
      nextId := nextId + 1;
    }

    /**
     * `user.save({ validateBeforeSave: false })` for a document loaded from
     * this table whose identity fields were left alone. The pre("save") hook
     * hashes `password` exactly when it differs from the stored value
     * (Mongoose's `isModified("password")`).
     */
    method Save(id: UserId, doc: UserRecord)
      requires Valid() && id in records
      requires doc.username == records[id].username && doc.email == records[id].email
      requires doc.fullName == records[id].fullName
      modifies this
      ensures Valid() && nextId == old(nextId)
      ensures records == old(records)[id := PreSave(cfg.crypto, doc, doc.password != old(records)[id].password)]
    {
      var modified := doc.password != records[id].password;
      var saved := PreSave(cfg.crypto, doc, modified);
      SameIdentityNoClash(records, id, saved);
      if modified {
        Replace(id, saved, doc.password);
      } else {
        Replace(id, saved, passwords[id]);
      }
    }

    /**
     * `findByIdAndUpdate(id, update, { new: true })`: no document gives
     * null; an update that would break a `unique` index fails; otherwise the
     * updated document is stored and returned. The save hook does not run.
     */
    method FindByIdAndUpdate(id: UserId, u: Update) returns (r: Result<Option<UserRecord>, string>)
      requires Valid()
      modifies this
      ensures Valid() && nextId == old(nextId)
      ensures id !in old(records) ==> r == Success(None) && records == old(records)
      ensures id in old(records) ==>
        var updated := ApplyUpdate(old(records)[id], u);
        if ClashesWith(old(records), Some(id), updated) then
          r.Failure? && records == old(records)
        else
          r == Success(Some(updated)) && records == old(records)[id := updated]
    {
      if id !in records {
        return Success(None);
      }
      var updated := ApplyUpdate(records[id], u);
      var clash := exists j :: j in records && j != id && Collides(records[j], updated);
      assert clash == ClashesWith(records, Some(id), updated);
      if clash {
        return Failure("MongoServerError: E11000 duplicate key error");
      }
      UpdateWellFormed(records[id], u);
      Replace(id, updated, passwords[id]);
      r := Success(Some(updated));
    }

    /** Overwrites one stored document with a well-formed, non-colliding one whose password is a hash. */
    method Replace(id: UserId, doc: UserRecord, ghost plain: string)
      requires Valid() && id in records
      requires WellFormed(doc) && doc.password == cfg.crypto.hash(plain) && !ClashesWith(records, Some(id), doc)
      modifies this
      ensures Valid() && nextId == old(nextId)
      ensures records == old(records)[id := doc]
    {
      ReplaceKeepsInvariant(cfg, records, passwords, nextId, id, doc, plain);
      records := records[id := doc];
      passwords := passwords[id := plain];
    }
  }
}
