# Zootube accounts and sessions in Dafny

A model of the account and session core of the Zootube Express/Mongoose
backend. The model covers:

- the `User` schema and its `pre("save")` password hook;
- the user handlers (`registerUser`, `loginUser`, `logoutUser`,
  `refreshAccessToken`, `changePassword`, `updateAccountDetails`) and
  their token helper;
- the `verifyJWT` request gate;
- the `getUserChannel` aggregation.

The `users` collection is a class, `UserModel.UserTable`. It holds a map
from id to document and the next id to issue. Its invariant
(`TableInvariant`) says:

- every document keeps the shape the schema setters give it;
- every stored password is the bcrypt hash of a plaintext;
- username and email are unique.

Every handler that touches the table is a method that takes it; `getUserChannel`, which only reads, is a function of the table's contents. Each returns an `Outcome`: the
response it sends (`Ok`), the `ApiError` it throws (`Err`), or an exception
that escapes it (`Crash`). Its contract states the outcome of every guard,
the exact response on success, and the table after the call.

bcrypt and jsonwebtoken are kept abstract. `Crypto.Crypto` holds them as
function values, and `Crypto.Sound` states what the account logic assumes
of them. The properties that depend on those assumptions take `Sound` as a
hypothesis.

The handlers follow the code as written. Where a line does not do what it
evidently means to do, a corrected variant sits beside the as-written one
(see "## Findings").

Modules, one per file:

| file | module | models |
|---|---|---|
| wrappers.dfy | `Wrappers` | `Option`, `Result` |
| strings.dfy | `Strings` | `trim`, `toLowerCase`, `replace` with a string pattern, truthiness |
| crypto.dfy | `Crypto` | bcrypt and JWT as parameters, token claims |
| responses.dfy | `Responses` | `ApiError`, handler outcomes |
| user_model.dfy | `UserModel` | `src/models/user.model.js` and the Mongoose operations the handlers call |
| auth_middleware.dfy | `AuthMiddleware` | `src/middlewares/auth.middleware.js` |
| user_controller.dfy | `UserController` | the account and session handlers of `src/controllers/user.controller.js` |
| channels.dfy | `Channels` | the `getUserChannel` pipeline and the watch-history `$first` owner collapse |

The model rests on these assumptions about Mongoose:

- The schema setters (`lowercase`, `trim`) run on `create`, on assignment,
  on update values and on `findOne` filter values. An aggregation `$match`
  does not cast.
- `required` refuses `""` and a missing value.
- `isModified("password")` means the assigned value differs from the stored one.
- `findOne` returns the first match in id order.

## Model

| member | source | states |
|---|---|---|
| Strings.Trim | src/models/user.model.js:12 | the `trim` setter's result has no surrounding whitespace, is the input with whitespace cut from its two ends only (a slice `s[a..b]` with only whitespace outside it), and an already trimmed value is kept |
| Strings.TrimBlank | src/controllers/user.controller.js:375 | `trim()` gives "" exactly when the string is whitespace only, which is when `!username?.trim()` refuses it |
| Strings.ToLower | src/controllers/user.controller.js:86 | `toLowerCase()` keeps the length and lowers each character in place |
| Strings.Normalize | src/models/user.model.js:11-12 | the `lowercase` and `trim` setters produce a normal value that is the lower-cased input with whitespace cut from its two ends only (the lower-cased slice `s[a..b]` with only whitespace outside it), and keep an already normal one, so applying them twice changes nothing |
| Strings.NormalizeAfterLower | src/controllers/user.controller.js:86 | lower-casing the username before `create` stores the same value the setters alone would store |
| Strings.IndexFrom | src/middlewares/auth.middleware.js:10 | the first position at or after `from` where the pattern occurs, or none when it occurs nowhere |
| Strings.ReplaceFirst | src/middlewares/auth.middleware.js:10 | `replace` with a string pattern changes only the first occurrence: the text before it and after it is kept, and a string without the pattern is returned unchanged |
| Strings.ReplaceFirstByEmpty | src/middlewares/auth.middleware.js:10 | replacing the first occurrence by "" removes exactly that occurrence |
| Strings.ReplaceLeadingPattern | src/middlewares/auth.middleware.js:10 | `replace("Bearer ", "")` on "Bearer " + t gives exactly t |
| Strings.ReplaceAbsentPattern | src/middlewares/auth.middleware.js:10 | a header without "Bearer " is passed on unchanged |
| Strings.ToLowerIdempotent | src/controllers/user.controller.js:86 | lower-casing twice is lower-casing once |
| Strings.TrimStartLower | src/models/user.model.js:11-12 | dropping leading whitespace commutes with lower-casing |
| Strings.TrimEndLower | src/models/user.model.js:11-12 | dropping trailing whitespace commutes with lower-casing |
| Responses.Rethrow401 | src/middlewares/auth.middleware.js:26-28 | a caught error becomes a 401 that keeps the error's message when it has one and uses the fallback otherwise |
| UserModel.ApplySetters | src/models/user.model.js:7-32 | the setters store username and email as `Normalize` of the given values (lower-cased, with the surrounding whitespace cut) and password and fullName as `Trim` of them, so those four are lower-case and trimmed or trimmed; no other field changes |
| UserModel.SettersWellFormed | src/models/user.model.js:7-32 | after the setters, username and email are lower-case and trimmed and fullName is trimmed; a document already in that shape keeps its identity fields |
| UserModel.UniqueAfterInsert | src/models/user.model.js:7-21 | inserting a document that collides with no stored one keeps username and email unique |
| UserModel.UniqueAfterReplace | src/models/user.model.js:7-21 | overwriting one document with one that collides with no other keeps username and email unique |
| UserModel.SameIdentityNoClash | src/controllers/user.controller.js:18-21 | a document saved back with its own username and email collides with no other document |
| UserModel.PreSave | src/models/user.model.js:54-60 | the hook changes only the password; an unmodified password is kept as it is; under sound bcrypt a modified one is replaced by a hash that bcrypt accepts for it and that differs from the plaintext |
| UserModel.PreSaveStoresHash | src/models/user.model.js:54-60 | a modified password is stored as its hash, which bcrypt accepts for it and which is never the plaintext; nothing else changes |
| UserModel.PreSaveKeepsHash | src/models/user.model.js:54-60 | an unmodified password is not hashed again: the document is saved unchanged |
| UserModel.IsPasswordCorrect | src/models/user.model.js:64-66 | under sound bcrypt the plaintext a stored hash was made from is accepted |
| UserModel.PasswordCheckExact | src/models/user.model.js:64-66 | against the stored hash of p, `isPasswordCorrect` accepts exactly p |
| UserModel.GenerateAccessToken | src/models/user.model.js:69-82 | under a sound JWT library the token verifies under the access secret to {_id, email, username, fullName} and its issue time |
| UserModel.GenerateRefreshToken | src/models/user.model.js:84-94 | under a sound JWT library the token verifies under the refresh secret to {_id} and its issue time |
| UserModel.RefreshTokensDiffer | src/models/user.model.js:84-94 | refresh tokens issued at different times are different tokens |
| UserModel.AccessTokenClaims | src/models/user.model.js:69-82 | the access token verifies under the access secret to exactly {_id, email, username, fullName} with its issue time, and fails under a different refresh secret |
| UserModel.RefreshTokenClaims | src/models/user.model.js:84-94 | the refresh token verifies under the refresh secret to {_id} alone with its issue time, and fails under a different access secret |
| UserModel.FindFrom | src/controllers/user.controller.js:58-60 | `findOne` returns the first stored document in id order that matches the filter, and none only when no document matches |
| UserModel.FindOne | src/controllers/user.controller.js:58-60 | the result is a stored id below the bound whose document matches the filter, no smaller id matches, and there is no result exactly when no document matches |
| UserModel.ApplyUpdate | src/controllers/user.controller.js:276-287 | clearing the refresh token changes only that field; a details update changes only fullName and email, keeps an absent one, and stores a supplied fullName trimmed and a supplied email normalized |
| UserModel.UpdateWellFormed | src/controllers/user.controller.js:281-287 | an update keeps the setters' shape, because the setters run on the new values |
| UserModel.InsertKeepsInvariant | src/models/user.model.js:5-51 | inserting a well-formed, non-colliding document with a hashed password under the next id preserves the collection invariant |
| UserModel.ReplaceKeepsInvariant | src/models/user.model.js:5-51 | overwriting a document with a well-formed, non-colliding one with a hashed password preserves the collection invariant |
| UserModel.UserTable.constructor | src/models/user.model.js:96 | an empty collection satisfies the invariant |
| UserModel.UserTable.Create | src/models/user.model.js:5-60 | `User.create` stores the setter-normalized document with its password hashed under the next id, and advances the next id by one, exactly when it passes `required` and collides with no stored user; otherwise nothing changes |
| UserModel.UserTable.Insert | src/models/user.model.js:54-57 | a new document is stored under the next id with its password hashed, the next id advances by one, and the invariant is kept |
| UserModel.UserTable.Save | src/controllers/user.controller.js:21 | `save()` of a loaded document with unchanged identity fields stores it, hashing the password exactly when it changed, and keeps the invariant |
| UserModel.UserTable.FindByIdAndUpdate | src/controllers/user.controller.js:281-287 | a missing id gives null and no write; an update that breaks a unique index fails with no write; otherwise only that document changes and the updated document is returned |
| UserModel.UserTable.Replace | src/models/user.model.js:5-51 | overwrites one document and keeps the invariant |
| AuthMiddleware.PresentedToken | src/middlewares/auth.middleware.js:10 | a truthy accessToken cookie is the token; otherwise the Authorization header, when present, gives it with its first "Bearer " removed wherever it occurs, and unchanged when it holds none |
| AuthMiddleware.VerifyJwt | src/middlewares/auth.middleware.js:8-29 | every failure is a 401; no token gives "Unauthorized request"; the gate admits exactly a token that verifies under the access secret and names a stored user, and then attaches that user without password or refreshToken; the store is only read |
| AuthMiddleware.BearerHeaderStripped | src/middlewares/auth.middleware.js:10 | without a truthy cookie, an "Authorization: Bearer t" header yields exactly t |
| AuthMiddleware.AccessTokenAdmitted | src/middlewares/auth.middleware.js:16-25 | an access token issued for a stored user admits that user, from the cookie or from a Bearer header |
| AuthMiddleware.RefreshTokenRefused | src/middlewares/auth.middleware.js:16 | with distinct secrets a refresh token does not pass the gate |
| AuthMiddleware.UnknownUserRefused | src/middlewares/auth.middleware.js:18-22 | a verified token whose _id names no stored user gives 401 "Invalid access token" |
| UserController.GenerateAccessAndRefreshToken | src/controllers/user.controller.js:9-27 | on success the user's stored refreshToken is the refresh token returned and nothing else changes; a missing id or user gives 500 and no write |
| UserController.AsWrittenNeverRejects | src/controllers/user.controller.js:44-50 | the emptiness check as written never rejects |
| UserController.AnyFieldBlankMeaning | src/controllers/user.controller.js:44-50 | the intended check rejects exactly when some present field is whitespace only |
| UserController.BlankFullNameSlipsThrough | src/controllers/user.controller.js:44-50 | a fullName of spaces passes the check as written and is caught by the intended one |
| UserController.RegisterFields | src/controllers/user.controller.js:84-91 | once the setters run, the created document's username is what the setters alone make of the body's username; it has no refresh token and an empty watch history, and coverImage is "" when no cover was uploaded |
| UserController.NoMatchNoClash | src/controllers/user.controller.js:58-91 | when the `$or` lookup finds nothing, the document `create` is given collides with no stored user |
| UserController.RegisterUser | src/controllers/user.controller.js:29-108 | a missing email crashes; an email without "@" gives 400; a user matching the username or the email gives 409; a missing avatar path gives 400; a failed avatar upload gives 400. Past the avatar upload a missing username or a document `required` refuses crashes. Otherwise registration succeeds, storing one new user under the next id with the username lower-cased and trimmed, coverImage "" when none was uploaded, and the password hashed. It returns that user without password or refreshToken. Nothing is written on any other path |
| UserController.LoginUser | src/controllers/user.controller.js:110-165 | neither username nor email gives 400; no match gives 404; a wrong password gives 401; no write on any rejection; on success both tokens are returned, the stored refreshToken equals the returned one, and nothing else changes |
| UserController.LogoutUser | src/controllers/user.controller.js:167-193 | answers 201 and clears only the acting user's refreshToken; every other field and user is unchanged |
| UserController.LogoutIdempotent | src/controllers/user.controller.js:169-179 | clearing the refresh token twice is clearing it once, and it touches no other field |
| UserController.RefreshSource | src/controllers/user.controller.js:196 | the token comes from a truthy cookie, else from the body, and is truthy exactly when one of the two is |
| UserController.RefreshGuards | src/controllers/user.controller.js:196-213 | the token comes from the cookie first, then the body; no token gives 401 "Unauthorized request"; a token other than the stored one gives 401 "Refresh Token is expired or used"; every refusal is a 401; it passes exactly a stored user's current refresh token |
| UserController.RefreshAccessToken | src/controllers/user.controller.js:195-239 | as written every request is refused with 401 and the store never changes; past the guards the refusal is the generator's message |
| UserController.RefreshAccessTokenFixed | src/controllers/user.controller.js:195-239 | with the id passed, a request that passes the guards gets a new token pair issued at the current time, and the new refresh token replaces the stored one; a refused request writes nothing; under a sound JWT library a presented token issued at another time is refused afterwards as "Refresh Token is expired or used" |
| UserController.RotationRetiresPresentedToken | src/controllers/user.controller.js:211-217 | once a refresh stores a token issued at `now`, the token that was presented, issued at another time, no longer passes the guards |
| UserController.StoredRefreshTokenAccepted | src/controllers/user.controller.js:203-213 | the refresh token a user holds in the store passes the guards, from the cookie or from the body |
| UserController.LogoutRevokesRefresh | src/controllers/user.controller.js:169-179 | after logout the user's refresh token is refused as "Refresh Token is expired or used" |
| UserController.AccessTokenNotRefreshToken | src/controllers/user.controller.js:203 | with distinct secrets an access token does not pass the refresh guards |
| UserController.ChangePassword | src/controllers/user.controller.js:241-259 | a mismatched confirmation gives 401 before any lookup or write; as written any old password is accepted; the stored password becomes the hash of the trimmed new password; a failure writes nothing |
| UserController.ChangePasswordFixed | src/controllers/user.controller.js:241-259 | with the check awaited, a wrong old password gives 401 "Invalid old password" and no write, and under sound bcrypt a change succeeds only for the user's actual password |
| UserController.NewPasswordAccepted | src/controllers/user.controller.js:255-256 | after the hook hashes a new password, exactly that password is accepted |
| UserController.DetailsUpdateOnlySupplied | src/controllers/user.controller.js:276-279 | only the truthy fields are replaced (fullName trimmed, email normalized) and every other field is kept |
| UserController.UpdateAccountDetails | src/controllers/user.controller.js:269-294 | neither fullName nor email gives 400 and no write; with no user attached it crashes with no write; otherwise only the acting user's supplied fields change and the user is returned without password, null when missing, a crash when the email is taken |
| UserController.Session | src/controllers/user.controller.js:110-239 | after a successful login the access token passes the gate as the logged-in user and the refresh token passes the refresh guards, and after logout that refresh token is refused |
| Channels.SubscribersOf | src/controllers/user.controller.js:386-391 | the lookup yields exactly the subscription rows whose channel is the target |
| Channels.SubscribersOfCounts | src/controllers/user.controller.js:386-391 | each row of the channel appears in the lookup as often as in the collection, and no other row appears |
| Channels.SubscriberCountAppend | src/controllers/user.controller.js:395-397 | a new subscription row adds one to its own channel's subscribersCount and leaves every other channel's count alone |
| Channels.SubscriberCount | src/controllers/user.controller.js:394-397 | subscribersCount is at most the number of subscription rows, and zero exactly when no row names the channel |
| Channels.IsSubscribed | src/controllers/user.controller.js:398-404 | isSubscribed holds exactly when the viewer has a subscription row for the channel |
| Channels.Profile | src/controllers/user.controller.js:393-417 | the projected profile carries the user's id, fullName, username, avatar and coverImage, the number of the channel's rows, and whether the viewer has one |
| Channels.GetUserChannel | src/controllers/user.controller.js:372-428 | as written it never answers 200: a blank username gives 400; any other crashes with no viewer attached and gives 404 once one is |
| Channels.GetUserChannelAwaited | src/controllers/user.controller.js:379-427 | with the aggregation awaited: a blank username gives 400; a missing viewer crashes; no user with the lower-cased name gives 404, and a user with it gives 200. Then the result is the matched user's fullName, username, avatar and coverImage, with subscribersCount the number of that channel's rows and isSubscribed whether the viewer has a row |
| Channels.OwnerCollapse | src/controllers/user.controller.js:463-469 | `$first` over the owner lookup gives the owner's fullName, username and avatar, or no owner when no user has that id |

## Left out

- Time-based token expiry (`expiresIn`) is not modelled. A failed `jwt.verify` of any kind is an abstract verify failure with the library's message. Tokens carry their issue time (`iat`, whole seconds) and the clock is a parameter (`now`); two refreshes within the same second issue the same token, as HMAC-signed JWTs do.
- Database, network and file-system failures are not modelled. The store never fails except as `create` validation and the unique indexes do.
- `uploadOnCloudinary` is a parameter of `RegisterUser`: a URL or null for each file. src/utils/cloudinary.js is not part of this model, and neither is `deleteFromCloudinary`.
- Express wiring (src/app.js, src/routes/user.routes.js), cookies and their options, and the response envelopes are not modelled. `ApiResponse` (src/utils/apiResponse.js) is not modelled.
- src/utils/asyncHandler.js is not part of this model. As written it returns nothing. Each handler's outcome is what it throws or sends.
- UserController.RefreshGuards: a token whose `_id` names no user throws an `ApiResponse` (line 208); src/utils/apiResponse.js is not part of this model, so what that object carries is not modelled. The model gives 401 "Invalid refresh token" there. The contract promises only that this refusal is a 401.
- UserController.LogoutUser: `$set: { refreshToken: undefined }` is modelled as clearing the field. Mongoose releases that strip `undefined` from an update would make the update a no-op.
- UserController.LoginUser: `findOne(user._id)` at line 140 is read as a lookup by that id.
- Strings.ToLower: lower-cases ASCII letters only. `String.prototype.toLowerCase` also maps non-ASCII letters.
- Request bodies hold strings or nothing. A non-string JSON value (a number, an array) in a body field is not modelled.
- UserController.ChangePassword: the unawaited `isPasswordCorrect` promise rejects when `oldPassword` is missing. That unhandled rejection is not modelled; the handler carries on as the model states.
- `registerUser`'s 500 "Error occured while registering the User" (lines 98-100) is not modelled. The read-back happens right after `create` with nothing in between, so it cannot miss.
- `getCurrentUser` is not modelled. It returns the gate's user unchanged.
- `updateUserAvatar` and `updateUserCoverImage` are not modelled. They are upload and delete I/O around a single `$set`.
- `getWatchHistory` is modelled only as its `$first` owner collapse (`Channels.OwnerCollapse`), over `Channels.OwnerLookup`, the owner lookup as intended. As written the pipeline cannot run:
  - the outer `$lookup` misspells `foreignField`;
  - the inner one reads collection "User" (line 447), not "users", so as written it finds no owner;
  - the result is not awaited at line 431, so `user[0]` is undefined and the handler throws.
- Routing: src/routes/user.routes.js routes only register, login and logout (the last behind `verifyJWT`), so nothing attaches `req.user` for `getUserChannel`, `changePassword` or `updateAccountDetails`. Their acting user is an optional parameter, and a missing one crashes.
- Crypto.Sound: the clause that bcrypt accepts no password but the one a hash was made from ignores bcrypt's truncation of its input at 72 bytes: two passwords that agree on their first 72 bytes compare equal. `UserModel.PasswordCheckExact`, `UserController.NewPasswordAccepted` and `UserController.ChangePasswordFixed` rest on that clause.
- Timestamps (`createdAt`, `updatedAt`) are not modelled. The `watchHistory` video references are carried as data and not checked.

## Findings

| source | as written | input that shows it | evidently intended | confidence | as-written member | corrected member |
|---|---|---|---|---|---|---|
| src/controllers/user.controller.js:44-50 | the `some` callback has a block body with no `return`, so the check never rejects | a registration with fullName "  " | a present field that trims to "" gives 400 "All fields are required" | not executed | UserController.BlankFullNameSlipsThrough | UserController.AnyFieldBlankMeaning |
| src/controllers/user.controller.js:215 | `generateAccessAndRefreshToken()` is called with no id, so it always fails with 500, rethrown as 401 | a request carrying a user's current refresh token | a new token pair for the token's user, with the stored refresh token rotated so that the presented one is refused afterwards | not executed | UserController.RefreshAccessToken | UserController.RefreshAccessTokenFixed |
| src/controllers/user.controller.js:250 | `isPasswordCorrect` is not awaited; a pending promise is truthy, so the old password is never checked | oldPassword = confirmOldPassword = any wrong value | 401 "Invalid old password" and no write | not executed | UserController.ChangePassword | UserController.ChangePasswordFixed |
| src/controllers/user.controller.js:379 | `User.aggregate(...)` is not awaited; the query object has no `length`, so every lookup gives 404 | the username of a stored user | 200 with that user's channel profile | not executed | Channels.GetUserChannel | Channels.GetUserChannelAwaited |
