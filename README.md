# natours core, modelled in Dafny

A model of the decision logic of the natours tour-booking API (Express and
Mongoose), with proofs about it. It covers five parts:

- **The query-feature builder** (`APIFeatures`). It turns a request's query
  string into a database query. It drops the reserved keys, turns `gte`,
  `gt`, `lte` and `lt` into `$`-operators, sorts, projects and paginates.
- **The login lockout and the access checks.** These are `login`, `protect`
  and `restrictTo`.
- **The user document.** This covers its defaults and validators, the two
  pre-save hooks, the stale-token test, the reset token and the soft-delete
  filter.
- **The review collection.** This covers its validators, the one-review-per-
  (tour, user) index, and the recomputation of a tour's rating count and
  average after a save and after `findOneAnd*`.
- **The global error handler.** This covers the translation of database and
  token errors in production, and the response each environment sends.

The modules follow the source files:

| module | file |
|---|---|
| `Wrappers` | `Option` and `Result` |
| `Text` | JavaScript `split`, `join`, `startsWith`, `\w`, decimal printing and unary `+`, as the other modules use them |
| `ApiFeatures` | `utils/apifeatures.js`, plus the `getAliasTopTours` alias of `controllers/tourContoller.js` |
| `ErrorController` | `controllers/errorController.js` |
| `UserModel` | `models/userModel.js` |
| `AuthController` | `controllers/authController.js` |
| `ReviewModel` | `models/reviewModel.js` |

Each part takes the form of its source:
- **State as classes.** The builder (`Features`), the user document (`User`)
  and the review collection with its tours (`Store`) are classes. Their
  methods change their fields. Each method's `ensures` gives the whole new
  state in terms of a specification function of the old state.
- **Login as a method.** Login is a method over the stored users. Its
  effect on the found user is the pure transition `NextState`.
- **Both readings of the review schema.** The review collection's
  operations take a `Reading`. `AsWritten` runs the schema and the
  `findOneAnd*` hook as the source has them, with the two defects under
  "## Findings". `AsIntended` runs the corrected ones.
- **Pure parts as functions** with lemmas. This covers the `handle*`
  translations, the responses, token extraction, `protect`, `restrictTo`,
  the stale-token test and the aggregation.

## Outside the model

These are parameters, never computed:
- **Foreign calls:**
  - `bcrypt.hash` and `bcrypt.compare`;
  - `jwt.sign` and `jwt.verify` (a verification failure is the library's
    error value);
  - `crypto.randomBytes` and `sha256`.
- **Clock and generated ids:** `Date.now()` and the ids the database
  generates.
- **`new AppError(message, statusCode)`:** utils/appError.js is not part of
  this model. Whether its errors are operational, and which `status` it
  derives from a code, are parameters (`AppErrorClass`).
- **The environment:** `process.env.NODE_ENV`.

The database is two kinds of collection:
- the user and review collections are sequences of documents in stored
  order;
- the tours are a map from id to document.

## Model

| member | source | states |
|---|---|---|
| `ApiFeatures.Features.constructor` | utils/apifeatures.js:2-5 | the builder holds the given query and query-string object |
| `ApiFeatures.Features.Filter` | utils/apifeatures.js:7-16 | `find` receives the rewritten JSON of the query object without the reserved keys; `queryObj` is untouched; the builder itself is returned |
| `ApiFeatures.Features.Sort` | utils/apifeatures.js:18-26 | adds `SortOp` (the comma list with spaces, or `-createdAt` when `sort` is falsy); a `sort` that is not a string throws the `split` TypeError and leaves the query as it was |
| `ApiFeatures.Features.LimitField` | utils/apifeatures.js:28-36 | adds a projection from the comma list, or a sort on `-__v` when `fields` is falsy; a non-string throws |
| `ApiFeatures.Features.Pagination` | utils/apifeatures.js:38-44 | adds `skip((page-1)*limit)` and then `limit(limit)`; the builder is returned |
| `ApiFeatures.ChainedQuery` | controllers/handlerFactory.js:69-73 | the four steps chain on one builder; the result is the initial query followed by find, sort, projection-or-sort, skip and limit, or the first TypeError |
| `ApiFeatures.Without` | utils/apifeatures.js:8-10 | the copy keeps exactly the entries whose key is not deleted, and no others |
| `ApiFeatures.WithoutWithout` | utils/apifeatures.js:10 | deleting keys one after another equals deleting them all at once |
| `ApiFeatures.ReservedKeys` | utils/apifeatures.js:9 | the deleted keys are exactly `limit`, `page`, `sort`, `fields` |
| `ApiFeatures.FilterKeepsExactlyUnreserved` | utils/apifeatures.js:8-14 | removing the inserted `$` from the filter gives the JSON of exactly the unreserved entries, values included |
| `ApiFeatures.OperatorAt` | utils/apifeatures.js:13 | the length of the operator word at the start of a text: 0, 2 or 3, and a word boundary follows it |
| `ApiFeatures.OperatorAtIsAlternation` | utils/apifeatures.js:13 | agrees with trying `gte`, `gt`, `lte`, `lt` in order, each followed by `\b`; what matches is one of the four words |
| `ApiFeatures.StripRewriteRoundTrip` | utils/apifeatures.js:13 | the rewrite only inserts `$`: removing the inserted characters gives back the original text |
| `ApiFeatures.RewriteChangesIff` | utils/apifeatures.js:13 | the rewrite changes a text if and only if it holds a whole-word `gte`, `gt`, `lte` or `lt` (a token inside a longer word such as `gtex` is left alone) |
| `ApiFeatures.NoOperatorAfterRewrite` | utils/apifeatures.js:13 | rewritten text never starts with a bare operator word |
| `ApiFeatures.RewriteInsertsOnePerOperator` | utils/apifeatures.js:13 | the rewrite makes the text longer by exactly the number of positions where a whole-word operator starts; with the round trip, every match gets its `$` and nothing else changes |
| `ApiFeatures.StartsAtOperator` | utils/apifeatures.js:13 | after a match at the start, the next matches are those of the text after the operator word; none starts inside the word |
| `ApiFeatures.BothOperatorsRewritten` | utils/apifeatures.js:13 | `gt gt` becomes `$gt $gt`: the replace is global |
| `ApiFeatures.SortSpaces` | utils/apifeatures.js:19-24 | a non-empty string `sort` sorts by that text with every comma replaced by a space; a falsy one sorts by `-createdAt` |
| `ApiFeatures.FieldsSpaces` | utils/apifeatures.js:29-34 | a non-empty string `fields` selects that text with commas replaced by spaces; a falsy one adds a sort on `-__v` and no projection |
| `ApiFeatures.PaginationTakesPositiveNumbers` | utils/apifeatures.js:39-41 | any positive decimal page and limit up to `Number.MAX_SAFE_INTEGER`, with such a skip, are taken as given, and `skip = (page-1)*limit` is non-negative; no smaller upper bound on `limit` |
| `ApiFeatures.PageDefaults` | utils/apifeatures.js:39-41 | an absent, object, blank, `0` or non-numeric `page` gives page 1 and skip 0, whatever the limit |
| `ApiFeatures.LimitDefaults` | utils/apifeatures.js:40-41 | the same kinds of `limit` give limit 100, and the skip is then `(page-1)*100` |
| `ApiFeatures.PageTwoOfTen` | utils/apifeatures.js:39-42 | page `2` with limit `10` skips 10 and takes 10 |
| `ApiFeatures.TopToursSortsByRatingThenPrice` | controllers/tourContoller.js:57-61 | the top-tours alias sorts by `-ratingsAverage -price` |
| `ApiFeatures.TopToursTakesFive` | controllers/tourContoller.js:57-61 | the alias takes five tours and keeps the client's page |
| `ApiFeatures.TopToursFilter` | controllers/tourContoller.js:57-61 | the alias changes neither the filter nor the projection |
| `Text.SplitJoinReplaces` | utils/apifeatures.js:20 | `s.split(c).join(d)` replaces every `c` by `d` and changes nothing else |
| `Text.ToNumberOfNat` | utils/apifeatures.js:39-40 | unary `+` of the decimal text of a natural number up to `Number.MAX_SAFE_INTEGER` gives that number |
| `Text.ToNumberOfBlank` | utils/apifeatures.js:39-40 | unary `+` of blank text gives 0, which is falsy; blank means made only of ECMAScript white space and line terminators, every Unicode space separator included |
| `ErrorController.HandleCastErrorDB` | controllers/errorController.js:3-7 | a 400 that the app's AppError marks operational or not |
| `ErrorController.HandleDuplicateFieldsDB` | controllers/errorController.js:9-15 | a 400; throws `Cannot convert undefined or null to object` exactly when the error has no `keyValue` |
| `ErrorController.HandleValidationErrorDB` | controllers/errorController.js:17-22 | a 400; throws exactly when the error has no `errors` |
| `ErrorController.HandleJWTExpiredTokenError` | controllers/errorController.js:24-26 | a 401 with the expired-token message |
| `ErrorController.HandleJWTInvalidTokenError` | controllers/errorController.js:28-30 | a 401 with the invalid-token message |
| `ErrorController.SendErrorDev` | controllers/errorController.js:32-45 | JSON with the whole error at its status exactly for `/api` URLs, else the error view rendered with the error |
| `ErrorController.SendErrorProd` | controllers/errorController.js:47-70 | JSON exactly for `/api` URLs; operational errors show their message at their status; other API errors are 500 with the generic message; other view errors show the generic message at the error's own status |
| `ErrorController.WithDefaults` | controllers/errorController.js:73-74 | a missing or falsy status code becomes 500, a missing or empty status `error`; nothing else changes |
| `ErrorController.Translate` | controllers/errorController.js:79-85 | the five independent `if`s, each applied to the previous result, equal the decision table `Classify` |
| `ErrorController.GlobalErrorHandler` | controllers/errorController.js:72-89 | defaults written into the error; in development the development response; in production the translated error's production response, or the throw of a translation; otherwise no response |
| `ErrorController.ClassifyKeepsDefaults` | controllers/errorController.js:73-87 | every translation of a defaulted error has a status code and a status |
| `ErrorController.CastErrorIs400` | controllers/errorController.js:3-7 | in production a cast error becomes a 400 `Invalid <path>: <value>.` |
| `ErrorController.DuplicateKeyIs400` | controllers/errorController.js:9-15 | code 11000 becomes a 400 naming the first key of `keyValue` |
| `ErrorController.ValidationErrorIs400` | controllers/errorController.js:17-22 | a validation error becomes a 400 `Invalid input data. ` followed by the field messages joined by `. ` |
| `ErrorController.TokenErrorsAre401` | controllers/errorController.js:84-85 | the two token errors become 401s with their own messages, whatever came before, unless an earlier step threw |
| `ErrorController.LaterTranslationSeesEarlierResult` | controllers/errorController.js:81-82 | a cast error that also carries code 11000 is translated, then the duplicate-key translation throws on the result |
| `ErrorController.UnmatchedErrorPassesThrough` | controllers/errorController.js:79-87 | an error no test matches reaches the production response unchanged |
| `ErrorController.ProductionHidesProgrammingErrors` | controllers/errorController.js:47-70 | in production a non-operational error that no handler matches (no cast, validation or token error name, no code 11000) never shows its own message: a 500 on the API, a page with its status otherwise |
| `ErrorController.NonOperationalStaysHidden` | controllers/errorController.js:47-86 | when neither the error nor the app's AppError is operational, every error the production branch sends, translated or not, carries the generic message |
| `ErrorController.DefaultsReachTheResponse` | controllers/errorController.js:50-53 | an operational error with no status code and no status is reported as a 500 with status `error` |
| `UserModel.ChangedAfter` | models/userModel.js:94-103 | a token is stale if and only if a change time exists and lies at or past the end of the token's second (before the epoch: past its start), i.e. `iat < trunc(changedAt/1000)` |
| `UserModel.User.CheckTokenAfterPasswordChange` | models/userModel.js:94-103 | `ChangedAfter` of the stored change time: true exactly when the password changed at or past the end of the token's second |
| `UserModel.SameInstantNotStale` | models/userModel.js:81 | with the one-second offset, a token stamped `floor(now/1000)` at the save is not stale |
| `UserModel.OffsetWindow` | models/userModel.js:81 | a token from the second before the change also passes; one from two seconds before is stale |
| `UserModel.User.constructor` | models/userModel.js:23-61 | the schema defaults: role `user`, active, zero attempts, no lock; a given password counts as modified |
| `UserModel.User.SetPassword` | models/userModel.js:68 | assigning a password marks it modified only when the value changes |
| `UserModel.User.ValidationErrors` | models/userModel.js:7-61 | no violation if and only if name, email, password and confirmation are present and non-empty, the role is in the enum, the confirmation equals the password and attempts are at most 5 |
| `UserModel.User.Save` | models/userModel.js:67-84 | validation first; a modified password is hashed and its confirmation cleared; `passwordChangedAt = now - 1000` only for a modified password on a stored document; other saves leave password and `passwordChangedAt` alone |
| `UserModel.User.CreatePasswordResetToken` | models/userModel.js:105-113 | returns the raw token, stores only its hash, valid for 600000 ms; nothing else changes |
| `UserModel.FindActive` | models/userModel.js:74-77 | a document is returned exactly when its `active` is not `false` (absent included) |
| `UserModel.FindActiveAppend` | models/userModel.js:74-77 | the filter keeps the stored order |
| `UserModel.FindActiveIdempotent` | models/userModel.js:74-77 | filtering twice is filtering once |
| `UserModel.RoleDefaultIsAllowed` | models/userModel.js:23-27 | the default role is in the enum |
| `AuthController.Login` | controllers/authController.js:78-121 | blank credentials give 400 before any lookup; an unknown email and a wrong password are the same 401; a locked account is refused with its remaining seconds and not written; otherwise attempts and lock follow `NextState`, other users and every other field of the user (password, confirmation, change time, reset token and its expiry, role, active, `isNew`) untouched, and a right password returns status 200 with the signed token and the user's role, id, name and email |
| `AuthController.FailureCounts` | controllers/authController.js:90-117 | a refused attempt changes nothing; a wrong password adds exactly 1 and sets the lock to `now + 60000` from the third failure, else keeps it; a right password gives 0 and no lock |
| `AuthController.LockSetButNotEnforced` | controllers/authController.js:90-94 | at 3 or 4 failures a right password still gets in, whatever the lock says |
| `AuthController.FailuresFromClean` | controllers/authController.js:106-109 | k ≤ 5 wrong passwords from a clean record give k attempts; the lock is set if and only if k ≥ 3 |
| `AuthController.EnforcedOnlyAtFive` | controllers/authController.js:90-94 | after such a run a login is refused if and only if k = 5 and the latest failure is less than a minute ago |
| `AuthController.RemainingSeconds` | controllers/authController.js:95 | `ceil((lockUntil-now)/1000)`: at least 1, and the last second it counts covers the lock |
| `AuthController.LockedMessageSeconds` | controllers/authController.js:95-101 | the reported wait is at least a second and reaches the end of the lock |
| `AuthController.FindByEmail` | controllers/authController.js:84 | the user found is visible and has the email; none found means no visible user has it |
| `AuthController.HeaderTakesPrecedence` | controllers/authController.js:37-41 | a `Bearer <token>` header gives the token, whatever the cookie holds |
| `AuthController.CookieOtherwise` | controllers/authController.js:37-44 | without a bearer header the token is the cookie, if set |
| `AuthController.BareBearerHidesCookie` | controllers/authController.js:37-44 | a bare `Bearer` header gives no token and does not fall back to the cookie |
| `AuthController.FindById` | controllers/authController.js:53 | the user found is visible and has the id; none found means no visible user has it |
| `AuthController.Protect` | controllers/authController.js:35-65 | the request goes on if and only if there is a token, it verifies, its user still exists and the password did not change after it was issued; the user it goes on as is the visible stored user whose id the token carries; no token is a 401; a verification failure is passed on unchanged; a missing user and a changed password are 401s with their own messages |
| `AuthController.ProtectRejectionsAre401` | controllers/authController.js:45-61 | every rejection `protect` makes itself is a 401 |
| `AuthController.RestrictTo` | controllers/authController.js:67-76 | the request goes on if and only if the role is listed, else a 403 |
| `AuthController.AppErrorsReachTheClient` | controllers/errorController.js:47-53 | an operational AppError reaches a production API client with its own status and message |
| `AuthController.ExpiredTokenIs401` | controllers/errorController.js:84 | an expired token is passed on by `protect` and becomes the handler's 401 in production |
| `ReviewModel.RatingErrors` | models/reviewModel.js:10-14 | a rating passes if and only if it is absent or within [1.0, 5.0] |
| `ReviewModel.ValidationAsWritten` | models/reviewModel.js:6-24 | as Mongoose reads the schema, only the rating bounds are checked |
| `ReviewModel.Validation` | models/reviewModel.js:6-24 | as intended: review text, tour and user are required, and the rating is within bounds |
| `ReviewModel.CreateErrors` | models/reviewModel.js:6-24 | the validators `create` runs: the as-written ones under `AsWritten`, the intended ones under `AsIntended` |
| `ReviewModel.PatchErrors` | models/reviewModel.js:6-14 | a patch fails exactly when its rating is out of bounds, or, as intended only, its review text is empty |
| `ReviewModel.EmptyReviewAccepted` | models/reviewModel.js:8-23 | a review with no text, tour or user passes the schema as written and fails three intended validators |
| `ReviewModel.SecondReviewIs400` | models/reviewModel.js:29 | a second review of a tour by the same user becomes a production 400 naming `tour` |
| `ReviewModel.InvalidReviewIs400` | models/reviewModel.js:10-14 | a rejected review becomes a production 400 listing the messages of its failed validators |
| `ReviewModel.OfTour` | models/reviewModel.js:42 | the match keeps exactly the tour's reviews |
| `ReviewModel.CountIsNumberOfReviews` | models/reviewModel.js:46 | `$sum: 1` is the number of positions holding a review of the tour |
| `ReviewModel.Aggregate` | models/reviewModel.js:40-51 | one group exactly when the tour has a review |
| `ReviewModel.RecomputedFields` | models/reviewModel.js:52-62 | the quantity is the tour's number of reviews and the average the mean of their ratings, or 0 and 4.5 without reviews |
| `ReviewModel.MeanOfRated` | models/reviewModel.js:48 | when every review of the tour is rated, the average is their sum over their number |
| `ReviewModel.AverageWithinBounds` | models/reviewModel.js:48 | ratings within [1.0, 5.0] give an average within [1.0, 5.0] |
| `ReviewModel.AddedRatingMovesMean` | models/reviewModel.js:48 | a new rated review moves the average to the mean with the new rating counted once |
| `ReviewModel.OtherToursUnaffected` | models/reviewModel.js:42 | a new review leaves every other tour's statistics alone |
| `ReviewModel.UpdateTour` | models/reviewModel.js:53-61 | only the given tour's `ratingsQuantity` and `ratingsAverage` change; other tours and fields stay; a missing tour is not created |
| `ReviewModel.CreateThenDeleteRestores` | models/reviewModel.js:39-68 | composing the postconditions of `Store.Create` and `Store.FindByIdAndDelete` of the new id: the delete finds the new review, the collection comes back as it was, the new review's tour is recomputed from the original reviews, and tours whose fields were up to date come back unchanged |
| `ReviewModel.UpdateTourTwice` | models/reviewModel.js:53-61 | a second recompute of a tour overwrites the first |
| `ReviewModel.UpdateTourConsistent` | models/reviewModel.js:53-61 | recomputing a tour whose fields match its reviews changes nothing |
| `ReviewModel.Store.CalcAverageRatings` | models/reviewModel.js:39-63 | writes the recomputed fields into the tour and changes nothing else; in a valid collection the average written lies within [1.0, 5.0] |
| `ReviewModel.Store.Create` | models/reviewModel.js:65-68 | a review that fails the reading's validators, or repeats a (tour, user) pair (a missing one counting as null), is rejected and nothing changes; otherwise it is appended and its tour recomputed; the index stays unique and every rating within bounds |
| `ReviewModel.Store.PostFindOneAndAsWritten` | models/reviewModel.js:78-81 | recomputes the tour of the document fetched before the query, and throws when there was none |
| `ReviewModel.Store.PostFindOneAnd` | models/reviewModel.js:72-81 | the corrected hook: recomputes the fetched document's tour, and does nothing when nothing was fetched |
| `ReviewModel.Store.PostFindOneAndIn` | models/reviewModel.js:72-81 | the hook of the reading: with nothing fetched it throws the TypeError as written and does nothing as intended |
| `ReviewModel.Store.FindByIdAndUpdate` | models/reviewModel.js:72-81 | an invalid patch is rejected first, even for a missing id; a missing id then changes nothing and gives the TypeError as written, no document as intended; a taken (tour, user) pair is rejected; otherwise the review is replaced and the tour it had before the update is recomputed |
| `ReviewModel.Store.FindByIdAndDelete` | models/reviewModel.js:72-81 | a missing id changes nothing and gives the TypeError as written, no document as intended; otherwise the review is removed and its tour recomputed; the index stays unique |
| `ReviewModel.RemoveKeepsUnique` | models/reviewModel.js:29 | removing a review keeps (tour, user) pairs and ids unique |
| `ReviewModel.ReplaceKeepsUnique` | models/reviewModel.js:29 | replacing a review with one whose pair is free keeps pairs and ids unique |
| `ReviewModel.MissingReviewIs500AsWritten` | models/reviewModel.js:80 | the hook's TypeError reaches a production API client as a 500 with the generic message |

## Left out

- `JSON.parse` of the rewritten filter is left out: `Find` carries the JSON text that `find` would parse.
- Arrays in the query string are left out. Values are strings or nested objects.
- Unary `+` is modelled for optionally signed decimal integers and blank text; decimals, exponents, hex and `Infinity` are treated as NaN.
- `Text.ToNumber` gives the exact integer, where JavaScript rounds to a double. Past `Number.MAX_SAFE_INTEGER` the two differ: `+"9007199254740993"` is 9007199254740992, and more than about 309 digits give `Infinity`. The skip `(page-1)*limit` also rounds past that bound. `Text.ToNumberOfNat` and `ApiFeatures.PaginationTakesPositiveNumbers` are therefore stated only up to it.
- `ApiFeatures.Entries` keeps keys in insertion order and does not rule out a repeated key. An object has each key once, and `JSON.stringify` prints integer-like keys first, in ascending order. The model neither merges repeated keys nor reorders integer-like ones, so its filter text can differ from the source's in key order.
- The stack trace in development responses, `console.error`, and Express's final handler after the error handler throws (`Thrown`) are left out.
- The copy `{...err}` is the error itself: the handler only reads the error's own fields, so the copy has the same values.
- Cookie setting and its options, token expiry, and the `status: 'success'` wrapper of the login response are left out.
- `AuthController.Login` takes `email` and `password` to be strings or absent. The source accepts any JSON value from the body (no sanitising middleware runs). An object email such as `{"$ne": null}` passes the `!email` test and `findOne` runs it as a query operator, matching the first visible user, who is then charged a failed attempt. A non-string password makes `bcrypt.compare` reject, which reaches the client as a 500. The model captures neither.
- `AuthController.Login` reads `Date.now()` once: the lock test, the remaining time and the new lock use one `now`.
- `AuthController.Login` leaves the save implicit. It writes with validation off and an untouched password, so neither hook changes anything (`User.Save`).
- `AuthController.Login` does not model the schema lowercasing and trimming the email in the lookup; the email must match as stored.
- `UserModel.User.ValidationErrors` does not check `isEmail`, `minLength: 8`, the uniqueness of emails or the `trim`/`lowercase` setters; they are library behaviour.
- The `photo` field, `timestamps`, and the `populate` of a review's user on `find` are left out; the model has no use for them.
- The rest of `authController.js` is not modelled: `signup`, `forgetPassword`, `resetPassword`, `updatePassword`, `isLoggedIn` and `logout`.
- `ReviewModel.Store.Create`: for a review without a tour, `Tour.findByIdAndUpdate(undefined, …)` is taken to update no tour; tourModel.js is not part of this model.
- `ReviewModel.Store.Create` requires a fresh id: the database generates it and the source never handles a collision.
- `ReviewModel.Store.FindByIdAndUpdate` applies only the four schema fields, and only sets them. Unsetting a field is not modelled, and update validators run on the given paths only.
- The 404 that controllers/handlerFactory.js sends for a missing document belongs to its caller and is not modelled.
- `ReviewModel.ValidationFailure` and `ReviewModel.DuplicateKey` abstract the database's message texts. The handler only reads the field messages and the index keys.
- `ReviewModel.Recomputed` computes in exact reals; the database's `$avg` rounds in floating point.
- Concurrency is not modelled:
  - the post-save hook is not awaited;
  - the review write and the recompute are separate writes;
  - logins can race on `loginAttempts`.

## Findings

| source | as written | input that shows it | evidently intended | confidence | as-written member | corrected member |
|---|---|---|---|---|---|---|
| models/reviewModel.js:8-23 | the schema uses `require: [true, …]`, an option Mongoose does not know, so review text, tour and user are not required | a review created with no text, no tour and no user | `required: [true, …]` on the three paths | high, not executed | `ReviewModel.EmptyReviewAccepted` | `ReviewModel.Validation` |
| models/reviewModel.js:72-81 | the post hook reads `this.r.constructor` when the pre hook fetched nothing, and throws a TypeError | `findByIdAndDelete` or `findByIdAndUpdate` with an id no review has | no recompute; the caller answers 404 | medium (the hook library passes a rejected hook's error to the query), not executed | `ReviewModel.Store.PostFindOneAndAsWritten` | `ReviewModel.Store.PostFindOneAnd` |
