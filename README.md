# Backend handler logic of the e-learning platform, in Dafny

This project models the decision logic of the platform's backend request
handlers. Each handler runs a short chain of guards and then updates a
document collection, a key-value cache or the request. Collections are
`map<Id, …>` fields of a store class. The cache is a `map<string, …>`.
Errors are `HttpError(status, message)`. `MessageOnly(text)` stands for an
`ApiError` built with a message and no status.

- `university.dfy` (module `Universities`) covers the admin university
  handlers. Reads of one university go through the cache under the key
  `university-<id>`. Updates run six ordered guards, check ownership and
  then drop both cache keys. Deletion cascades a soft-delete from the
  university to its curriculum tracks (CurrentPursuing), then to the
  semesters they list, then to the subjects those list. The cascade keeps
  the source's two nested loops. Its result is specified by the function
  `SoftDeleted` over the sets of ids reached.
- `verify_jwt.dfy` (module `JwtMiddleware`) covers the `verifyJwt`
  middleware. It removes the first `"Bearer "` from the Authorization
  header. A signature-verification function, given as a parameter, checks
  the token. The middleware then looks up the principal for the claimed
  role and sets `req.customer` or `req.admin`. Everything thrown inside its
  `try` becomes a 400.
- `courses.dfy` (module `CoursesController`) covers the NestJS course
  controller. Each route is a pure function. It yields either the error it
  throws or the service call it makes, with that call's arguments.
- `auth.dfy` (module `Auth`) covers the NestJS auth service: the signed
  payload, password verification and the login cookie with its expiry
  arithmetic. It also covers the forgot-password and verify-email flows,
  which work on the user's stored one-time `jwtToken`.
- `wallet.dfy` (module `Wallets`) and `notes.dfy` (module `Notes`) cover
  the wallet table and the notes table.

Behaviour of the code as written that the model keeps:

- `getAllUniversities` answers only from the cache. On a miss it queries
  the store and never sends a reply. The model returns `Ok(None)` there.
- `getUniversityById` reads both the admin id and the customer id from
  `req.admin`, so a customer-only request is rejected.
- `deleteUniversity` builds a `CustomerDetails.updateMany` query but never
  awaits or executes it. Mongoose queries are lazy, so the query that would
  soft-delete customer details is built but never run. The model leaves
  `customerDetails` outside the frame of the delete.
- `verifyJwt` throws 404 "User not found" for a missing principal. Its own
  `catch` turns that into 400 "Internal Server Error", so a missing
  principal surfaces as 400, not 404.
- `createUniversity` does not invalidate the cached university list.
- The login cookie's expiry is `setMilliseconds(t + 604800000)` on a Date
  at time `t`. That is `t - t % 1000 + t + 604800000` milliseconds, about
  `2t` plus a week, not `t` plus seven days.
- Token comparisons use `!==` on possibly-undefined values. A request with
  no token therefore passes the check once the stored `jwtToken` has been
  cleared (`Auth.ResetWithoutTokenAfterReset`).
- `createCourse`'s file interceptor runs before everything else: a second
  `video` or `thumbnail`, or a file under another field name, gives 400
  "Unexpected field" before the body is validated or the role checked.
  The route has no authentication guard. If no user is attached, reading
  its role is a TypeError and the request fails with 500. Likewise an admin
  request without multipart files leaves `files` undefined, and reading
  `files.video` fails with 500.

External behaviour is passed in as function-typed parameters. This covers
ObjectId validity, JWT signing and verification, bcrypt comparison and
sending mail. Store-assigned ids are parameters too, each required to be
fresh.

## Model

| member | source | states |
|---|---|---|
| Universities.CacheKeysDistinct | src/controllers/admin/university.controller.ts:143-148 | `university-<id>` keys are injective in the id, and none equals `universities-list`, so dropping one key never drops another |
| Universities.SoftDeleted | src/controllers/admin/university.controller.ts:180-209 | a soft-delete keeps every key and every document's fields; a document ends up deleted iff it was deleted before or its id was marked |
| Universities.SoftDeletedTwice | src/controllers/admin/university.controller.ts:198-205 | two successive soft-deletes equal one soft-delete of the union of the id sets |
| Universities.TracksOf | src/controllers/admin/university.controller.ts:180-182 | exactly the stored tracks whose university is the given one, deleted or not |
| Universities.SemestersOfTrack | src/controllers/admin/university.controller.ts:189-191 | exactly the stored semesters the track lists; listed ids with no stored semester are dropped |
| Universities.SubjectsOfSemester | src/controllers/admin/university.controller.ts:198-205 | exactly the stored subjects the semester lists; listed ids with no stored subject are dropped |
| Universities.CascadeReachesDescendants | src/controllers/admin/university.controller.ts:180-209 | every track of the university, every stored semester such a track lists and every stored subject such a semester lists ends up marked deleted |
| Universities.UniversityStore.CreateUniversity | src/controllers/admin/university.controller.ts:13-35 | a schema failure gives 400 "Invalid data" and a missing admin gives 400 "Admin id is required", both creating nothing; otherwise exactly one undeleted university with the submitted name, the uploaded logo and the caller's admin id is added, with 201; every cached university stays equal to its stored document |
| Universities.UniversityStore.GetAllUniversities | src/controllers/admin/university.controller.ts:37-60 | no principal gives 400; a cached list is returned with 200; on a miss no reply is sent |
| Universities.UniversityStore.GetUniversityById | src/controllers/admin/university.controller.ts:62-94 | no admin gives 400 and an invalid id gives 400, before the cache is read; a hit returns the cached value with the cache unchanged; a miss on an absent record gives 404 with the cache unchanged; a miss on a present record, deleted or not, returns it and caches it under its key; every cached university stays equal to its stored document, and while that holds a successful read returns the stored document |
| Universities.UniversityStore.UpdateRejection | src/controllers/admin/university.controller.ts:96-121 | the guards in order (400 schema, 401 no admin, 400 invalid id, 404 missing, 400 deleted, 401 not the owner); it yields no error iff every guard passes |
| Universities.UniversityStore.UpdateUniversity | src/controllers/admin/university.controller.ts:96-153 | a rejected update changes neither store nor cache; a successful one changes only the name, and the logo when a new one was uploaded, and removes exactly `university-<id>` and `universities-list` from the cache; every cached university stays equal to its stored document |
| Universities.UniversityStore.SoftDeleteTracks | src/controllers/admin/university.controller.ts:180-209 | the outer loop leaves the tracks, semesters and subjects equal to their soft-deletes over the tracks of the university and the semesters and subjects they reach |
| Universities.UniversityStore.SoftDeleteSemesters | src/controllers/admin/university.controller.ts:193-207 | the inner loop soft-deletes exactly the listed semesters and the stored subjects they list |
| Universities.UniversityStore.MarkUniversityDeleted | src/controllers/admin/university.controller.ts:164-223 | the university and its whole cascade are soft-deleted, nothing is removed, and both cache keys are gone; every cached university stays equal to its stored document |
| Universities.UniversityStore.DeleteUniversity | src/controllers/admin/university.controller.ts:155-228 | an invalid id gives 400 and no admin gives 401; it succeeds iff the id, the caller's admin id and isDeleted=false all match, and otherwise gives 400 "Could not delete university" and changes nothing; success replies 200 with the list key and performs the cascade; customer details are never touched; every cached university stays equal to its stored document |
| Universities.RenameThenRead | src/controllers/admin/university.controller.ts:123-148 | after a successful rename a read of the same university returns the new name, whatever the cache held |
| Universities.DeleteTwice | src/controllers/admin/university.controller.ts:164-178 | a second delete of a deleted university fails with 400 |
| JwtMiddleware.IndexOf | src/middlewares/verifyJwt.ts:22-25 | the result is the first index where the pattern occurs, or none when it occurs nowhere |
| JwtMiddleware.ReplaceFirst | src/middlewares/verifyJwt.ts:22-25 | without an occurrence the string is unchanged; otherwise the first occurrence, and only it, is replaced and both sides around it are kept |
| JwtMiddleware.ExtractToken | src/middlewares/verifyJwt.ts:22-28 | an absent header gives no token; the first "Bearer ", wherever it occurs, is cut out and the rest joined; a header starting with "Bearer " gives the rest of it; a header without "Bearer " is the token itself; an empty result counts as no token |
| JwtMiddleware.CaughtToError | src/middlewares/verifyJwt.ts:55-66 | every caught error becomes a 400; expired, not-before and other token errors map to their own messages (each iff), and everything else, the 404 included, to "Internal Server Error" |
| JwtMiddleware.VerifyJwt | src/middlewares/verifyJwt.ts:21-67 | no token gives 401 and changes nothing; a rejected token gives the mapped 400; a found customer is set and `next` is called once, leaving `req.admin` alone; a found admin likewise; a missing or uncastable principal gives 400 "Internal Server Error"; any other role sets nothing, calls nothing and throws nothing |
| CoursesController.GetAllCoursesRoute | server/src/modules/courses/courses.controller.ts:51-62 | no role check; limit and skip reach the service unchanged |
| CoursesController.SearchCoursesRoute | server/src/modules/courses/courses.controller.ts:64-76 | no role check; q, limit and skip reach the service unchanged |
| CoursesController.GetCourseBySlugRoute | server/src/modules/courses/courses.controller.ts:78-87 | no role check; the slug reaches the service unchanged |
| CoursesController.CreateCourseRoute | server/src/modules/courses/courses.controller.ts:89-132 | an unexpected file (a second video or thumbnail, or another field) gives 400 "Unexpected field" first; then DTO validation fails with 400; a missing user gives 500; a non-admin gets 403; an admin request with no files at all gives 500; an admin missing video or thumbnail gets 400; the service is called, with the user, files and DTO, iff all checks pass |
| CoursesController.ToggleCoursePublishRoute | server/src/modules/courses/courses.controller.ts:134-151 | Forbidden precedes the invalid-id 400; the service gets the id iff the caller is admin and the id is valid |
| CoursesController.RemoveAllRoute | server/src/modules/courses/courses.controller.ts:153-172 | a non-admin gets 403; an empty ids list gives 400 COURSE_ID_NOT_FOUND; deleteManyById receives exactly the ids iff the caller is admin and the list is non-empty |
| CoursesController.RemoveRoute | server/src/modules/courses/courses.controller.ts:174-188 | the role check precedes the id check; deleteById gets the id iff both pass |
| CoursesController.NonAdminNeverMutates | server/src/modules/courses/courses.controller.ts:110-187 | no create, publish-toggle or delete route reaches the service for a non-admin |
| Auth.GenerateJwtToken | server-nestjs/src/modules/auth/auth.service.ts:31-42 | the token is what `sign` makes of a payload of exactly the user's id and email, the configured secret and a "7d" lifetime |
| Auth.TokenDependsOnIdAndEmailOnly | server-nestjs/src/modules/auth/auth.service.ts:31-42 | the signed payload is exactly the id and the email, with a "7d" lifetime; two users agreeing on those and signed in the same second get the same token |
| Auth.SetMilliseconds | server-nestjs/src/modules/auth/auth.service.ts:58 | the result is valid iff it stays within the Date range; it is `ms` plus the time rounded down to a whole second |
| Auth.CookieExpiry | server-nestjs/src/modules/auth/auth.service.ts:57-58 | the expiry is never earlier than a week after a non-negative `now`, and is exactly a week later within the first second of 1970 |
| Auth.ExpiryOvershootsWeek | server-nestjs/src/modules/auth/auth.service.ts:57-58 | from `now` >= 1000 on, the expiry is not `now` plus a week but that plus `now` rounded down to a whole second, and it is a valid date up to 4e15 |
| Auth.ExpiryExample | server-nestjs/src/modules/auth/auth.service.ts:57-58 | a login at 1700000000123 ms gets a cookie expiring at 3400604800123 ms |
| Auth.Login | server-nestjs/src/modules/auth/auth.service.ts:56-76 | the user is returned unchanged; the cookie is the http-only, lax `access_token` holding the user's token, secure and on the production domain exactly in production, and expiring at `CookieExpiry(now)` |
| Auth.RethrownByVerifyEmail | server-nestjs/src/modules/auth/auth.service.ts:149-152 | a 404 is rethrown as it is; every other error becomes a 400 with the same message |
| Auth.VerifyEmailCatchKeepsOwnErrors | server-nestjs/src/modules/auth/auth.service.ts:134-153 | the 400 and 404 errors verifyEmail raises itself leave its catch block unchanged |
| Auth.AuthService.VerifyUser | server-nestjs/src/modules/auth/auth.service.ts:44-54 | the user is returned iff it exists and the password check succeeds; a failed check gives 400 "Invalid email or password" |
| Auth.AuthService.RequestForgotPassword | server-nestjs/src/modules/auth/auth.service.ts:88-103 | an unknown email gives 404 and stores nothing; otherwise the freshly generated token is mailed, and only if the mail succeeds is it stored as the user's jwtToken and the mail result returned; every user stays stored under its own email |
| Auth.AuthService.ConfirmForgotPassword | server-nestjs/src/modules/auth/auth.service.ts:105-132 | in order: 404 unknown email, 400 "Invalid token" when the token differs from the stored one, 400 on a password mismatch; any failure changes nothing; it succeeds iff all pass, setting the password and clearing the token; every user stays stored under its own email |
| Auth.AuthService.VerifyEmail | server-nestjs/src/modules/auth/auth.service.ts:134-153 | an empty email gives 400, an unknown one 404, a wrong token 400; failures change nothing; it succeeds iff all pass, setting verified and clearing the token; every user stays stored under its own email |
| Auth.ReplayedResetFails | server-nestjs/src/modules/auth/auth.service.ts:114-124 | after a successful confirmation, replaying the same token gives 400 "Invalid token": the token is single-use |
| Auth.ResetWithoutTokenAfterReset | server-nestjs/src/modules/auth/auth.service.ts:114-123 | after a successful confirmation, a request carrying no token passes the token check and resets the password again |
| Auth.RequestThenConfirm | server-nestjs/src/modules/auth/auth.service.ts:88-124 | the token stored by a successful forgot-password request confirms the reset, which clears it |
| Wallets.NewWallet | src/controllers/user/wallet.controller.ts:14 | a new wallet belongs to the user and has a zero balance and no transactions |
| Wallets.AddingFirstWalletKeepsOnePerUser | src/controllers/user/wallet.controller.ts:9-14 | adding a wallet for a user who has none keeps at most one wallet per user, and the user now has one |
| Wallets.WalletStore.CreateWallet | src/controllers/user/wallet.controller.ts:6-19 | an existing wallet for the user gives "Wallet already exists for this user" and no change; otherwise exactly one new wallet is added with 201; one wallet per user is preserved |
| Wallets.WalletStore.GetWallet | src/controllers/user/wallet.controller.ts:21-31 | it succeeds iff the user has a wallet, returning a stored wallet of that user; otherwise "Wallet not found" |
| Wallets.WalletStore.UpdateWalletBalance | src/controllers/user/wallet.controller.ts:33-54 | an invalid id or a missing wallet gives an error and no change; otherwise only the balance changes, by exactly `amount` of any sign, whoever owns the wallet; one wallet per user is preserved |
| Wallets.WalletStore.DeleteWallet | src/controllers/user/wallet.controller.ts:56-68 | an invalid id or a missing wallet gives an error and no change; otherwise exactly that wallet is removed, whoever owns it |
| Wallets.DeleteWalletTwice | src/controllers/user/wallet.controller.ts:59-63 | a second delete of the same wallet fails with "Wallet not found" |
| Notes.NotesFor | src/controllers/user/addNotes.controller.ts:13 | exactly the stored notes whose user and course both match, unchanged |
| Notes.NotesForAfterStore | src/controllers/user/addNotes.controller.ts:26-36 | storing a note adds it to exactly its own user's and course's filter and removes its id from every other filter |
| Notes.NotesForAfterRemove | src/controllers/user/addNotes.controller.ts:74-78 | removing a note takes it out of its filter and leaves every filter otherwise unchanged |
| Notes.NoteStore.GetNotes | src/controllers/user/addNotes.controller.ts:7-20 | an invalid courseId gives an error; otherwise success, even when empty, with exactly the caller's notes for that course |
| Notes.NoteStore.CreateNote | src/controllers/user/addNotes.controller.ts:22-43 | the id check precedes body validation; on success exactly one note with the caller's user id, the course id and the text is added |
| Notes.NoteStore.UpdateNote | src/controllers/user/addNotes.controller.ts:45-69 | an invalid id, an invalid body or a missing note gives an error and no change; otherwise only that note's text changes, whoever owns it |
| Notes.NoteStore.DeleteAddNotes | src/controllers/user/addNotes.controller.ts:71-83 | an invalid id or a missing note gives an error and no change; otherwise exactly that note is removed, whoever owns it |
| Notes.CreateThenList | src/controllers/user/addNotes.controller.ts:7-43 | a note just created is listed among its user's notes for its course |

## Left out

- The React front-ends (admin and user web apps) are user interface with no backend logic.
- `src/app.ts` is router wiring only.
- `logout` in the auth service clears a cookie and returns a constant. It has no guard and touches no stored state.
- The cookie-before-header token precedence of the NestJS JWT strategy is library configuration. The model takes the user a route receives as an input.
- `server/src/models/admin/admin.model.ts` only hashes and signs through library calls.
- `server-nestjs/src/modules/courses/courses.service.ts` is Cloudinary uploads, file cleanup and database queries. Each course route stops at the service call it makes.
- The node-cache time-to-live and check period need a clock. The cache is a map without expiry.
- JWT signing and verification, bcrypt comparison, ObjectId validity and mail sending are external functions passed as parameters. Setting and clearing cookies on the response, and deleting the old logo file (`fs.unlinkSync`), have no stored state to model.
- Concurrency and partial failure are out of scope. Each handler runs atomically, and a failed save in the middle of the cascade is not modelled.
- Store and database errors are not modelled: `University.create` and `save` failing, the "Could not create university" and "Could not update university" branches they guard, and errors that `dbHandler` would turn into responses. (`findOneAndUpdate` matching nothing is modelled, as `DeleteUniversity`'s 400.)
- `Universities.UniversityStore.GetAllUniversities`: the `University.find` query on a cache miss, and its "Could not get all universities" branch, are not modelled, because its result is never used or sent.
- Ids are assumed to arrive in one canonical spelling. `findById` casts the request string to an ObjectId, so two spellings of one hexadecimal id (upper and lower case) find the same document but use two cache keys; the model keys both the collections and the cache by the raw string, so it cannot show one spelling's cache entry going stale after an update through the other.
- Schema contents (the zod schemas and the NestJS DTO validators) are inputs: each body arrives already parsed as `Valid(data)` or `Invalid(message)`. The zod error details attached to a 400 are dropped.
- `Wallets.NewWallet`: the wallet schema's defaults are taken to be a zero balance and no transactions, because the schema file is not part of this model.
- `Notes.NoteStore.GetNotes`: the notes come back as a map from id to note, so the order of the array `AddNotes.find` returns is not modelled.
- `Wallets.WalletStore.GetWallet`: the `populate("transactions")` join is not modelled; the wallet is returned with its transaction ids.
- `Wallets.WalletStore.UpdateWalletBalance`: `amount` is an unbounded integer, so floating-point sums and casts of the request value are not modelled.
- Handlers take the id of `req.user`, `req.admin` or `req.customer` as an input. A user handler reached without a user is not modelled.
- `Auth.AuthService.VerifyUser`: the users service returning null for an unknown email is assumed, because the users service is not part of this model. The ensuing TypeError is represented as 500.
- A missing `JWT_SECRET` (`getOrThrow`) is not modelled; the secret is an input.
- `Auth.CookieExpiry`: the server's offset from UTC is assumed to be the same whole number of seconds at login time and at the computed expiry (a server running in UTC, for one). `setMilliseconds` converts back with the offset in force at the new local time, so across a daylight-saving change the real expiry differs from the modelled one by the change (one hour earlier for `Auth.ExpiryExample` on a server in America/New_York).
- Message constants defined outside this core (`USERS_MESSAGES.FORBIDDEN`, `invalidMongodbId`, `COURSES_MESSAGES.COURSE_ID_NOT_FOUND`) are represented by their names.
- The `isDeleted` field of a new university is taken as false, the schema default.
