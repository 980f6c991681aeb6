# Authentication policy layer, modelled and proved in Dafny

This project models the authentication policy of a small user-management API
server (TypeScript, Hono, MongoDB) and proves properties of that model. It has
four parts:

- **Password strength evaluation** (`PasswordValidator`, `password_validator.dfy`).
  - A password scores one point for a length of 8 or more and one more for 12 or more. Lengths are JavaScript string lengths: UTF-16 code units, so a character outside the Basic Multilingual Plane counts twice.
  - It scores one point for each character class present: upper case, lower case, digit, and a special character from a fixed set.
  - A run of three equal code units, other than line terminators, costs one point.
  - Containing one of five common patterns costs two points, but never takes the score below zero.
  - The score is mapped to one of five tiers, and each tier has a color and a Korean label.
  - Validity is a separate gate: a length of at least 8 and at least three of the four classes.
  - `ValidatePassword` is the step-by-step method. It updates a score and a hint list, and is proved equal to the declarative function `Evaluate`. The lemmas are stated about `Evaluate`.
- **Login-attempt tracker** (`LoginAttempts`, `login_attempts.dfy`).
  - A table keyed by (email, IP address) counts failed logins.
  - An unlocked record with 5 or more attempts gets a 15-minute lock the next time it is checked.
  - A record whose lock has expired is deleted on the next check.
  - A cleanup operation removes unlocked records last touched more than 24 hours ago. Nothing in the server calls it; it is modelled as an operation a caller may run.
  - Every store error fails open.
  - The four operations are step functions over the table (`CheckAttempts`, `RecordFailure`, `ClearAttempts`, `CleanupOld`). The class `LoginAttemptTracker` updates its `records` field in place, and each of its methods is proved to produce exactly what the matching step function gives.
- **Request guards** (`AuthMiddleware`, `auth_middleware.dfy`).
  - `authMiddleware` extracts a Bearer token, verifies it, stores the payload as the request's user and calls the next handler.
  - `adminMiddleware` calls the next handler only for the role `admin`.
  - Their effects on the request context are recorded as a trace of events.
- **Authentication handlers** (`AuthApi`, `auth_api.dfy`).
  - The handlers are register, login, forgot-password, reset-password, change-password and delete-account, plus the admin operations that change one role, delete many users or change many roles.
  - They live in the class `AuthService`. Its fields are the `users` collection (a sequence in natural order; `findOne` is "first match"), the append-only activity log, the next document id, and a login-attempt tracker.
  - Every handler states its response and its new state on every branch.
  - The collection invariant is kept throughout: ids are below the next id and distinct. Emails are not in it: register refuses an email some user has, but the admin routes that create and edit users do not look. Those two routes are also why every modelled user has a password hash only by assumption: `POST /users` inserts a user without a `password` field, and `PUT /users/:id` can `$set` any field. Login, change-password and delete-account against such a user would pass `undefined` to `comparePassword`, whose behaviour then is not part of this model, so those states are not represented.

`Options` holds the optional-value type and JavaScript truthiness of optional
strings. `Jwt` holds the token payload and the abstract signer and verifier.

Times are integer milliseconds, passed in as `now`. Randomness enters as
parameters: the bcrypt salt (`salt`) and the freshly generated reset token
(`resetToken`). The hashing, comparison, digest and signing functions are values of the
`Crypto` datatype, which the model never interprets.

Points where the code behaves differently from what a reader of the routes might expect, and the model follows the code:

- **No activity-log entry** is written by register, forgot-password, reset-password or delete-account. Only login, change-password and the three admin operations write one.
- **`recordFailedLogin` increments** even when the record is locked.
- **Register stores any truthy `role`** from the request body. It does not restrict it to `user`. `RegisteredRole` states this.
- **Change-password checks the new password's strength first.** It does so before looking up the caller and before comparing the current password.
- **The fallback hint is never emitted.** It is the hint "use three of upper case, lower case, digits and special characters". A password that reaches the gate with a length of 8 or more and fails it misses at least two classes, so it already carries two hints. `GenericHintNeverNeeded` proves this.
- **A write error in the check fails open.** If the write that would set the lock fails, the check answers "allowed" (`CheckFailsOpen`). A store that keeps failing on writes therefore never locks a pair.

## Model

| member | source | states |
|---|---|---|
| PasswordValidator.ValidatePassword | api/src/utils/passwordValidator.ts:8-95 | the step-by-step evaluation (early return for short passwords, increments and decrements of the score, hint pushes, tier, gate, fallback hint, clamp) returns exactly `Evaluate(password)` |
| PasswordValidator.HintText | api/src/utils/passwordValidator.ts:14-86 | every hint has a non-empty Korean text |
| PasswordValidator.FeedbackTexts | api/src/utils/passwordValidator.ts:9-92 | the `feedback` array holds the text of each hint, in the hints' order |
| PasswordValidator.HintTextsDistinct | api/src/utils/passwordValidator.ts:14-86 | no two hints share a text |
| PasswordValidator.FeedbackTextsDetermineHints | api/src/utils/passwordValidator.ts:9-92 | two hint lists with the same texts are the same list, so the texts in a response say exactly which hints were earned |
| PasswordValidator.CheckClass | api/src/utils/passwordValidator.ts:28-53 | one class test adds a point when the class is present and pushes its hint when it is missing |
| PasswordValidator.CheckPenalties | api/src/utils/passwordValidator.ts:56-66 | the repeat test takes one point and pushes the run hint; the common-pattern test takes two points, floored at zero, and pushes its hint |
| PasswordValidator.StrengthFor | api/src/utils/passwordValidator.ts:69-74 | the tier chosen by the if-chain is `TierOf(score)` |
| PasswordValidator.ClassCount | api/src/utils/passwordValidator.ts:77-82 | the number of classes present is at most four; it is four exactly when all four classes occur and zero exactly when none does |
| PasswordValidator.LowerChar | api/src/utils/passwordValidator.ts:63 | ASCII lowering maps `A`-`Z` to `a`-`z` and leaves every other character alone |
| PasswordValidator.ToLower | api/src/utils/passwordValidator.ts:63 | lowering keeps the length and lowers each character in place; the result has no upper-case letter, and its lower-case letters are exactly the positions that held a letter |
| PasswordValidator.Utf16 | api/src/utils/passwordValidator.ts:13 | the UTF-16 encoding is between one and two units per character, and exactly one per character when none is outside the Basic Multilingual Plane |
| PasswordValidator.CodeUnitsOf | api/src/utils/passwordValidator.ts:13 | a character in the Basic Multilingual Plane is one unit, its own code; any other is a high surrogate followed by a low surrogate |
| PasswordValidator.Utf16Append | api/src/utils/passwordValidator.ts:13 | encoding a concatenation concatenates the encodings |
| PasswordValidator.BmpRunIsRepeat | api/src/utils/passwordValidator.ts:56 | three equal consecutive characters in the Basic Multilingual Plane that are not line terminators are a run |
| PasswordValidator.AstralCharactersCountTwice | api/src/utils/passwordValidator.ts:13-25 | "Aa1" followed by three emoji is 9 units long, so it passes the length gate with score 4, only the special-character hint and tier strong |
| PasswordValidator.EmojiPasswordClasses | api/src/utils/passwordValidator.ts:28-53 | that password has upper case, lower case and a digit, and no special character |
| PasswordValidator.EmojiPasswordNoRun | api/src/utils/passwordValidator.ts:13-56 | that password is 9 units long and has no run |
| PasswordValidator.EmojiPasswordNotCommon | api/src/utils/passwordValidator.ts:63 | that password contains no common pattern |
| PasswordValidator.AstralRunIsNoRepeat | api/src/utils/passwordValidator.ts:56 | five equal emoji in a row are no run, because the two halves of a surrogate pair differ |
| PasswordValidator.Utf16OfEmojiPassword | api/src/utils/passwordValidator.ts:13 | the units of "Aa1" followed by emoji are the three ASCII codes and then one surrogate pair per emoji |
| PasswordValidator.ShortPasswordRejected | api/src/utils/passwordValidator.ts:13-21 | under 8 code units: invalid, score 0, tier very-weak, exactly the one length hint |
| PasswordValidator.ScoreInRange | api/src/utils/passwordValidator.ts:91 | the reported score lies in 0..5 |
| PasswordValidator.ValidIffPolicy | api/src/utils/passwordValidator.ts:77-83 | valid exactly when the length is 8 or more and at least three of the four classes occur (both directions) |
| PasswordValidator.ValidityIgnoresPenalties | api/src/utils/passwordValidator.ts:56-66 | two passwords of equal length with the same classes get the same verdict, whatever runs or common patterns they contain |
| PasswordValidator.PenalisedButValid | api/src/utils/passwordValidator.ts:56-66 | a gate-passing password that has a run or a common pattern is still valid |
| PasswordValidator.HintIffEarned | api/src/utils/passwordValidator.ts:28-66 | for 8 or more code units, each class hint is present exactly when its class is missing, the run hint exactly when some code unit other than a line terminator repeats three times in a row, the common hint exactly when a common pattern occurs in the lowered password, and no other hint appears |
| PasswordValidator.GenericHintNeverNeeded | api/src/utils/passwordValidator.ts:85-87 | the feedback is the length hint for short passwords and otherwise only the class, run and common hints; the fallback hint never appears |
| PasswordValidator.InvalidHasFeedback | api/src/utils/passwordValidator.ts:85-87 | an invalid result always carries at least one hint |
| PasswordValidator.PenaltyBounds | api/src/utils/passwordValidator.ts:56-66 | the penalised score lies between 0 and the unpenalised points, and equals them when neither penalty applies |
| PasswordValidator.TierMatchesScore | api/src/utils/passwordValidator.ts:69-74 | the tier agrees with the reported score: at most 1 exactly for very-weak, 5 exactly for very-strong |
| PasswordValidator.StrengthColor | api/src/utils/passwordValidator.ts:97-106 | every tier has a color `#` followed by six lower-case hexadecimal digits, and no two tiers share one |
| PasswordValidator.StrengthText | api/src/utils/passwordValidator.ts:108-117 | every tier has a non-empty label and no two tiers share one |
| LoginAttempts.CeilDiv | api/src/utils/loginAttempts.ts:27 | the rounded-up quotient `q` is at least 1 and `(q - 1) * d < n <= q * d` |
| LoginAttempts.LoginAttemptTracker.CheckLoginAttempts | api/src/utils/loginAttempts.ts:14-59 | the in-place check returns and leaves exactly what `CheckAttempts` gives |
| LoginAttempts.LoginAttemptTracker.RecordFailedLogin | api/src/utils/loginAttempts.ts:61-94 | the in-place recording returns and leaves exactly what `RecordFailure` gives |
| LoginAttempts.LoginAttemptTracker.ClearLoginAttempts | api/src/utils/loginAttempts.ts:96-103 | the in-place delete leaves exactly `ClearAttempts` |
| LoginAttempts.LoginAttemptTracker.CleanupOldAttempts | api/src/utils/loginAttempts.ts:105-117 | the in-place cleanup leaves exactly `CleanupOld` |
| LoginAttempts.LoginAttemptTracker.constructor | api/src/utils/loginAttempts.ts:3-9 | the collection starts empty |
| LoginAttempts.CheckWithoutRecord | api/src/utils/loginAttempts.ts:19-23 | no record: allowed, nothing reported, table unchanged |
| LoginAttempts.CheckWhileLocked | api/src/utils/loginAttempts.ts:26-32 | an unexpired lock: denied with a minutes message, table unchanged, at least 1 minute, at most 15 when the lock is at most 15 minutes away |
| LoginAttempts.CheckAfterLockExpired | api/src/utils/loginAttempts.ts:35-38 | an expired lock: allowed, and exactly that key is deleted |
| LoginAttempts.CheckSetsLock | api/src/utils/loginAttempts.ts:41-51 | 5 or more attempts without a lock: denied with the too-many message, lock set to now + 15 minutes, last attempt now |
| LoginAttempts.CheckCounting | api/src/utils/loginAttempts.ts:53-54 | below 5 attempts and unlocked: allowed with `5 - attempts` remaining, table unchanged |
| LoginAttempts.CheckFailsOpen | api/src/utils/loginAttempts.ts:55-58 | a failed lookup allows and changes nothing; a failed write changes nothing and allows unless an unexpired lock was read |
| LoginAttempts.RecordFailureEffect | api/src/utils/loginAttempts.ts:66-93 | a new key gets one attempt and 4 reported; an existing key gains exactly one attempt, keeps its lock, and reports `max(0, 5 - new)`; other keys are untouched; a store error reports 0 and changes nothing |
| LoginAttempts.ClearRemovesOnlyKey | api/src/utils/loginAttempts.ts:96-100 | clearing removes exactly the given key and keeps every other record as it was |
| LoginAttempts.CleanupKeepsExactly | api/src/utils/loginAttempts.ts:105-113 | the cleanup keeps exactly the records that are locked or were touched in the last 24 hours, unchanged; locked records always survive |
| LoginAttempts.CheckPreservesValid | api/src/utils/loginAttempts.ts:14-59 | the check keeps every record at one attempt or more and locked only at five or more; any reported remaining count lies in 1..4 |
| LoginAttempts.RecordPreservesValid | api/src/utils/loginAttempts.ts:61-94 | recording keeps that table invariant |
| LoginAttempts.ClearAndCleanupPreserveValid | api/src/utils/loginAttempts.ts:96-117 | clearing and cleaning up keep that table invariant |
| LoginAttempts.FailuresAccumulate | api/src/utils/loginAttempts.ts:14-94 | successive failed logins (check, then record) on an unlocked pair add exactly one attempt each up to the maximum, leave the pair unlocked and touch no other pair |
| LoginAttempts.LockoutAndRelease | api/src/utils/loginAttempts.ts:26-51 | after five failed logins from a clean pair the next check is denied and locks for 15 minutes; checks before the expiry are denied; the first check at or after it is allowed and deletes the record |
| AuthMiddleware.BearerToken | api/src/middleware/auth.ts:7-12 | a token exists exactly for a header starting with `Bearer `, and then `"Bearer " + token` is the header, so the token is the header without its first 7 characters |
| AuthMiddleware.Authenticate | api/src/middleware/auth.ts:4-20 | the in-place guard appends exactly `AuthEvents` to the trace and sets the user only for a verified token |
| AuthMiddleware.RequireAdmin | api/src/middleware/auth.ts:22-30 | the in-place gate appends exactly `AdminEvents` and leaves the user as it was |
| AuthMiddleware.GuardAdminRoute | api/src/middleware/auth.ts:4-30 | an admin route runs the admin gate only after authentication calls `next`, and leaves in the user slot the verified payload, or the slot as it was when the token does not verify |
| AuthMiddleware.Context.constructor | api/src/middleware/auth.ts:18 | a request starts with no user and an empty trace |
| AuthMiddleware.AuthOutcomes | api/src/middleware/auth.ts:7-19 | `next` is called exactly when the Bearer token verifies, and it is preceded by storing that payload; otherwise one 401 response, "No token provided" for a missing or non-Bearer header, "Invalid token" for a failed verification |
| AuthMiddleware.VerifiedTokenIsHeaderSuffix | api/src/middleware/auth.ts:11-12 | the verified token is the header with its first 7 characters removed |
| AuthMiddleware.AdminGate | api/src/middleware/auth.ts:25-29 | `next` is called exactly for a present user whose role is `admin`; otherwise a single 403 |
| AuthMiddleware.AdminRouteReachedIff | api/src/middleware/auth.ts:4-30 | on an admin route the handler runs exactly when the token verifies to an admin payload, after that payload is stored |
| AuthApi.FindFirst | api/src/index.ts:28 | the lookup returns the first matching document, and returns none only when no document matches |
| AuthApi.RemoveIds | api/src/index.ts:659-662 | the survivors are exactly the documents whose id is not selected, and survivors plus selected make up the collection |
| AuthApi.CountIds | api/src/index.ts:660-662 | the selected count is at most the collection size; it is zero exactly when no document is selected and the collection size exactly when every one is |
| AuthApi.SetRoles | api/src/index.ts:741-750 | the bulk update keeps the length and order; unselected documents are unchanged; selected ones get the role and update time and keep every other field |
| AuthApi.RemoveAt | api/src/index.ts:589 | removing one position shifts the later documents down by one and keeps the earlier ones |
| AuthApi.ClientIp | api/src/index.ts:84 | the address is `x-real-ip` when truthy, else `x-forwarded-for` when truthy, else `unknown`; never empty |
| AuthApi.Positive | api/src/index.ts:99 | the remaining count is shown exactly when it is positive, and then as itself |
| AuthApi.RegisteredRole | api/src/index.ts:49 | a non-empty requested role is stored as given; an absent or empty one becomes `user` |
| AuthApi.RoleAccepted | api/src/index.ts:604-606 | the role guard accepts exactly `user` and `admin` |
| AuthApi.AuthService.constructor | api/src/index.ts:14-17 | the service starts with no users, no log entries, and an empty tracker |
| AuthApi.AuthService.Register | api/src/index.ts:22-77 | an existing email gets 400 before any validation; a missing password gets 500; a weak password gets 400 with the texts of the validator's feedback; all three insert nothing; otherwise exactly one new user is appended with the hashed password, the requested-or-`user` role and a fresh id, and the 201 response carries the token and the user without its hash |
| AuthApi.AuthService.Login | api/src/index.ts:80-150 | a denied check gives 429 with the tracker's message, and the outcome is the same whatever the credentials; an unknown email or a wrong password gives 401 "Invalid credentials" and records exactly one failure; the remaining count is shown only when positive, and only the wrong-password branch adds the message; success clears the pair, appends exactly one login log entry and returns the token and the public user; the users never change |
| AuthApi.AuthService.ForgotPassword | api/src/index.ts:341-381 | the same message either way; an unknown email changes nothing; a known one gets the token's digest and an expiry of now + 3600000, and the response carries the token and its reset URL |
| AuthApi.AuthService.ResetPassword | api/src/index.ts:384-437 | 400 unless some user holds the supplied token's digest with an expiry after now; a weak password gives 400 and a missing one 500, both leaving the users as they were; success replaces the password hash and removes both reset fields of that user only |
| AuthApi.AuthService.ChangePassword | api/src/index.ts:497-560 | missing fields give 400; a weak new password gives 400 with the feedback texts and the tier; a missing caller gives 404; a wrong current password gives 401; none of them changes anything; success updates only the caller's hash and appends one password-change entry |
| AuthApi.AuthService.DeleteAccount | api/src/index.ts:563-595 | a missing password gives 400, a missing caller 404, a wrong password 401, all without change; success removes exactly the caller's record |
| AuthApi.AuthService.UpdateRole | api/src/index.ts:598-647 | a role other than `user` or `admin` gives 400 and no change; an unknown id gives 404; otherwise only that user's role and update time change and one role-change entry is appended, naming the target's id and name |
| AuthApi.AuthService.BulkDelete | api/src/index.ts:650-682 | a missing, non-array or empty `userIds` gives 400 and no change; otherwise the selected users are removed, the deleted count is reported and one entry is appended |
| AuthApi.AuthService.BulkRole | api/src/index.ts:728-772 | the `userIds` guard, then the role guard, each give 400 and no change; otherwise the selected users get the role, the modified count is reported and one entry is appended |
| AuthApi.EmailLookupUnique | api/src/index.ts:93 | a corollary of `FindFirst`: where emails are distinct, the user that login finds is the only one with that email |
| AuthApi.DeleteRemovesOnlyCaller | api/src/index.ts:574-589 | deleting the caller's record removes exactly one record, and the survivors are exactly the records with other ids |
| AuthApi.ResetTokenLifetime | api/src/index.ts:360-368 | a token written by forgot-password is found by a reset before its expiry and does not match from the expiry on; a reset user matches no later reset query |
| AuthApi.RemoveIdsKeepsValid | api/src/index.ts:659-662 | bulk deletion keeps the ids below the next id and distinct |
| AuthApi.RemoveAtKeepsValid | api/src/index.ts:589 | deleting one record keeps the ids below the next id and distinct |
| AuthApi.PrependKeepsValid | api/src/index.ts:659-662 | a record whose id is new and below the next id keeps the collection invariant when put in front |

## Left out

- **HTTP and JSON.** Request parsing, routing and the serialisation of responses are not modelled. A handler's inputs are its body fields as parameters, and its output is a status with a structured body.
- **Store errors in the `users` collection.** The 500 responses that would come from database failures are not modelled, and neither are failures of the activity-log insert, which `createActivityLog` swallows. Store errors are modelled only for the login-attempt collection.
- **Undefined fields.**
  - Register's name, email and country, login's email and password, and forgot-password's email are always present strings in the model. The server passes these emails to `findOne` unchecked.
  - Reset-password's `token` is always a present string. The server passes `body.token` to `hashResetToken` unchecked; what that function does with `undefined` (a digest or an exception) is not modelled.
  - Register's password, the reset password, and the change-password and delete-account fields are optional, as the server handles them.
  - A missing password in register and in reset is modelled as the exception it causes, with its 500 response.
  - A stored user always has a password hash. A user created by `POST /users` has none, and `PUT /users/:id` can overwrite any field; such users are not represented, because `comparePassword` on `undefined` is not part of this model.
- **Document ids.** They are natural numbers assigned in order, not ObjectIds. The parsing of id strings and its exceptions are not modelled, and neither is the hex form of an id in a token.
- **Abstract collaborators.** `utils/password` and `utils/resetToken` are not part of this model: hashing, comparing, the digest and random token generation are uninterpreted. JWT signing and verification (secret, expiry, claims checking) are abstract functions too.
- **Unobservable calls.** A skipped lookup or a skipped `comparePassword` call is not visible in the model. The model states instead that the response and the new state do not depend on what those calls would return.
- **Texts.**
  - The lock messages carry the minute count, or name the too-many case, instead of the interpolated Korean text.
  - The fixed success messages are left out of the response bodies: "User registered successfully" (register), "Login successful" (login) and "역할이 변경되었습니다" (role change). So are the interpolated messages of the two bulk routes, which only restate the reported count.
  - The wrong-password 401's `message`, an interpolated Korean sentence, is kept only as the count it shows (`attemptsLeftMessage`).
  - Activity-log descriptions, which are interpolated strings, are left out. The other fields of each entry are kept, including the target's name in a role-change entry; the bulk entries' `metadata` is kept as the `newRole`, `userIds` and `count` fields.
- **Unicode.** `toLowerCase` is ASCII lowering. For the five patterns this gives the verdict of full Unicode lowering, by an argument the model does not prove: the only non-ASCII characters whose lower case holds an ASCII letter are the Kelvin sign (to `k`, which no pattern contains) and capital I with dot above (to `i` and a combining dot, while every `i` in a pattern is followed by `n`). Strings are sequences of Unicode scalar values, so a lone surrogate, which a JavaScript string can hold, is not modelled.
- **Concurrency.** Two requests interleaving on the same attempt key, and the await points between a lookup and its write, are not modelled.
- **Other routes.** The status routes are not in this model, and neither are the profile and session routes, the projects routes, the plain user list, user create, update and delete, the activity-log queries, and the MongoDB connection lifecycle.
- **Clock.** Each call reads the clock once, as `now`, and that one value stands for every clock read of the call. The source reads the clock again after awaited store round trips (the lock expiry and the last-attempt times, the activity-log time), so its stored times can be later than the time it checked against.
- AuthApi.AuthService.BulkRole: reports the number of selected users, MongoDB's matched count. The source reports `modifiedCount`, which leaves out a selected document that the update does not change, one that already has the role and whose `updatedAt` already equals the new time.
