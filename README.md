# A verified model of the delivery-logistics application

The application is a package-delivery system. A Java backend answers the
HTTP API: log-in with lockout, multi-factor codes and rate limiting,
sessions, Bell-LaPadula clearance checks, input sanitising and validation,
route assignment, driver deliveries, package edits, inventory and
facility-to-facility transfers. A single-page frontend in plain JavaScript
holds the router, the log-in and registration forms and the screens for
managers, drivers and staff. This project models the core of both halves in
Dafny and proves what each part promises.

Each source file is one module:

- **Backend security**: `SecurityLevels`, `BLPAccessControl`, `RateLimiter`,
  `InputSanitizer`, `PasswordManager`, `InputValidator`, `LoginLockout`,
  `MfaManager`.
  - `SecurityManager.java` nests its own copies of these. They are modelled
    separately as `SmSecurityLevel`, `SmAuditLogger`, `SmLoginLockout`,
    `SmInputSanitizer`, `SmMfaManager`, `SmPasswordManager` and
    `SmRateLimiter`. BLP is shared with `BLPAccessControl`.
- **Backend utilities**: `ResultModel` (the Rust-style `Result`),
  `Validation` (`ValidationResult`), `SessionManager`, `EnvLoader`,
  `StaticFileHandler` and `RouteRequest`.
- **Backend services and DAO**: `TransferDao`, a state machine over the
  packages, transfers and inventory tables. `TransferService` and
  `InventoryService` are the guard ladders in front of the DAOs.
- **Controllers**: `ManagementController`, `AdminController`,
  `DriverController`, `PackageController`, `InventoryController`,
  `TransferController` and `AuthenticationController`. `JsonHelpers` holds the
  `parseJson`/`escapeJson` helpers that each controller carries a copy of.
- **Frontend**: `Router`, `AuthPage`, `RegisterPage`, `ManagementPage`,
  `DriverPage`, `InventoryPage`, `RoutingPage`, `TrackingPage` and
  `OrderManagementPage`. `PageCommon` holds what the screens share.
- **Language support**: `Wrappers` (`Option`; `Outcome` for a call that may
  throw), `JavaStrings` (Java and JavaScript string semantics) and `Patterns`
  (the regular expressions, written out as predicates and rewrites).

Modelling conventions:

- Code that updates state step by step is a `class`. Its methods are proved
  against specification functions of the old state. These include the rate
  limiters, lockouts, MFA stores, session store, router and page screens.
- Pure code is functions and lemmas.
- A Java `null` is `None`. A thrown exception is `Outcome.Threw` with the
  exception's class.
- The following are parameters: the clock, randomness, database connection
  outcomes, DAO answers, fetch replies and the user's answers to dialogs.

## Model

| member | source | states |
|---|---|---|
| `ResultModel.Result.Unwrap` | backend/src/com/delivery/util/Result.java:54-59 | returns exactly on Ok, giving its value; on Err it throws "Called unwrap on Err" |
| `ResultModel.Result.UnwrapOr` | backend/src/com/delivery/util/Result.java:61-66 | the Ok value, or the default for an Err |
| `ResultModel.Result.UnwrapErr` | backend/src/com/delivery/util/Result.java:68-73 | returns exactly on Err, giving its error; on Ok it throws "Called unwrapErr on Ok" |
| `ResultModel.Result.Map` | backend/src/com/delivery/util/Result.java:75-80 | keeps the variant; an Ok value goes through the mapper, an error passes unchanged |
| `ResultModel.Result.MapErr` | backend/src/com/delivery/util/Result.java:82-87 | keeps the variant; an error goes through the mapper, an Ok value passes unchanged |
| `ResultModel.OkErrComplementary` | backend/src/com/delivery/util/Result.java:45-51 | `isOk` and `isErr` always disagree |
| `ResultModel.UnwrapMirror` | backend/src/com/delivery/util/Result.java:54-73 | `unwrap` returns exactly when `unwrapErr` throws, and `unwrapOr` agrees with `unwrap` when it returns and gives the default when it throws |
| `ResultModel.MapLaws` | backend/src/com/delivery/util/Result.java:75-87 | mapping twice is mapping by the composition, mapping by the identity changes nothing, and `mapErr` does not disturb an Ok |
| `Validation.AppendedExtends` | backend/src/com/delivery/util/ValidationResult.java:11-17 | `addError` keeps the text so far as a prefix, puts "; " after it only when it was non-empty, and ends the text with the new message |
| `Validation.RunIsSinceReset` | backend/src/com/delivery/util/ValidationResult.java:11-34 | after any sequence of `addError` and `reset` calls the object is valid exactly when no error was added since the last reset, and its text is built from exactly those errors in order |
| `Validation.ResetRestoresFresh` | backend/src/com/delivery/util/ValidationResult.java:31-34 | a reset returns the object to its freshly constructed state, whatever came before |
| `Validation.ErrorTextIsJoin` | backend/src/com/delivery/util/ValidationResult.java:11-17 | with non-empty messages the error text is the messages joined by "; ", and it is non-empty once one was added |
| `Validation.EmptyMessageAddsNoSeparator` | backend/src/com/delivery/util/ValidationResult.java:13-16 | an empty first message leaves the text empty, so the next message is appended without a separator |
| `Validation.ValidationResult.constructor` | backend/src/com/delivery/util/ValidationResult.java:8-9 | a new object is valid with empty error text |
| `Validation.ValidationResult.AddError` | backend/src/com/delivery/util/ValidationResult.java:11-17 | the new state is one `addError` step from the old: invalid, and the text extended as above |
| `Validation.ValidationResult.IsValid` | backend/src/com/delivery/util/ValidationResult.java:19-21 | the validity flag of the current state |
| `Validation.ValidationResult.GetErrors` | backend/src/com/delivery/util/ValidationResult.java:23-25 | the accumulated error text of the current state |
| `Validation.ValidationResult.HasErrors` | backend/src/com/delivery/util/ValidationResult.java:27-29 | always the negation of `isValid` |
| `Validation.ValidationResult.Reset` | backend/src/com/delivery/util/ValidationResult.java:31-34 | the new state is one `reset` step from the old: valid with empty text |
| `SecurityLevels.Ordinal` | backend/src/com/delivery/security/SecurityLevel.java:4-8 | `ordinal()` is the constant's position in the declaration list |
| `SecurityLevels.Name` | backend/src/com/delivery/security/SecurityLevel.java:4-8 | `name()` is a non-empty identifier made of upper-case letters and '_' |
| `SecurityLevels.NameInjective` | backend/src/com/delivery/security/SecurityLevel.java:4-8 | two constants have the same name exactly when they are the same constant |
| `SecurityLevels.NamesListed` | backend/src/com/delivery/security/SecurityLevel.java:4-8 | every name is one of UNCLASSIFIED, CONFIDENTIAL, SECRET, TOP_SECRET |
| `SecurityLevels.ValueOf` | backend/src/com/delivery/security/SecurityLevel.java:14 | `valueOf` finds a constant exactly when the text is that constant's name |
| `SecurityLevels.FromString` | backend/src/com/delivery/security/SecurityLevel.java:11-18 | null gives UNCLASSIFIED; any other level returned has the trimmed, upper-cased text as its name; a text naming no constant gives UNCLASSIFIED |
| `SecurityLevels.OrdinalDecidesOrder` | backend/src/com/delivery/security/SecurityLevel.java:4-8 | the clearance order is decided by `ordinal()`, and equal ordinals mean the same level |
| `SecurityLevels.DeclarationOrder` | backend/src/com/delivery/security/SecurityLevel.java:4-8 | UNCLASSIFIED < CONFIDENTIAL < SECRET < TOP_SECRET, and there are exactly four |
| `SecurityLevels.FromStringIgnoresCaseAndPadding` | backend/src/com/delivery/security/SecurityLevel.java:14 | any lower-cased name with any spaces around it (" secret ") gives that level |
| `SecurityLevels.NameRoundTrip` | backend/src/com/delivery/security/SecurityLevel.java:11-18 | `fromString(l.name())` is `l` for every level |
| `SmSecurityLevel.GetLevel` | backend/src/com/delivery/security/SecurityManager.java:53-57 | the number each constant is declared with is its position in the declaration list |
| `SmSecurityLevel.GetLevelInjective` | backend/src/com/delivery/security/SecurityManager.java:54 | different constants carry different numbers |
| `SmSecurityLevel.FromInt` | backend/src/com/delivery/security/SecurityManager.java:60-67 | Ok exactly for 0..3, giving the level declared with that number; otherwise the error "Invalid clearance level: " followed by the number |
| `BLPAccessControl.CheckReadAccess` | backend/src/com/delivery/security/BLPAccessControl.java:15-26 | read allowed exactly when the subject's ordinal is at least the object's (no read up); SecurityManager.java:182-187 repeats this rule |
| `BLPAccessControl.CheckWriteAccess` | backend/src/com/delivery/security/BLPAccessControl.java:33-44 | write allowed exactly when the subject's ordinal is at most the object's (no write down); SecurityManager.java:189-194 repeats this rule |
| `BLPAccessControl.CheckAccess` | backend/src/com/delivery/security/BLPAccessControl.java:46-66 | a null clearance, then a null classification, is an error with its message; Ok exactly for READ or WRITE in any case, carrying the matching check; any other operation, null included, is the "Invalid operation: … (must be READ or WRITE)" error |
| `BLPAccessControl.GetDataClassification` | backend/src/com/delivery/security/BLPAccessControl.java:72-100 | null is TOP_SECRET; a listed type (upper-cased) gets its table level; every unlisted type is TOP_SECRET |
| `BLPAccessControl.ReadAndWriteOnlyAtEqualLevels` | backend/src/com/delivery/security/BLPAccessControl.java:15-44 | reading and writing are both allowed exactly when the two levels are equal |
| `BLPAccessControl.ReadIsMonotone` | backend/src/com/delivery/security/BLPAccessControl.java:15-44 | a higher clearance reads everything a lower one reads, and writes only where a lower one also may |
| `BLPAccessControl.OperationCaseInsensitive` | backend/src/com/delivery/security/BLPAccessControl.java:57-63 | "read" and "Write" select the read and write checks; a null operation is an error |
| `BLPAccessControl.ClassificationIgnoresCase` | backend/src/com/delivery/security/BLPAccessControl.java:77 | lower-casing or upper-casing the data type does not change its classification |
| `SmAuditLogger.ClassifyEvent` | backend/src/com/delivery/security/SecurityManager.java:116-124 | "denied" exactly when the upper-cased type holds DENIED, BLOCKED, LOCKED, EXCEEDED or VIOLATION; otherwise "error" exactly when it holds ERROR or FAILED; otherwise "success" |
| `SmAuditLogger.EventWordDecides` | backend/src/com/delivery/security/SecurityManager.java:118-119 | any event type with a denial word anywhere in it is classified "denied" |
| `SmAuditLogger.ClassifyIgnoresCase` | backend/src/com/delivery/security/SecurityManager.java:117 | lower-casing the event type does not change its classification |
| `SmAuditLogger.NullEventIsSuccess` | backend/src/com/delivery/security/SecurityManager.java:117-124 | a null event type is classified "success" |
| `SmAuditLogger.AuditLogger.constructor` | backend/src/com/delivery/security/SecurityManager.java:71 | the in-memory log starts empty |
| `SmAuditLogger.AuditLogger.Log` | backend/src/com/delivery/security/SecurityManager.java:74-111 | fails, logging nothing, exactly when username, action or result is null, with "Username, action, and result are required"; otherwise appends one entry holding the six arguments |
| `SmAuditLogger.AuditLogger.LogSecurityEvent` | backend/src/com/delivery/security/SecurityManager.java:114-126 | always succeeds and appends one entry with "SYSTEM" for a null username, "EVENT" for a null type and the classified result |
| `SmAuditLogger.AuditLogger.LogError` | backend/src/com/delivery/security/SecurityManager.java:129-132 | always succeeds and appends one "error" entry with no user id or address, "SYSTEM" and "ERROR" for the missing names and "" for a missing message |
| `SmLoginLockout.IsAccountLocked` | backend/src/com/delivery/security/SecurityManager.java:164-169 | a null or blank username is the error; otherwise locked exactly when a record exists and its lock ends after now |
| `SmLoginLockout.BlankNameChangesNothing` | backend/src/com/delivery/security/SecurityManager.java:149 | recording a failure for a null or blank username is "Username required" and changes no record |
| `SmLoginLockout.LockedFailureIsIgnored` | backend/src/com/delivery/security/SecurityManager.java:151-153 | a failure during a lock answers 0 and does not count |
| `SmLoginLockout.UnlockedFailureCounts` | backend/src/com/delivery/security/SecurityManager.java:150-160 | an unlocked failure answers the new count, adds exactly one, locks for 30 minutes once the count reaches 3, and leaves other users alone |
| `SmLoginLockout.ThirdFailureLocks` | backend/src/com/delivery/security/SecurityManager.java:141-160 | three failures for a new user answer 1, 2, 3 and the third locks the account until 30 minutes later |
| `SmLoginLockout.ExpiredLockRelocksOnNextFailure` | backend/src/com/delivery/security/SecurityManager.java:151-158 | the counter is not cleared when a lock expires, so one more failure after expiry locks the account again |
| `SmLoginLockout.FailureNeverLowersCounts` | backend/src/com/delivery/security/SecurityManager.java:148-161 | recording a failure never removes a record or lowers a counter |
| `SmLoginLockout.ResetUnlocks` | backend/src/com/delivery/security/SecurityManager.java:172-177 | after a reset the account is unlocked and the next failure counts as the first |
| `SmLoginLockout.LoginLockout.constructor` | backend/src/com/delivery/security/SecurityManager.java:145 | the store starts empty |
| `SmLoginLockout.LoginLockout.RecordFailedAttempt` | backend/src/com/delivery/security/SecurityManager.java:148-161 | the answer and the new store are those of the recording rule proved above |
| `SmLoginLockout.LoginLockout.IsAccountLockedNow` | backend/src/com/delivery/security/SecurityManager.java:164-169 | answers the lock query on the current store and changes nothing |
| `SmLoginLockout.LoginLockout.ResetFailedAttempts` | backend/src/com/delivery/security/SecurityManager.java:172-177 | the answer and the new store are those of the reset rule (null is an error, otherwise the record is removed) |
| `SmInputSanitizer.SanitizeString` | backend/src/com/delivery/security/SecurityManager.java:200-206 | null is the error "Input cannot be null"; otherwise the result is never longer than the input |
| `SmInputSanitizer.SanitizedIsSafe` | backend/src/com/delivery/security/SecurityManager.java:202-205 | the result holds no quote, backslash or shell metacharacter, only characters of the input, and no blank at either end |
| `SmInputSanitizer.ValidateEmail` | backend/src/com/delivery/security/SecurityManager.java:208-212 | Ok exactly for a text matching the e-mail pattern; a non-blank text that does not match is "Invalid email format" |
| `SmInputSanitizer.ValidatePhone` | backend/src/com/delivery/security/SecurityManager.java:214-218 | Ok exactly for a text matching the phone pattern; a non-blank text that does not match is "Invalid phone format" |
| `SmInputSanitizer.ValidateUsername` | backend/src/com/delivery/security/SecurityManager.java:220-224 | Ok exactly for 3 to 20 letters, digits or '_'; a non-blank text that does not match is the length/charset error |
| `SmInputSanitizer.KeepsNul` | backend/src/com/delivery/security/SecurityManager.java:202-205 | unlike the standalone sanitiser, this one keeps a NUL character between two words |
| `SmInputSanitizer.LowercaseAndNulSurvive` | backend/src/com/delivery/security/SecurityManager.java:202-205 | lower-case letters and NULs, with a letter at each end, pass through unchanged |
| `SmInputSanitizer.PlainWordSanitized` | backend/src/com/delivery/security/SecurityManager.java:202-205 | a word with no removed character and no blank end is its own sanitised form |
| `SmMfaManager.CodeFor` | backend/src/com/delivery/security/SecurityManager.java:251-252 | `100000 + nextInt(900000)` printed is six decimal digits worth 100000 to 999999 |
| `SmMfaManager.GeneratedCodeIsStored` | backend/src/com/delivery/security/SecurityManager.java:249-258 | generation returns the code and stores it unused with a five-minute expiry, replacing only this user's entry |
| `SmMfaManager.ValidateSucceedsIffAccepted` | backend/src/com/delivery/security/SecurityManager.java:261-272 | validation answers true exactly when a stored code is unused, unexpired and equal to the offered one |
| `SmMfaManager.FailedValidationChangesNothing` | backend/src/com/delivery/security/SecurityManager.java:262-268 | an error or a false answer leaves the stored codes as they were |
| `SmMfaManager.CodeIsSingleUse` | backend/src/com/delivery/security/SecurityManager.java:265-269 | after a successful validation the same code is refused at any later time |
| `SmMfaManager.NewCodeReplacesOld` | backend/src/com/delivery/security/SecurityManager.java:253 | a newer code for the same user makes the older one fail |
| `SmMfaManager.MfaManager.constructor` | backend/src/com/delivery/security/SecurityManager.java:246 | no codes are stored at first |
| `SmMfaManager.MfaManager.GenerateMfaCode` | backend/src/com/delivery/security/SecurityManager.java:249-258 | the answer and the new code table are those of the generation rule, given the random draw |
| `SmMfaManager.MfaManager.ValidateMfaCode` | backend/src/com/delivery/security/SecurityManager.java:261-272 | the answer and the new code table are those of the validation rule |
| `SmPasswordManager.ValidatePasswordStrengthAsWritten` | backend/src/com/delivery/security/SecurityManager.java:304-312 | as written: the call throws exactly when the password passes the length, upper, lower and digit rules, because the fifth pattern does not compile; whenever it returns, it returns an error |
| `SmPasswordManager.AsWrittenAcceptsNothing` | backend/src/com/delivery/security/SecurityManager.java:304-312 | as written, no password is ever accepted |
| `SmPasswordManager.AsWrittenThrowsOnStrongPassword` | backend/src/com/delivery/security/SecurityManager.java:310 | a password such as "Abcdefg1!" (eight or more characters, with upper, lower and digit) makes the as-written check throw |
| `SmPasswordManager.ValidatePasswordStrength` | backend/src/com/delivery/security/SecurityManager.java:304-312 | corrected: null is "Password cannot be null"; Ok(true) exactly when the password has at least 8 characters, an upper-case letter, a lower-case letter, a digit and one of the listed special characters |
| `SmPasswordManager.ReportsFirstBrokenRule` | backend/src/com/delivery/security/SecurityManager.java:305-311 | the corrected check reports the first broken rule in the order length, upper, lower, digit, special, and accepts when none is broken |
| `SmPasswordManager.CorrectionAgreesWhereAsWrittenReturns` | backend/src/com/delivery/security/SecurityManager.java:305-309 | the correction changes only the inputs on which the written code throws |
| `SmPasswordManager.CorrectedAcceptsStrongPassword` | backend/src/com/delivery/security/SecurityManager.java:310 | a strong password with an intended special character is accepted by the correction but throws as written |
| `SmRateLimiter.EffectiveMax` | backend/src/com/delivery/security/SecurityManager.java:319-333 | a maximum of zero or less means the default of 60; a positive one is used as given |
| `SmRateLimiter.Allowed` | backend/src/com/delivery/security/SecurityManager.java:322-338 | replaying requests allows at most as many as were made |
| `SmRateLimiter.NullIsRefused` | backend/src/com/delivery/security/SecurityManager.java:323 | a null identifier is refused with "identifier/action required" and changes nothing |
| `SmRateLimiter.OpeningRequestIsAllowed` | backend/src/com/delivery/security/SecurityManager.java:326-331 | the first request of a new or expired window is allowed, opens the window now and sets the count to 1 |
| `SmRateLimiter.RefusalStillCounts` | backend/src/com/delivery/security/SecurityManager.java:332-337 | inside a window every request raises the count, and it is allowed exactly when the new count is within the maximum |
| `SmRateLimiter.AllowedInsideWindow` | backend/src/com/delivery/security/SecurityManager.java:332-337 | inside an open window, later requests allowed number at most the room left under the maximum |
| `SmRateLimiter.AtMostMaxPerWindow` | backend/src/com/delivery/security/SecurityManager.java:322-338 | within 60 seconds of the request that opens a window, at most the maximum number of requests are allowed |
| `SmRateLimiter.RateLimiter.constructor` | backend/src/com/delivery/security/SecurityManager.java:317-318 | both maps start empty |
| `SmRateLimiter.RateLimiter.AllowRequest` | backend/src/com/delivery/security/SecurityManager.java:322-338 | the answer and the new counters and windows are those of the rate rule above |
| `RateLimiter.Limit` | backend/src/com/delivery/security/RateLimiter.java:14-24 | the per-window limit is 5 exactly when the action equals LOGIN ignoring case, otherwise 2 |
| `RateLimiter.IsBanned` | backend/src/com/delivery/security/RateLimiter.java:94-101 | a null identifier is the error; otherwise banned exactly when the "identifier:BANNED" record is present |
| `RateLimiter.Allowed` | backend/src/com/delivery/security/RateLimiter.java:18-52 | replaying requests allows at most as many as were made |
| `RateLimiter.FirstRequestOpensWindow` | backend/src/com/delivery/security/RateLimiter.java:26-33 | the first request for a key is allowed and records count 1 with the window starting now |
| `RateLimiter.InsideWindow` | backend/src/com/delivery/security/RateLimiter.java:35-45 | within 60 seconds, a request at the limit is refused with "Rate limit exceeded. Max n requests/minute." and changes nothing; below it, the count rises by one |
| `RateLimiter.WindowRestarts` | backend/src/com/delivery/security/RateLimiter.java:46-49 | after 60 seconds the window restarts now with count 1 and the request is allowed |
| `RateLimiter.AllowedInsideWindow` | backend/src/com/delivery/security/RateLimiter.java:35-51 | within one window, the requests allowed number at most the room left under the limit |
| `RateLimiter.AtMostLimitPerWindow` | backend/src/com/delivery/security/RateLimiter.java:18-52 | a window opened by a first request lets at most the limit through, that request included |
| `RateLimiter.ClearRemovesOnlyTheIdentifier` | backend/src/com/delivery/security/RateLimiter.java:54-66 | clearing removes exactly the keys starting with "identifier:", keeps every other record unchanged, and so lifts a ban |
| `RateLimiter.BanIsSeen` | backend/src/com/delivery/security/RateLimiter.java:69-101 | after a ban, `isBanned` answers true |
| `RateLimiter.BanDoesNotBlockRequests` | backend/src/com/delivery/security/RateLimiter.java:18-52 | `allowRequest` never consults the ban record: a banned identifier's other actions are answered as before |
| `RateLimiter.RateLimiter.constructor` | backend/src/com/delivery/security/RateLimiter.java:16 | no records at first |
| `RateLimiter.RateLimiter.AllowRequest` | backend/src/com/delivery/security/RateLimiter.java:18-52 | the answer and the new records are those of the rate rule proved above |
| `RateLimiter.RateLimiter.ClearRateLimit` | backend/src/com/delivery/security/RateLimiter.java:54-66 | the answer and the new records are those of the clearing rule |
| `RateLimiter.RateLimiter.TemporaryBan` | backend/src/com/delivery/security/RateLimiter.java:69-92 | the answer and the new records are those of the ban rule (null is an error, otherwise the marker record is written) |
| `RateLimiter.RateLimiter.IsBannedNow` | backend/src/com/delivery/security/RateLimiter.java:94-101 | answers the ban query on the current records and changes nothing |
| `RateLimiter.RateLimiter.CleanupRateLimits` | backend/src/com/delivery/security/RateLimiter.java:104-118 | removes exactly the records whose window started more than 120 seconds ago, keeps the rest, and answers how many it removed |
| `InputSanitizer.SanitizeString` | backend/src/com/delivery/security/InputSanitizer.java:21-40 | null is the error "Input cannot be null"; otherwise the result is never longer than the input |
| `InputSanitizer.SanitizedIsSafe` | backend/src/com/delivery/security/InputSanitizer.java:27-39 | the result holds none of ' " \ ; & \| ` $ ( ) or NUL, only characters of the input, and no blank at either end |
| `InputSanitizer.SanitizeRemovesMarkup` | backend/src/com/delivery/security/InputSanitizer.java:27-31 | after the quote, script and tag passes no complete tag is left in the text |
| `InputSanitizer.ValidateFormat` | backend/src/com/delivery/security/InputSanitizer.java:45-100 | the shared validator shape: null or blank is the "empty" error; otherwise Ok(true) exactly when the pattern matches, and the "format" error when it does not |
| `InputSanitizer.ValidateEmail` | backend/src/com/delivery/security/InputSanitizer.java:45-55 | Ok exactly when the text matches the e-mail pattern |
| `InputSanitizer.ValidatePhone` | backend/src/com/delivery/security/InputSanitizer.java:60-70 | Ok exactly when the text matches the phone pattern |
| `InputSanitizer.ValidateUsername` | backend/src/com/delivery/security/InputSanitizer.java:75-85 | Ok exactly for 3 to 20 letters, digits or '_' |
| `InputSanitizer.ValidateTrackingId` | backend/src/com/delivery/security/InputSanitizer.java:90-100 | Ok exactly when the text matches D-ddd-ddd |
| `InputSanitizer.EmailNotBlank` | backend/src/com/delivery/security/InputSanitizer.java:45-52 | no accepted e-mail address is blank, so the blank check never hides a match |
| `InputSanitizer.UsernameNotBlank` | backend/src/com/delivery/security/InputSanitizer.java:75-82 | no accepted username is blank |
| `InputSanitizer.TrackingIdNotBlank` | backend/src/com/delivery/security/InputSanitizer.java:90-97 | no accepted tracking ID is blank |
| `InputSanitizer.PhoneNotBlank` | backend/src/com/delivery/security/InputSanitizer.java:60-67 | no accepted phone number is blank |
| `InputSanitizer.TrackingIdShape` | backend/src/com/delivery/security/InputSanitizer.java:16 | "D-" followed by two groups of three digits is accepted; a lower-case "d-" is the format error |
| `InputSanitizer.ValidateURL` | backend/src/com/delivery/security/InputSanitizer.java:105-124 | Ok(true) exactly when the lower-cased URL starts with http:// or https://; a non-blank javascript:, data: or vbscript: URL is "Dangerous URL protocol detected" |
| `InputSanitizer.SchemesDisjoint` | backend/src/com/delivery/security/InputSanitizer.java:113-119 | no URL is both a web address and a script-capable one, so the order of the two checks does not matter |
| `InputSanitizer.WebSchemeNotBlank` | backend/src/com/delivery/security/InputSanitizer.java:106-119 | an accepted URL is never blank |
| `InputSanitizer.ValidateLength` | backend/src/com/delivery/security/InputSanitizer.java:129-139 | null is "Input cannot be null"; Ok exactly when the UTF-16 length is at most the maximum, otherwise the message naming the maximum |
| `InputSanitizer.ValidateIntegerRange` | backend/src/com/delivery/security/InputSanitizer.java:144-149 | Ok exactly for min <= value <= max, otherwise "Value must be between min and max" |
| `InputSanitizer.IntegerRangeEdges` | backend/src/com/delivery/security/InputSanitizer.java:144-149 | an empty range rejects every value; a one-point range accepts only its point |
| `InputSanitizer.EncodeHTML` | backend/src/com/delivery/security/InputSanitizer.java:154-167 | null is "Input cannot be null"; otherwise the text with every character replaced by its entity once |
| `InputSanitizer.Entity` | backend/src/com/delivery/security/InputSanitizer.java:159-164 | a special character becomes an entity starting with '&'; every other character stays itself |
| `InputSanitizer.EncodeChainIsPerCharacter` | backend/src/com/delivery/security/InputSanitizer.java:159-164 | because '&' is replaced first, the six replace calls in a row equal one pass over the characters |
| `InputSanitizer.EncodeHTMLRoundTrip` | backend/src/com/delivery/security/InputSanitizer.java:154-167 | decoding the entities of the encoded text gives the input back |
| `InputSanitizer.EncodedHasNoMarkup` | backend/src/com/delivery/security/InputSanitizer.java:159-166 | the encoded text holds none of < > " ' / |
| `Patterns.TagLength` | backend/src/com/delivery/security/InputSanitizer.java:31 | a tag match at the front is empty or runs from '<' to the first '>' on the same line, at least two characters long |
| `Patterns.RemoveTagsOnlyDeletes` | backend/src/com/delivery/security/InputSanitizer.java:31 | removing tags only deletes characters and never adds one |
| `Patterns.RemoveTagsLeavesNoTag` | backend/src/com/delivery/security/InputSanitizer.java:31 | no complete tag is left after the removal: it cannot join two pieces into a new tag |
| `Patterns.ScriptLength` | backend/src/com/delivery/security/InputSanitizer.java:30 | a script match at the front is empty or starts with "<script" and ends with "</script>" on the same line |
| `Patterns.RemoveScriptsOnlyDeletes` | backend/src/com/delivery/security/InputSanitizer.java:30 | removing script blocks only deletes characters and never adds one |
| `PasswordManager.ValidatePasswordStrength` | backend/src/com/delivery/security/PasswordManager.java:60-81 | null is "Password cannot be null"; Ok(true) exactly when the password has at least 8 UTF-16 units, an upper-case letter, a lower-case letter, a digit and a listed special character |
| `PasswordManager.ReportsFirstBrokenRule` | backend/src/com/delivery/security/PasswordManager.java:61-80 | the message reported is that of the first broken rule in the order length, upper, lower, digit, special; none broken means Ok(true) |
| `PasswordManager.LineTerminatorFailsUpperRule` | backend/src/com/delivery/security/PasswordManager.java:67-69 | since `.` does not match a line terminator, a password of 8 or more holding a newline fails the upper-case rule even when it has an upper-case letter |
| `PasswordManager.ByteToHex` | backend/src/com/delivery/security/PasswordManager.java:86 | `%02x` of a byte is two lower-case hex digits |
| `PasswordManager.BytesToHex` | backend/src/com/delivery/security/PasswordManager.java:83-89 | the hex text is two lower-case hex digits per byte |
| `PasswordManager.ByteRoundTrip` | backend/src/com/delivery/security/PasswordManager.java:86 | the two digits of a byte read back as that byte |
| `PasswordManager.BytesToHexRoundTrip` | backend/src/com/delivery/security/PasswordManager.java:83-89 | the hex text reads back to the same bytes, so no two digests share a rendering |
| `PasswordManager.HashPassword` | backend/src/com/delivery/security/PasswordManager.java:26-39 | a null password or salt is "Password and salt cannot be null"; otherwise the lower-case hex of the digest of the password then the salt, which reads back to that digest |
| `PasswordManager.VerifyPassword` | backend/src/com/delivery/security/PasswordManager.java:44-55 | the hashing error is passed on; otherwise true exactly when the expected hash is present and equals the computed hash ignoring case |
| `PasswordManager.VerifyIgnoresHashCase` | backend/src/com/delivery/security/PasswordManager.java:52 | a stored hash written in upper case still verifies |
| `InputValidator.RequiredField` | backend/src/com/delivery/security/InputValidator.java:46-62 | a required text field reports at most one error, and none exactly when it is present, not blank and within its maximum length |
| `InputValidator.OptionalNameErrors` | backend/src/com/delivery/security/InputValidator.java:144-150 | an optional name reports at most one error |
| `InputValidator.RequiredNameErrors` | backend/src/com/delivery/security/InputValidator.java:15-21 | a required name reports at most one error, and none exactly when it is present, not blank, at most 100 long and made of letters, blanks, ' and - |
| `InputValidator.PackageOrderValidIff` | backend/src/com/delivery/security/InputValidator.java:41-65 | a package order is valid exactly when all three fields are present, not blank and within 255, 255 and 500 characters |
| `InputValidator.PackageOrderOneErrorPerField` | backend/src/com/delivery/security/InputValidator.java:41-65 | one error per failing field, so at most three, and a missing pickup address is reported first as missing |
| `InputValidator.RouteAssignmentValidIff` | backend/src/com/delivery/security/InputValidator.java:93-109 | a route assignment is valid exactly when both IDs are positive and the date has the dddd-dd-dd shape |
| `InputValidator.InventoryTransferValidIff` | backend/src/com/delivery/security/InputValidator.java:111-135 | a transfer is valid exactly when both facility IDs are positive and different and 1 to 100 packages are listed |
| `InputValidator.InventoryTransferFlagsTogether` | backend/src/com/delivery/security/InputValidator.java:116-132 | the rules are independent: two zero IDs and no list give four errors in rule order |
| `InputValidator.UserUpdateValidIff` | backend/src/com/delivery/security/InputValidator.java:137-159 | an update is valid exactly when the user ID is positive and any non-empty name and phone pass their checks |
| `InputValidator.MfaCodeValidIff` | backend/src/com/delivery/security/InputValidator.java:161-171 | an MFA code is valid exactly when it is six ASCII digits |
| `InputValidator.DeliveryInstructionsValidIff` | backend/src/com/delivery/security/InputValidator.java:173-181 | instructions are valid exactly when absent or at most 500 long |
| `InputValidator.FacilityIdValidIff` | backend/src/com/delivery/security/InputValidator.java:183-191 | a facility ID is valid exactly when positive |
| `InputValidator.LoginCredentialsValidIff` | backend/src/com/delivery/security/InputValidator.java:77-91 | credentials are valid exactly when the e-mail is present, not blank and well formed and the password is not empty |
| `InputValidator.RegistrationValidIff` | backend/src/com/delivery/security/InputValidator.java:10-39 | registration is valid exactly when the name passes and the e-mail, phone and password checks accept; a null name is reported first and a weak password last |
| `InputValidator.TrackingIdValidIff` | backend/src/com/delivery/security/InputValidator.java:67-75 | the tracking ID check adds its single message exactly when the format check refuses |
| `InputValidator.AddErrorIf` | backend/src/com/delivery/security/InputValidator.java:70-72 | one guarded `addError`: the message is added exactly when the check fails |
| `InputValidator.AddFirstError` | backend/src/com/delivery/security/InputValidator.java:46-50 | an `if`/`else if` pair of `addError` calls adds the first applicable message only |
| `InputValidator.ValidatePackageOrder` | backend/src/com/delivery/security/InputValidator.java:41-65 | a fresh result holding exactly the package-order errors, in order |
| `InputValidator.ValidateRouteAssignment` | backend/src/com/delivery/security/InputValidator.java:93-109 | a fresh result holding exactly the route-assignment errors, in order |
| `InputValidator.ValidateInventoryTransfer` | backend/src/com/delivery/security/InputValidator.java:111-135 | a fresh result holding exactly the transfer errors, in order |
| `InputValidator.ValidateUserUpdate` | backend/src/com/delivery/security/InputValidator.java:137-159 | a fresh result holding exactly the user-update errors, in order |
| `InputValidator.ValidateMfaCode` | backend/src/com/delivery/security/InputValidator.java:161-171 | a fresh result holding exactly the MFA-code error, if any |
| `InputValidator.ValidateDeliveryInstructions` | backend/src/com/delivery/security/InputValidator.java:173-181 | a fresh result holding exactly the instructions error, if any |
| `InputValidator.ValidateFacilityId` | backend/src/com/delivery/security/InputValidator.java:183-191 | a fresh result holding exactly the facility error, if any |
| `InputValidator.ValidateRegistration` | backend/src/com/delivery/security/InputValidator.java:10-39 | a fresh result holding exactly the registration errors, in order |
| `InputValidator.ValidateTrackingId` | backend/src/com/delivery/security/InputValidator.java:67-75 | a fresh result holding exactly the tracking ID error, if any |
| `InputValidator.ValidateLoginCredentials` | backend/src/com/delivery/security/InputValidator.java:77-91 | a fresh result holding exactly the credential errors, in order |
| `SessionManager.TimeoutSeconds` | backend/src/com/delivery/session/SessionManager.java:14-18 | unset means 3600 seconds; a set value must parse as a decimal long, or class initialisation throws |
| `SessionManager.DefaultParses` | backend/src/com/delivery/session/SessionManager.java:16-17 | the default text "3600" parses to 3600 |
| `SessionManager.UnknownTokenFindsNothing` | backend/src/com/delivery/session/SessionManager.java:42-44 | a null or unknown token finds nothing and changes nothing |
| `SessionManager.ExpiredSessionIsRemoved` | backend/src/com/delivery/session/SessionManager.java:45-48 | a session past its expiry is removed and reported absent, and stays absent later |
| `SessionManager.LiveSessionSlides` | backend/src/com/delivery/session/SessionManager.java:49-51 | a live session is returned with its expiry moved to now + timeout, and nothing else changes |
| `SessionManager.AccessKeepsSessionAlive` | backend/src/com/delivery/session/SessionManager.java:41-52 | sliding expiry: a session found at one time is found again at any time up to a full timeout later |
| `SessionManager.CreatedSessionIsFound` | backend/src/com/delivery/session/SessionManager.java:34-39 | a session just created is found with its username, role and clearance until its expiry |
| `SessionManager.InvalidatedTokenFindsNothing` | backend/src/com/delivery/session/SessionManager.java:54-56 | after `invalidate` the token finds nothing |
| `SessionManager.SessionManager.constructor` | backend/src/com/delivery/session/SessionManager.java:11-18 | no sessions at first, and the timeout read once |
| `SessionManager.SessionManager.CreateSession` | backend/src/com/delivery/session/SessionManager.java:34-39 | returns the drawn token and stores the new session under it, expiring one timeout from now |
| `SessionManager.SessionManager.GetSession` | backend/src/com/delivery/session/SessionManager.java:41-52 | the answer and the new table are those of the lookup rule proved above |
| `SessionManager.SessionManager.InvalidateSession` | backend/src/com/delivery/session/SessionManager.java:54-56 | the token is removed; a null token throws, as `ConcurrentHashMap.remove(null)` does |
| `LoginLockout.IsAccountLocked` | backend/src/com/delivery/security/LoginLockout.java:120-170 | an error exactly for a blank username, a failed connection or an SQL exception; otherwise locked exactly when the user's lock ends after now, and the user id is present exactly when the user exists |
| `LoginLockout.RemainingAttempts` | backend/src/com/delivery/security/LoginLockout.java:219-248 | Ok exactly for a known user with a connection and no SQL exception; the answer is max(0, 3 - failed attempts) |
| `LoginLockout.BlankUsernameIsRefused` | backend/src/com/delivery/security/LoginLockout.java:43-45 | a null or blank username is "Username cannot be empty" in every username-based operation, before the database is consulted |
| `LoginLockout.SqlErrorChangesNothing` | backend/src/com/delivery/security/LoginLockout.java:105-248 | once the arguments pass and the connection opens, an SQL exception is answered with that method's "Failed to …: " message and leaves the table as it was |
| `LoginLockout.UnknownUserChangesNothing` | backend/src/com/delivery/security/LoginLockout.java:97-101 | a failure for an unknown user is "User not found" and changes nothing |
| `LoginLockout.FailureCountsAndLocks` | backend/src/com/delivery/security/LoginLockout.java:59-96 | a failure stores the counter plus one; once that reaches 3 the lock is set to end 30 minutes from now, even over a running lock; only that row changes |
| `LoginLockout.ThirdFailureLocks` | backend/src/com/delivery/security/LoginLockout.java:16-96 | three failures on a clean row lock the account for the next 30 minutes and leave no attempts |
| `LoginLockout.ResetUnlocks` | backend/src/com/delivery/security/LoginLockout.java:180-210 | a reset clears the counter and the lock: the account is unlocked and has all three attempts again |
| `LoginLockout.FailureUsesAnAttempt` | backend/src/com/delivery/security/LoginLockout.java:61-96 | each counted failure uses one remaining attempt, down to zero; the one that leaves none sets the lock |
| `LoginLockout.LoginLockout.constructor` | backend/src/com/delivery/security/LoginLockout.java:53 | the users table is the one given |
| `LoginLockout.LoginLockout.RecordFailedAttempt` | backend/src/com/delivery/security/LoginLockout.java:42-110 | the answer and the new table are those of the failure rule proved above |
| `LoginLockout.LoginLockout.IsAccountLockedNow` | backend/src/com/delivery/security/LoginLockout.java:120-170 | answers the lock query on the current table and changes nothing |
| `LoginLockout.LoginLockout.ResetFailedAttempts` | backend/src/com/delivery/security/LoginLockout.java:180-210 | the answer and the new table are those of the reset rule (null id is an error; otherwise the row is cleared) |
| `LoginLockout.LoginLockout.GetRemainingAttempts` | backend/src/com/delivery/security/LoginLockout.java:219-248 | answers the remaining-attempts query on the current table and changes nothing |
| `MfaManager.FirstMatch` | backend/src/com/delivery/security/MFAManager.java:81-91 | the row the SELECT returns first is an unused, unexpired row of that user holding the code; there is none exactly when no row matches |
| `MfaManager.MarkUsed` | backend/src/com/delivery/security/MFAManager.java:93-97 | the UPDATE sets `used` on the rows with that code id and leaves every other row as it was |
| `MfaManager.Unexpired` | backend/src/com/delivery/security/MFAManager.java:126 | the DELETE keeps exactly the rows that have not expired |
| `MfaManager.SixDigitsJavaLength` | backend/src/com/delivery/security/MFAManager.java:71 | six ASCII digits have Java length 6, so the length test agrees with the pattern |
| `MfaManager.GeneratedCodeIsSixDigits` | backend/src/com/delivery/security/MFAManager.java:25-26 | every code drawn is six decimal digits worth 100000 + draw |
| `MfaManager.GenerateAppendsOneRow` | backend/src/com/delivery/security/MFAManager.java:20-63 | generation succeeds exactly when both arguments are present, the connection works and the INSERT does not throw, and then stores exactly one new unused row expiring in five minutes; otherwise nothing changes |
| `MfaManager.GeneratedCodeValidates` | backend/src/com/delivery/security/MFAManager.java:20-117 | round trip: a code just generated lets its user in at any time before it expires |
| `MfaManager.MalformedCodeRefusedFirst` | backend/src/com/delivery/security/MFAManager.java:67-73 | a null argument, then a code that is not six digits, is refused before the table is consulted, and nothing changes |
| `MfaManager.ValidateSucceedsIff` | backend/src/com/delivery/security/MFAManager.java:75-116 | for a well-formed request the answer is true exactly when the database answers and an unused, unexpired row of that user holds the code, false exactly when it answers and none does; a connection failure or an SQL exception, even after a row matched, is its error and changes nothing |
| `MfaManager.SuccessUsesUpTheRow` | backend/src/com/delivery/security/MFAManager.java:90-102 | a success uses up the row it found: the rows that would let the user in afterwards are those before, less that row |
| `MfaManager.CodeIsSingleUse` | backend/src/com/delivery/security/MFAManager.java:65-117 | a code held by one live row succeeds once and is refused at any later time |
| `MfaManager.CleanupRemovesExactlyExpired` | backend/src/com/delivery/security/MFAManager.java:119-143 | cleanup removes exactly the expired rows and answers how many |
| `MfaManager.FailedCleanupKeepsCodes` | backend/src/com/delivery/security/MFAManager.java:124-142 | a DELETE that throws removes nothing and is answered "Failed to cleanup MFA codes: " with its message |
| `MfaManager.CleanupKeepsValidation` | backend/src/com/delivery/security/MFAManager.java:83-126 | cleanup never changes the answer of a later validation, since a usable row is never expired |
| `MfaManager.ExpiringNowIsNeitherUsableNorDeleted` | backend/src/com/delivery/security/MFAManager.java:83-126 | a row expiring exactly now is neither accepted nor deleted: both comparisons are strict |
| `MfaManager.UnexpiredKeepsIds` | backend/src/com/delivery/security/MFAManager.java:126 | deleting rows keeps the primary keys ascending and below the next key |
| `MfaManager.MfaManager.constructor` | backend/src/com/delivery/security/MFAManager.java:36 | the table starts empty, with its key invariant |
| `MfaManager.MfaManager.GenerateMfaCode` | backend/src/com/delivery/security/MFAManager.java:20-63 | keeps the key invariant; the answer and the new table are those of the generation rule, given the random draw |
| `MfaManager.MfaManager.ValidateMfaCode` | backend/src/com/delivery/security/MFAManager.java:66-117 | keeps the key invariant; the answer and the new table are those of the validation rule |
| `MfaManager.MfaManager.CleanupExpiredCodes` | backend/src/com/delivery/security/MFAManager.java:119-143 | keeps the key invariant; the answer and the new table are those of the cleanup rule |
| `TransferDao.MarkTransferred` | backend/src/com/delivery/dao/TransferDAO.java:164-171 | the package's in-stock records at the source become transferred with departure now; every other record is unchanged |
| `TransferDao.InitiateRequiresPackageAtSource` | backend/src/com/delivery/dao/TransferDAO.java:32-90 | initiation succeeds exactly when the connection opens, no SQL failure strikes and the package is known and currently at the source, and then adds one pending transfer under the new id; each SQL failure returns its own message; the tables change only on success and on the two failures after the insert, which leave the inserted row |
| `TransferDao.FailedCompletionChangesNothing` | backend/src/com/delivery/dao/TransferDAO.java:103-198 | completion succeeds exactly when the connection works, no SQL step fails, and the transfer exists and is neither completed nor cancelled; a refusal, or a fault before the commit that the rollback undoes, leaves all three tables as they were |
| `TransferDao.Updated` | backend/src/com/delivery/dao/TransferDAO.java:146-181 | the tables after none of the four updates are the old ones, and after all four those of the committed completion |
| `TransferDao.CompletionFaultEffects` | backend/src/com/delivery/dao/TransferDAO.java:103-198 | an SQL error in the lookup, or once the transfer is known to be pending, is answered "Database error completing transfer: …" when the rollback succeeds and "Rollback failed: …" when it throws; a rollback that throws leaves the updates made before the failing step, a failure after the commit leaves all four, and otherwise nothing changes |
| `TransferDao.FailedRollbackLeavesPartialCompletion` | backend/src/com/delivery/dao/TransferDAO.java:146-194 | a rollback that throws after the second update leaves the transfer completed and the package moved, with the stock records untouched |
| `TransferDao.CompletionEffects` | backend/src/com/delivery/dao/TransferDAO.java:146-187 | a successful completion marks the transfer completed at now, moves a known package to the destination, retires its in-stock records at the source, and appends one in-stock record at the destination; nothing else changes |
| `TransferDao.SecondCompletionFails` | backend/src/com/delivery/dao/TransferDAO.java:135-138 | a transfer completes at most once: the second attempt is "Transfer already completed" and changes nothing |
| `TransferDao.CompletionMovesStock` | backend/src/com/delivery/dao/TransferDAO.java:163-181 | the facilities where the package is in stock lose the source and gain the destination |
| `TransferDao.StaleCompletionDuplicatesStock` | backend/src/com/delivery/dao/TransferDAO.java:116-181 | nothing ties a completion to where the package is now: two transfers initiated from the same facility and completed in turn leave the package in stock at both destinations |
| `TransferDao.TransferDao.constructor` | backend/src/com/delivery/dao/TransferDAO.java:20 | the tables are the ones given, with every transfer id below the next key |
| `TransferDao.TransferDao.InitiateTransfer` | backend/src/com/delivery/dao/TransferDAO.java:32-90 | the answer and the new tables are those of the initiation rule, SQL failures included; the new id was not in use whenever a row is inserted |
| `TransferDao.TransferDao.Rollback` | backend/src/com/delivery/dao/TransferDAO.java:191 | a rollback that returns puts the tables back to the snapshot taken when the transaction began |
| `TransferDao.TransferDao.Recover` | backend/src/com/delivery/dao/TransferDAO.java:189-196 | the catch block: the answer and the tables are those of `Caught`, the snapshot restored unless the rollback throws |
| `TransferDao.TransferDao.CompleteTransfer` | backend/src/com/delivery/dao/TransferDAO.java:103-198 | the four updates run one after the other inside a transaction, and the answer and the new tables are those of the completion rule, for a fault at any step and whatever the rollback then does |
| `TransferService.InitiateRefusal` | backend/src/com/delivery/services/TransferService.java:35-53 | `initiateTransfer` stops before the DAO exactly unless the write check at SECRET passes, the facilities differ and all three ids are positive |
| `TransferService.CompleteRefusal` | backend/src/com/delivery/services/TransferService.java:87-97 | `completeTransfer` stops before the DAO exactly unless the write check at SECRET passes and the id is positive |
| `TransferService.GetPendingTransfers` | backend/src/com/delivery/services/TransferService.java:125-146 | read access at SECRET or above gets the DAO's answer; below that, the view refusal |
| `TransferService.TransferClearanceIsWriteAtSecret` | backend/src/com/delivery/services/TransferService.java:36-92 | because transfers use the write check at SECRET, the three lower clearances pass and only TOP_SECRET is refused |
| `TransferService.InitiateGuardOrder` | backend/src/com/delivery/services/TransferService.java:31-71 | the guards run in order (clearance, same facility, ids), each refusal leaves the tables untouched, and only when all pass is the DAO reached |
| `TransferService.CompleteGuardOrder` | backend/src/com/delivery/services/TransferService.java:84-113 | even an invalid transfer id gets the clearance refusal first; a non-positive id never reaches the DAO |
| `TransferService.LookupKeyIsSanitised` | backend/src/com/delivery/services/TransferService.java:172-183 | a lookup that passes the guards reaches the DAO with a non-empty key of ASCII letters and digits taken from the trimmed input, or is "Invalid tracking number format" |
| `TransferService.LookupGuardOrder` | backend/src/com/delivery/services/TransferService.java:164-175 | below CONFIDENTIAL every lookup is refused whatever the input; at or above it a null or blank number is "Tracking number is required" |
| `InventoryService.ClearanceGuards` | backend/src/com/delivery/services/InventoryService.java:27-129 | inventory reads, search and counts need SECRET and the facility list CONFIDENTIAL; below that each answers its own refusal, all starting with "Access denied"; above it the DAO's answer is passed on |
| `InventoryService.SearchKeyIsSanitised` | backend/src/com/delivery/services/InventoryService.java:92-104 | a search that passes the guards reaches the DAO with a non-empty key of ASCII letters and digits taken from the trimmed input, or is "Invalid tracking number format" |
| `InventoryService.CleanKeyIsUnchanged` | backend/src/com/delivery/services/InventoryService.java:98 | a key made only of letters and digits passes through the sanitising unchanged |
| `InventoryService.CountGuardOrder` | backend/src/com/delivery/services/InventoryService.java:115-129 | the count refuses a low clearance first, then a non-positive facility id, and otherwise passes on the DAO's answer |
| `StaticFileHandler.DefaultPath` | backend/src/com/delivery/util/StaticFileHandler.java:28-31 | "/" and the empty path become "/login.html"; any other path is kept |
| `StaticFileHandler.Relative` | backend/src/com/delivery/util/StaticFileHandler.java:34 | exactly one leading '/' is dropped before the path is resolved against the frontend directory |
| `StaticFileHandler.TypeBySuffix` | backend/src/com/delivery/util/StaticFileHandler.java:116-131 | the first listed extension the lower-cased path ends with decides the type; none gives application/octet-stream |
| `StaticFileHandler.HandleRequest` | backend/src/com/delivery/util/StaticFileHandler.java:25-85 | the response is the one the handling rule gives: 403 when the canonical path does not start with the frontend directory's canonical path, else the file, the SPA dashboard, 404 or 500 |
| `StaticFileHandler.RootServesLogin` | backend/src/com/delivery/util/StaticFileHandler.java:28-31 | the site root is served as login.html with the HTML type |
| `StaticFileHandler.SpaRouteByPrefix` | backend/src/com/delivery/util/StaticFileHandler.java:91-114 | a path has an SPA route exactly when it starts with /management/, /customer/, /driver/ or /admin/, and each prefix maps to its own dashboard |
| `StaticFileHandler.MissingFileFallsBack` | backend/src/com/delivery/util/StaticFileHandler.java:44-62 | a path that is not a file is answered "File not found" 404 exactly when it has no SPA route or its dashboard is missing; otherwise the dashboard is served as HTML |
| `StaticFileHandler.DashboardIsHtml` | backend/src/com/delivery/util/StaticFileHandler.java:93-118 | every dashboard is served with the HTML type |
| `StaticFileHandler.HtmlIsHtml` | backend/src/com/delivery/util/StaticFileHandler.java:118 | a path ending in ".html" is served as HTML |
| `StaticFileHandler.ContentTypeIgnoresCase` | backend/src/com/delivery/util/StaticFileHandler.java:116-131 | the content type ignores the case of the path, and an unlisted extension gives octet-stream |
| `StaticFileHandler.EscapingPathIsForbidden` | backend/src/com/delivery/util/StaticFileHandler.java:38-42 | the traversal check comes first: a path whose canonical path does not start with the directory's canonical path is 403 "Forbidden" even when the file exists |
| `StaticFileHandler.SiblingDirectoryIsServed` | backend/src/com/delivery/util/StaticFileHandler.java:38-42 | the check is a prefix test on text: a file whose canonical path is the directory's followed by a continuation of its last name (a sibling such as "frontend-old") passes it and is served |
| `EnvLoader.Unquote` | backend/src/com/delivery/util/EnvLoader.java:46-48 | one pair of surrounding quotes is dropped; a value that is a single quote makes `substring(1, 0)` throw; any other value is kept |
| `EnvLoader.ParseLine` | backend/src/com/delivery/util/EnvLoader.java:40-49 | a line is skipped exactly when, trimmed, it is empty, a comment, or has no '=' after the first character; it throws exactly when its value is a lone quote |
| `EnvLoader.Parsed` | backend/src/com/delivery/util/EnvLoader.java:39-50 | each line of the file is parsed on its own |
| `EnvLoader.GetValue` | backend/src/com/delivery/util/EnvLoader.java:57-68 | the .env map first, then the process environment; an error exactly when neither has the key |
| `EnvLoader.SplitsAtEquals` | backend/src/com/delivery/util/EnvLoader.java:42-45 | a line made of a plain key, '=' and a value without blank ends splits at that '=' |
| `EnvLoader.QuotedPairRoundTrip` | backend/src/com/delivery/util/EnvLoader.java:40-49 | a line `key="value"` gives back exactly that key and value, whatever the value holds, an '=' or a quote included |
| `EnvLoader.LoneQuoteThrows` | backend/src/com/delivery/util/EnvLoader.java:46-47 | a value that is one double quote makes the line throw |
| `EnvLoader.FeedPrefixReturned` | backend/src/com/delivery/util/EnvLoader.java:39-50 | a file read to the end without throwing read every shorter prefix without throwing |
| `EnvLoader.ThrowStops` | backend/src/com/delivery/util/EnvLoader.java:39-53 | once a line throws, the lines after it are never read (only IOException is caught) |
| `EnvLoader.LastAssignmentWins` | backend/src/com/delivery/util/EnvLoader.java:49 | later duplicate keys overwrite: the last line that sets a key decides its value |
| `EnvLoader.UnassignedKeyKept` | backend/src/com/delivery/util/EnvLoader.java:49 | a key no line sets keeps whatever the map held before |
| `EnvLoader.GetErrorMentionsLoadError` | backend/src/com/delivery/util/EnvLoader.java:64-67 | the lookup error names the key, and ends with the load error in parentheses exactly when loading failed |
| `EnvLoader.ReadEntry` | backend/src/com/delivery/util/EnvLoader.java:40-48 | the statements of the read loop's body give the parsed entry of one line |
| `EnvLoader.EnvLoader.constructor` | backend/src/com/delivery/util/EnvLoader.java:11-12 | an empty map and no load error |
| `EnvLoader.EnvLoader.LoadDotEnv` | backend/src/com/delivery/util/EnvLoader.java:30-54 | the new map, the load error and the outcome are those of the loading rule: no file or a read error sets the error, and lines are put in order until one throws |
| `EnvLoader.EnvLoader.Get` | backend/src/com/delivery/util/EnvLoader.java:57-68 | answers the lookup rule on the current map and changes nothing |
| `RouteRequest.Substring` | backend/src/com/delivery/models/RouteRequest.java:38-85 | Java `substring(b, e)` returns exactly when 0 <= b <= e <= length, and otherwise throws the index exception |
| `RouteRequest.CleanAll` | backend/src/com/delivery/models/RouteRequest.java:56-58 | each piece of the split array, quotes removed and trimmed, in order |
| `RouteRequest.OffsetsAreMarkerLengths` | backend/src/com/delivery/models/RouteRequest.java:42-83 | the fixed offsets 20, 11, 13 and 13 are the lengths of the markers they skip |
| `RouteRequest.BodyUsesUntrimmedLength` | backend/src/com/delivery/models/RouteRequest.java:38 | the end index is the untrimmed length: already-trimmed text loses exactly its outer characters, one surrounding blank keeps the closing character, and two or more make the call throw |
| `RouteRequest.QuotedFieldRoundTrip` | backend/src/com/delivery/models/RouteRequest.java:41-45 | a string property reads back the value written after its marker, up to the closing quote |
| `RouteRequest.NumberFieldRoundTrip` | backend/src/com/delivery/models/RouteRequest.java:64-70 | a numeric property followed by a comma reads back the number written after its marker |
| `RouteRequest.UnterminatedNumberThrows` | backend/src/com/delivery/models/RouteRequest.java:64-70 | with neither ',' nor '}' after its marker, a numeric property throws |
| `RouteRequest.DriverIdLastThrows` | backend/src/com/delivery/models/RouteRequest.java:38-70 | since the braces were already stripped, a driver id written as the last property makes `fromJson` throw whatever else the text holds |
| `RouteRequest.AddressesAreClean` | backend/src/com/delivery/models/RouteRequest.java:48-60 | every delivery address read is free of double quotes and already trimmed |
| `RouteRequest.BlankArrayKeepsList` | backend/src/com/delivery/models/RouteRequest.java:53-60 | an empty or blank array sets nothing, so the new request keeps its empty list |
| `RouteRequest.RouteRequest.constructor` | backend/src/com/delivery/models/RouteRequest.java:16-18 | a new request has no addresses, ids 0 and no date |
| `RouteRequest.RouteRequest.SetWarehouseAddress` | backend/src/com/delivery/models/RouteRequest.java:21 | sets the warehouse address and nothing else |
| `RouteRequest.RouteRequest.SetDeliveryAddresses` | backend/src/com/delivery/models/RouteRequest.java:24 | sets the address list and nothing else |
| `RouteRequest.RouteRequest.SetDriverId` | backend/src/com/delivery/models/RouteRequest.java:27 | sets the driver id and nothing else |
| `RouteRequest.RouteRequest.SetFacilityId` | backend/src/com/delivery/models/RouteRequest.java:30 | sets the facility id and nothing else |
| `RouteRequest.RouteRequest.SetRouteDate` | backend/src/com/delivery/models/RouteRequest.java:33 | sets the route date and nothing else |
| `RouteRequest.RouteRequest.ReadAddresses` | backend/src/com/delivery/models/RouteRequest.java:48-61 | reads the delivery address array as the parsing rule does, throwing where it throws |
| `RouteRequest.RouteRequest.CleanAddresses` | backend/src/com/delivery/models/RouteRequest.java:55-58 | the address loop builds the cleaned pieces in order |
| `RouteRequest.RouteRequest.FromJson` | backend/src/com/delivery/models/RouteRequest.java:35-89 | throws exactly when the parsing rule throws, with the same exception; otherwise returns a fresh request holding the parsed values |
| `JsonHelpers.Clean` | backend/src/com/delivery/controllers/DriverController.java:530-531 | a key or value, trimmed and with every double quote removed, holds no double quote |
| `JsonHelpers.Pair` | backend/src/com/delivery/controllers/DriverController.java:528-531 | a part contributes a pair exactly when its first ':' is past index 0 |
| `JsonHelpers.Pairs` | backend/src/com/delivery/controllers/DriverController.java:527-533 | the pair of each part, in order |
| `JsonHelpers.FieldsComeFromPairs` | backend/src/com/delivery/controllers/DriverController.java:527-533 | every entry of the map comes from one of the parts |
| `JsonHelpers.FillFields` | backend/src/com/delivery/controllers/DriverController.java:527-533 | the loop over the parts puts each pair into the map, as the map specification says |
| `JsonHelpers.ReadPair` | backend/src/com/delivery/controllers/DriverController.java:528-531 | one iteration's body reads the pair of its part |
| `JsonHelpers.CleanQuoted` | backend/src/com/delivery/controllers/DriverController.java:530-531 | a quoted text without inner quotes is cleaned back to its inside |
| `JsonHelpers.UnbracedKeeps` | backend/src/com/delivery/controllers/DriverController.java:523-525 | trimming and brace-stripping give back what was wrapped in braces |
| `JsonHelpers.PairOfQuoted` | backend/src/com/delivery/controllers/DriverController.java:528-531 | a quoted key without ':' and a quoted value split at the colon between them |
| `JsonHelpers.LastPairWins` | backend/src/com/delivery/controllers/DriverController.java:532 | the last part that sets a key decides its value |
| `JsonHelpers.CommaSplitJson` | backend/src/com/delivery/controllers/DriverController.java:520-535 | a null body gives the empty map |
| `JsonHelpers.CommaSplitSinglePair` | backend/src/com/delivery/controllers/DriverController.java:520-535 | one quoted pair without commas, colons or quotes inside reads back as itself |
| `JsonHelpers.WrappedQuoted` | backend/src/com/delivery/controllers/DriverController.java:523-525 | a braced quoted pair, trimmed and stripped, is the pair |
| `JsonHelpers.ParseJsonAtCommas` | backend/src/com/delivery/controllers/DriverController.java:520-535 | the comma-splitting `parseJson` computes the comma-split map |
| `JsonHelpers.PairOfOpenQuoted` | backend/src/com/delivery/controllers/DriverController.java:528-531 | a quoted key, a colon and an opening quote before the value split at that colon |
| `JsonHelpers.CommaInValueIsCut` | backend/src/com/delivery/controllers/DriverController.java:526 | splitting at every comma cuts a quoted value at its first comma: the key keeps only the text before it, and the rest is dropped |
| `JsonHelpers.EscapeJson` | backend/src/com/delivery/controllers/ManagementController.java:751-758 | null becomes the empty text; the result holds no raw newline, carriage return or tab |
| `JsonHelpers.EscapePlain` | backend/src/com/delivery/controllers/ManagementController.java:751-758 | a text with none of the five replaced characters is left as it is |
| `JsonHelpers.EscapeIsPerCharacter` | backend/src/com/delivery/controllers/ManagementController.java:753-757 | because the backslash is replaced first, the chained replacements equal one pass over the characters |
| `JsonHelpers.EscapeRoundTrip` | backend/src/com/delivery/controllers/ManagementController.java:751-758 | decoding the escaped text as a JSON string body gives the original back, for every text without other control characters |
| `JsonHelpers.OtherControlStaysRaw` | backend/src/com/delivery/controllers/ManagementController.java:753-757 | any other control character passes through raw, so the result is not a valid JSON string body |
| `ManagementController.ParsedFieldsAreClean` | backend/src/com/delivery/controllers/ManagementController.java:594-630 | no key or value of the parsed map holds a double quote, and every entry comes from one of the quote-aware parts |
| `ManagementController.ParseJsonValue` | backend/src/com/delivery/controllers/ManagementController.java:594-596 | a null body gives the empty map |
| `ManagementController.ParseJson` | backend/src/com/delivery/controllers/ManagementController.java:594-630 | the method with its character loop and pair loop computes the quote-aware map |
| `ManagementController.SplitParts` | backend/src/com/delivery/controllers/ManagementController.java:603-620 | the character loop that toggles on quotes and cuts at commas outside quotes yields the scanned parts |
| `ManagementController.ScanKeepsText` | backend/src/com/delivery/controllers/ManagementController.java:608-617 | joining the parts and the pending part with commas gives back the scanned text: only separating commas are removed |
| `ManagementController.PlainText` | backend/src/com/delivery/controllers/ManagementController.java:608-617 | text without quotes, read inside quotes or holding no comma, only extends the pending part |
| `ManagementController.QuoteToggles` | backend/src/com/delivery/controllers/ManagementController.java:610-612 | a double quote is kept and flips the inside-quotes flag |
| `ManagementController.QuotedPairIsOnePart` | backend/src/com/delivery/controllers/ManagementController.java:603-620 | a quoted key and value split into exactly one part |
| `ManagementController.QuotedPairRoundTrip` | backend/src/com/delivery/controllers/ManagementController.java:594-630 | a braced body of one quoted key and one quoted value parses to exactly that pair, even when the value holds commas or colons |
| `ManagementController.QuotedCommaSurvivesOnlyHere` | backend/src/com/delivery/controllers/ManagementController.java:601-617 | a quoted value with a comma stays whole here, while the comma-splitting parser of the other controllers cuts it at the comma |
| `ManagementController.ParseIdsMeaning` | backend/src/com/delivery/controllers/ManagementController.java:108-113 | the id list parses exactly when every piece is a long, and then holds each piece's number in order |
| `ManagementController.PackageIds` | backend/src/com/delivery/controllers/ManagementController.java:105-121 | the loop over the comma pieces computes the id list; a bad piece is the format error |
| `ManagementController.ParseIdsStep` | backend/src/com/delivery/controllers/ManagementController.java:109-111 | one more piece appends its id, or the whole list fails |
| `ManagementController.PackageIdsRoundTrip` | backend/src/com/delivery/controllers/ManagementController.java:107-113 | comma-joined decimal ids parse back to the same list |
| `ManagementController.StopsAreNumbered` | backend/src/com/delivery/controllers/ManagementController.java:239-244 | there is one stop per id; stop i belongs to the route, carries the i-th id and is numbered i + 1 |
| `ManagementController.StopRows` | backend/src/com/delivery/controllers/ManagementController.java:238-245 | the insertion loop writes exactly those stops |
| `ManagementController.FirstToken` | backend/src/com/delivery/controllers/ManagementController.java:533-538 | nothing is found exactly when no cookie gives a token; otherwise the token comes from the first cookie that gives one |
| `ManagementController.ExtractToken` | backend/src/com/delivery/controllers/ManagementController.java:522-542 | the method returns the token of the specification: the Bearer header first, then cookies |
| `ManagementController.CookieLoop` | backend/src/com/delivery/controllers/ManagementController.java:533-538 | the loop returns at the first SESSION cookie |
| `ManagementController.ReadCookie` | backend/src/com/delivery/controllers/ManagementController.java:534-537 | a trimmed cookie split once at '=' gives its value when the name is exactly SESSION |
| `ManagementController.BearerWins` | backend/src/com/delivery/controllers/ManagementController.java:524-527 | a "Bearer " header wins over any cookie, and the token is the rest of that header |
| `ManagementController.SessionCookieRoundTrip` | backend/src/com/delivery/controllers/ManagementController.java:530-538 | a cookie header holding only SESSION=t gives t back, even when t holds '=' |
| `ManagementController.SessionCookieToken` | backend/src/com/delivery/controllers/ManagementController.java:534-537 | a SESSION cookie's token is everything after its first '=' |
| `ManagementController.Authorize` | backend/src/com/delivery/controllers/ManagementController.java:51-67 | the request passes exactly when there is a session and its role is manager or admin |
| `ManagementController.ReadNumbers` | backend/src/com/delivery/controllers/ManagementController.java:82-121 | a refusal here is a missing field, a bad number or a bad package id |
| `ManagementController.ReadTexts` | backend/src/com/delivery/controllers/ManagementController.java:124-134 | a refusal here is the sanitiser's invalid-input reply |
| `ManagementController.CheckRequest` | backend/src/com/delivery/controllers/ManagementController.java:48-134 | a refusal before the database carries status 400, 401 or 403 |
| `ManagementController.RefusalOrder` | backend/src/com/delivery/controllers/ManagementController.java:48-89 | the refusals come in order: no session gives 401, a wrong role 403, a missing field 400; a refused request writes nothing |
| `ManagementController.CheckRefusals` | backend/src/com/delivery/controllers/ManagementController.java:51-89 | the checks before the database refuse in the same order |
| `ManagementController.WrittenIffCreated` | backend/src/com/delivery/controllers/ManagementController.java:160-260 | something is written exactly when the reply is 201 |
| `ManagementController.BadPackageIdWritesNothing` | backend/src/com/delivery/controllers/ManagementController.java:107-120 | one package piece that is not a long gets "Invalid package ID format" and nothing is written |
| `ManagementController.CommittedRoute` | backend/src/com/delivery/controllers/ManagementController.java:160-249 | a committed route: the caller is manager or admin, the driver has the driver role, the facility exists, the key was generated, the status is planned, total_stops is the number of ids and stop i carries the i-th id with sequence i + 1 |
| `ManagementController.CommittedWrite` | backend/src/com/delivery/controllers/ManagementController.java:179-249 | a write happens only past every check, and it holds the checked plan's route, assignment, out-for-delivery packages and stops |
| `AdminController.GetSessionToken` | backend/src/com/delivery/controllers/AdminController.java:506-529 | the method computes the token of the specification: the first SESSION cookie, and only without one the bearer header |
| `AdminController.CookieLoop` | backend/src/com/delivery/controllers/AdminController.java:511-517 | the cookie loop stops at the first SESSION cookie |
| `AdminController.SameCookieRule` | backend/src/com/delivery/controllers/AdminController.java:512-515 | reading a cookie by its "SESSION=" prefix gives the same token as splitting it at its first '=' |
| `AdminController.CookieThenBearer` | backend/src/com/delivery/controllers/AdminController.java:506-529 | the cookie is asked first and the bearer header second, the opposite order to the management controller's |
| `AdminController.OrderDiffers` | backend/src/com/delivery/controllers/AdminController.java:506-529 | with both a bearer header and a SESSION cookie, this controller and the management controller pick different tokens |
| `AdminController.TopSecretGate` | backend/src/com/delivery/controllers/AdminController.java:270-283 | the users, role and status endpoints pass exactly a session whose clearance is TOP_SECRET; otherwise 401 without a session, 403 with one |
| `AdminController.GatesAgree` | backend/src/com/delivery/controllers/AdminController.java:47-62 | the logs gate (read access at TOP_SECRET) agrees with the equality gate, except on a session without clearance, where it throws |
| `AdminController.TopSecretIsTop` | backend/src/com/delivery/controllers/AdminController.java:57 | reading at TOP_SECRET is allowed exactly for the TOP_SECRET level |
| `AdminController.QueryPair` | backend/src/com/delivery/controllers/AdminController.java:558-572 | a pair counts exactly when its first '=' is past index 0; the key is non-empty, holds no '=', and key, '=' and value rebuild the pair |
| `AdminController.QueryParams` | backend/src/com/delivery/controllers/AdminController.java:558-560 | a null query gives the empty map |
| `AdminController.ParseQueryString` | backend/src/com/delivery/controllers/AdminController.java:558-572 | the loop over the '&' pieces computes the parameter map |
| `AdminController.ReadQueryPair` | backend/src/com/delivery/controllers/AdminController.java:562-569 | one iteration splits its pair at the first '=' |
| `AdminController.QueryParamsFacts` | backend/src/com/delivery/controllers/AdminController.java:558-572 | every key is non-empty and free of '=', and every entry is the last pair written under its key |
| `AdminController.SingleQueryPair` | backend/src/com/delivery/controllers/AdminController.java:558-572 | one key=value query reads back as that entry |
| `AdminController.ReadPaging` | backend/src/com/delivery/controllers/AdminController.java:65-82 | the handler's reassignments of limit and offset give the specified paging |
| `AdminController.PagingBounds` | backend/src/com/delivery/controllers/AdminController.java:65-82 | the limit is at most 1000; each default (100 and 0) is kept unless its parameter parses, and a parsed limit up to 1000 is used as it is |
| `AdminController.NegativeLimitKept` | backend/src/com/delivery/controllers/AdminController.java:70-75 | there is no lower bound: a negative limit is passed on |
| `AdminController.ListingsNeedTopSecret` | backend/src/com/delivery/controllers/AdminController.java:47-200 | the log and user listings are reached exactly with a TOP_SECRET session and an open connection; no session gives 401 |
| `AdminController.TargetUserId` | backend/src/com/delivery/controllers/AdminController.java:285-298 | a refusal here is "invalid request" or "invalid user id" |
| `AdminController.UserPathRoundTrip` | backend/src/com/delivery/controllers/AdminController.java:285-298 | the path /admin/users/<id>/<action> reads back its id |
| `AdminController.NewRole` | backend/src/com/delivery/controllers/AdminController.java:300-319 | an accepted role is the body's role, one of customer, driver or manager; a refusal is "role is required", the admin promotion refusal or "invalid role" |
| `AdminController.NewStatus` | backend/src/com/delivery/controllers/AdminController.java:429-436 | a status is accepted exactly when it is one of active, suspended or revoked, and it is then the body's status |
| `AdminController.UpdateTarget` | backend/src/com/delivery/controllers/AdminController.java:270-298 | a target id is read only under a TOP_SECRET session |
| `AdminController.CaseFoldsAgree` | backend/src/com/delivery/controllers/AdminController.java:309 | ignoring case is comparing lower-cased texts |
| `AdminController.ClearanceIgnoresCase` | backend/src/com/delivery/controllers/AdminController.java:496-504 | the clearance for a role is between 0 and 3 and ignores case |
| `AdminController.ClearanceThreeIsAdmin` | backend/src/com/delivery/controllers/AdminController.java:496-504 | the clearance is 3 exactly for "admin" in any case |
| `AdminController.ClearanceOfLowerCase` | backend/src/com/delivery/controllers/AdminController.java:496-504 | a lower-case role gets 0, 1, 2 or 3 for customer, driver, manager or admin, and 0 for anything else |
| `AdminController.NewRoleAccepts` | backend/src/com/delivery/controllers/AdminController.java:300-319 | the role guard lets through exactly the three assignable roles in lower case; a non-blank "admin" in any case is the promotion refusal |
| `AdminController.WriteRoleKeepsTable` | backend/src/com/delivery/controllers/AdminController.java:321-377 | the database stage of a role update changes only a non-admin row's role and clearance, and only with a 200 reply |
| `AdminController.RoleWriteOnly` | backend/src/com/delivery/controllers/AdminController.java:348-360 | writing an assignable role and its clearance into a non-admin row is a role change only |
| `AdminController.RoleWriteSparesAdmins` | backend/src/com/delivery/controllers/AdminController.java:338-360 | such a write leaves admin rows alone and makes no row an admin |
| `AdminController.RoleWriteChangesOneRow` | backend/src/com/delivery/controllers/AdminController.java:348-360 | such a write changes one row, to an assignable role and its clearance |
| `AdminController.AssignableClearance` | backend/src/com/delivery/controllers/AdminController.java:496-504 | an assignable role gets a clearance of 0 to 2 |
| `AdminController.RoleUpdateGuards` | backend/src/com/delivery/controllers/AdminController.java:253-377 | a role update keeps the table's invariants and changes it only with a TOP_SECRET session and a 200 reply |
| `AdminController.StatusUpdateGuards` | backend/src/com/delivery/controllers/AdminController.java:382-492 | a status update keeps the table's invariants and changes it only with a TOP_SECRET session and a 200 reply |
| `AdminController.WriteStatusKeepsTable` | backend/src/com/delivery/controllers/AdminController.java:438-492 | the database stage of a status update changes only a non-admin row's status, and only with a 200 reply |
| `AdminController.RoleUpdateSucceeds` | backend/src/com/delivery/controllers/AdminController.java:253-377 | a TOP_SECRET session setting a non-admin user's role through the admin page's path and body gets 200, and the row gets the role and its clearance |
| `AdminController.RoleBodyAccepted` | backend/src/com/delivery/controllers/AdminController.java:300-319 | the body the admin page sends for a role change carries an accepted role |
| `AdminController.RoleUpdateReachesWrite` | backend/src/com/delivery/controllers/AdminController.java:253-321 | past the gate, the path and the role guards, the role update is its database stage |
| `AdminController.StatusUpdateSucceeds` | backend/src/com/delivery/controllers/AdminController.java:382-492 | a TOP_SECRET session setting a non-admin user's status gets 200, and the row gets the status |
| `AdminController.StatusBodyAccepted` | backend/src/com/delivery/controllers/AdminController.java:429-436 | the body the admin page sends for a status change carries an accepted status |
| `AdminController.StatusUpdateReachesWrite` | backend/src/com/delivery/controllers/AdminController.java:382-438 | past the gate, the path and the status guard, the status update is its database stage |
| `TransferController.GetSessionFromRequest` | backend/src/com/delivery/controllers/TransferController.java:351-367 | the cookie scan returns the specified session lookup: the first SESSION cookie's token, else an error |
| `TransferController.CookieIsTheOnlySource` | backend/src/com/delivery/controllers/TransferController.java:351-367 | only the cookie counts: the token is the one the admin controller picks from the same cookies whatever Authorization header comes with it, and a request without a SESSION cookie fails |
| `TransferController.BearerAloneRefused` | backend/src/com/delivery/controllers/TransferController.java:351-367 | a bearer token the admin controller accepts is refused here when no cookie comes with it |
| `TransferController.InitiateStatus` | backend/src/com/delivery/controllers/TransferController.java:109-114 | a failed initiation is answered 400, 403 or 500 |
| `TransferController.CompleteStatus` | backend/src/com/delivery/controllers/TransferController.java:183-189 | a failed completion is answered 400, 403 or 500 |
| `TransferController.SelectInitiateStatus` | backend/src/com/delivery/controllers/TransferController.java:109-114 | the reassigned status code of the initiation handler is the specified one: denial words 403, "not found" or "Invalid" 400, else 500 |
| `TransferController.SelectCompleteStatus` | backend/src/com/delivery/controllers/TransferController.java:183-189 | the same for completion: denial words 403, a missing, completed or cancelled transfer 400, else 500 |
| `TransferController.SelectTrackingStatus` | backend/src/com/delivery/controllers/TransferController.java:338-343 | the same for a lookup: "Access denied" 403, "not found" or "Invalid" 404, else 500 |
| `TransferController.InitiateEffects` | backend/src/com/delivery/controllers/TransferController.java:38-118 | once the session, user and IDs are read, the request is 201 exactly when the service's guards pass, the connection opens, no SQL failure strikes and the package is at the source; a 201 adds the pending transfer; any other answer changes nothing, except that a failure after the insert leaves the inserted row |
| `TransferController.SubmitEffects` | backend/src/com/delivery/controllers/TransferController.java:90-117 | the service call and its answer: 201 exactly when the guards, the connection and the package location pass and no SQL failure strikes, with the new pending row; otherwise the tables are unchanged but for a row inserted before a failure |
| `TransferController.InitiateRefusalStatus` | backend/src/com/delivery/controllers/TransferController.java:109-114 | the service's refusals are answered 403 for clearance, 500 for the same facility and 400 for bad IDs |
| `TransferController.DeniedStatuses` | backend/src/com/delivery/controllers/TransferController.java:109-114 | the three clearance refusals pass escaping unchanged and are answered 403 |
| `TransferController.SameFacilityIs500` | backend/src/com/delivery/controllers/TransferController.java:109-114 | "Source and destination facilities cannot be the same" matches none of the words and is answered 500 |
| `TransferController.InvalidIdsIs400` | backend/src/com/delivery/controllers/TransferController.java:109-114 | "Invalid facility or package ID" is answered 400 |
| `TransferController.InitiateDaoStatuses` | backend/src/com/delivery/controllers/TransferController.java:109-114 | of the DAO's refusals, a missing package is 400, while one without a facility or at another facility is 500 |
| `TransferController.MissingFacilitiesIs500` | backend/src/com/delivery/controllers/TransferController.java:78-117 | a body naming neither facility reads both as 0, is refused as the same facility, and is answered 500 |
| `TransferController.CompleteTransferId` | backend/src/com/delivery/controllers/TransferController.java:152-166 | a short path or a non-number is the 400 reply; otherwise the id is the fifth path piece read as a long |
| `TransferController.CompletePathRoundTrip` | backend/src/com/delivery/controllers/TransferController.java:152-166 | the completion path reads back the transfer id written into it |
| `TransferController.InvalidTransferIdIs500` | backend/src/com/delivery/controllers/TransferController.java:183-189 | "Invalid transfer ID" matches none of the completion words and is answered 500 |
| `TransferController.NonPositiveIdIs500` | backend/src/com/delivery/controllers/TransferController.java:152-191 | a path id that parses but is not positive passes the controller, is refused by the service, and is answered 500 with the tables unchanged |
| `TransferController.CompleteDaoStatuses` | backend/src/com/delivery/controllers/TransferController.java:183-189 | the DAO's refusals of a completion (not found, already completed, cancelled) are answered 400 |
| `TransferController.SecondCompletionIs400` | backend/src/com/delivery/controllers/TransferController.java:124-192 | repeating a completion that succeeded is answered 400 "Transfer already completed" and changes nothing |
| `TransferController.PendingNeedsSecret` | backend/src/com/delivery/controllers/TransferController.java:199-263 | pending transfers are listed exactly to SECRET and above with a successful fetch; below SECRET the answer is 403 |
| `TransferController.TrackingPathRoundTrip` | backend/src/com/delivery/controllers/TransferController.java:297-305 | the lookup path reads back the tracking number written into it |
| `TransferController.TrackingRefusalStatuses` | backend/src/com/delivery/controllers/TransferController.java:338-343 | the lookup refusals: clearance 403, a blank number 500, a number with no letter or digit 404 |
| `TransferController.TrackingNeedsConfidential` | backend/src/com/delivery/controllers/TransferController.java:269-346 | below CONFIDENTIAL every lookup is 403, before the number is looked at |
| `TransferController.NoSessionIs401` | backend/src/com/delivery/controllers/TransferController.java:55-60 | without a session every endpoint answers 401, whatever else the request holds |
| `InventoryController.GetSessionFromRequest` | backend/src/com/delivery/controllers/InventoryController.java:293-320 | the method looks up the token the cookie-first rule picks, and without a token gives "No session token provided" |
| `InventoryController.SessionSources` | backend/src/com/delivery/controllers/InventoryController.java:293-320 | a SESSION cookie is looked up whatever bearer token comes with it, a bearer token alone is looked up, and a request with neither has no session |
| `InventoryController.Rendered` | backend/src/com/delivery/controllers/InventoryController.java:329-334 | each item's own JSON, in order |
| `InventoryController.ListToJson` | backend/src/com/delivery/controllers/InventoryController.java:326-358 | the loop of the two list renderers writes each element's JSON with a comma after every one but the last, inside brackets |
| `InventoryController.ArrayJsonReadsBack` | backend/src/com/delivery/controllers/InventoryController.java:326-337 | an empty list is "[]"; the text between the brackets is the comma-joined elements, and comma-free elements split back at the commas |
| `InventoryController.FacilityJsonReadsBack` | backend/src/com/delivery/controllers/InventoryController.java:346-352 | a facility's name and address read back from its object: the text between the quotes decodes to the value, a null one to "" |
| `InventoryController.FacilityPathFirst` | backend/src/com/delivery/controllers/InventoryController.java:104-117 | a bad facility path is answered 400 before the session is looked at, whatever the session |
| `InventoryController.SearchPathFirst` | backend/src/com/delivery/controllers/InventoryController.java:238-243 | a search path without a tracking segment is answered 400 before the session is looked at |
| `InventoryController.FacilityPathRoundTrip` | backend/src/com/delivery/controllers/InventoryController.java:104-117 | the facility path reads back the id written into it |
| `InventoryController.SearchPathRoundTrip` | backend/src/com/delivery/controllers/InventoryController.java:238-245 | the search path reads back the tracking number written into it |
| `InventoryController.DenialsNameAccess` | backend/src/com/delivery/controllers/InventoryController.java:61-64 | each of the service's refusals names "Access denied", so each is answered 403 |
| `InventoryController.DenialsAre403` | backend/src/com/delivery/controllers/InventoryController.java:27-285 | below SECRET the inventory reads and the search are 403 with the service's refusal; below CONFIDENTIAL so is the facility list |
| `InventoryController.NullClearanceThrows` | backend/src/com/delivery/controllers/InventoryController.java:27-285 | a session with a null clearance passes the session check and throws in the clearance check |
| `InventoryController.ListingsAnswerTheDao` | backend/src/com/delivery/controllers/InventoryController.java:27-212 | with the clearance, the listings are 200 with the array of the DAO's rows; a DAO error is 403 exactly when it says "Access denied", else 500 |
| `InventoryController.SearchRefusalsAre500` | backend/src/com/delivery/controllers/InventoryController.java:219-285 | with the clearance, a blank tracking segment, or one with no ASCII letter or digit, is refused by the service and answered 500 |
| `InventoryController.SearchAnswersTheDao` | backend/src/com/delivery/controllers/InventoryController.java:259-285 | with the clearance, a search the DAO answers is 200 with the item's JSON, and "Package not found in inventory" is 404 |
| `DriverController.Authorize` | backend/src/com/delivery/controllers/DriverController.java:55-71 | only a session whose role is exactly "driver" passes; no session is 401, another role 403 |
| `DriverController.WriteUpdate` | backend/src/com/delivery/controllers/DriverController.java:390-435 | the writes issued one statement at a time give the specified new tables |
| `DriverController.OnlyDrivers` | backend/src/com/delivery/controllers/DriverController.java:255-276 | only a driver's session gets past either endpoint; the others are 401 or 403 and change nothing |
| `DriverController.WhitelistFacts` | backend/src/com/delivery/controllers/DriverController.java:306-307 | the whitelist holds eight distinct statuses, each a plain word |
| `DriverController.CheckUpdateAccepts` | backend/src/com/delivery/controllers/DriverController.java:283-326 | the checks pass exactly when both fields are present, the id is a long and the status is whitelisted; the status goes on unchanged, and the sanitiser refusal never happens |
| `DriverController.AcceptedUpdate` | backend/src/com/delivery/controllers/DriverController.java:283-326 | a request with a long id and a whitelisted status is accepted with that id and status |
| `DriverController.OptionalSanitized` | backend/src/com/delivery/controllers/DriverController.java:315-320 | an optional field is sanitised when present and reads as "" when absent; neither fails |
| `DriverController.ValidStatusSanitized` | backend/src/com/delivery/controllers/DriverController.java:306-320 | a whitelisted status is its own sanitised form |
| `DriverController.RefusalsChangeNothing` | backend/src/com/delivery/controllers/DriverController.java:238-462 | a request not answered 200 changes nothing |
| `DriverController.CheckRefusalsAre400` | backend/src/com/delivery/controllers/DriverController.java:283-326 | each refusal of the field checks is a 400, before the connection is opened |
| `DriverController.WrittenExactly` | backend/src/com/delivery/controllers/DriverController.java:238-462 | a request is written exactly when a driver's checked request names a package on one of the driver's stops today, the connection opens and no SQL exception strikes; past the checks, a failing connection, driver-id query or route check is 500 before a missing driver or package is 404 |
| `DriverController.CommitOutcome` | backend/src/com/delivery/controllers/DriverController.java:333-462 | from the connection on: 200 exactly when the queries and writes succeed for a package on the driver's stops today, with the writes of `Record`; every other answer changes nothing |
| `DriverController.RecordEffects` | backend/src/com/delivery/controllers/DriverController.java:390-420 | "exception" leaves the package row alone, any other status sets it; every accepted status adds one history row with empty notes and location stored as null; nothing else changes |
| `DriverController.DeliveredEffects` | backend/src/com/delivery/controllers/DriverController.java:393-432 | "delivered" stamps delivered_at with the current time and moves the order to delivered only when it was in transit; other statuses leave orders and the stamp alone |
| `PackageController.ReadTrackingNumber` | backend/src/com/delivery/controllers/PackageController.java:51-61 | the loop over the query's parameters, reassigning at each match, computes the specified tracking number |
| `PackageController.CheckEdit` | backend/src/com/delivery/controllers/PackageController.java:292-340 | every refusal of the edit's field checks is a 400 |
| `PackageController.TrackingPair` | backend/src/com/delivery/controllers/PackageController.java:55-59 | a pair "trackingNumber=v" reads as v when v is non-empty and holds no '=' |
| `PackageController.LastPairWins` | backend/src/com/delivery/controllers/PackageController.java:51-61 | among '&'-joined parameters, a last tracking pair decides the tracking number whatever earlier pairs say |
| `PackageController.MissingTrackingIs400` | backend/src/com/delivery/controllers/PackageController.java:63-68 | a query with no tracking pair, or a blank value, is refused 400 before anything else |
| `PackageController.TrackLooksUpSanitised` | backend/src/com/delivery/controllers/PackageController.java:71-153 | a present tracking number is looked up in its sanitised form, which holds no quote, backslash or shell metacharacter; the sanitiser never refuses |
| `PackageController.WhitelistFacts` | backend/src/com/delivery/controllers/PackageController.java:321-322 | the column whitelist holds seven distinct columns, each a plain word |
| `PackageController.SanitizedPlainColumn` | backend/src/com/delivery/controllers/PackageController.java:330-340 | sanitising never refuses and keeps a plain-word column as it is |
| `PackageController.CheckEditAccepts` | backend/src/com/delivery/controllers/PackageController.java:292-327 | the checks pass exactly when the three fields are present, the id is a long and the column is whitelisted |
| `PackageController.CheckEditColumn` | backend/src/com/delivery/controllers/PackageController.java:321-340 | the column named in the SQL is the whitelisted one itself, so "Invalid input format" never happens |
| `PackageController.OnlyManagersEdit` | backend/src/com/delivery/controllers/PackageController.java:274-290 | only a manager's or an administrator's session may edit; others get 401 or 403 and change nothing |
| `PackageController.RefusalsChangeNothing` | backend/src/com/delivery/controllers/PackageController.java:252-456 | an edit not answered 200 changes nothing |
| `PackageController.ConversionByColumn` | backend/src/com/delivery/controllers/PackageController.java:392-404 | the flags take true exactly for "true" in any case, the status keeps its text, and the measures take the parsed double or refuse the edit |
| `PackageController.EditWrites` | backend/src/com/delivery/controllers/PackageController.java:252-456 | an edit answers 200 exactly when every check passed, the connection opened, no SQL exception struck, the package exists and the value converted, and its writes are then the specified ones; past the checks, a failing connection, user-id query or package query is 500 before a missing package is 404 |
| `PackageController.EditCheckedOutcome` | backend/src/com/delivery/controllers/PackageController.java:347-453 | past the checks: 200 exactly when the connection opens, no SQL exception strikes, the package exists and the value converts, with the writes of `Record`; every other answer changes nothing |
| `PackageController.RecordEffects` | backend/src/com/delivery/controllers/PackageController.java:388-425 | the writes set one column of one package and append one history row holding the old text and a null reason when it is empty; everything else is unchanged |
| `AuthenticationController.HandleLogin` | backend/src/com/delivery/controllers/AuthenticationController.java:30-175 | the handler's reply, cookie, lockout table and session store are those the decision ladder specifies for the body as read |
| `AuthenticationController.FinishLogin` | backend/src/com/delivery/controllers/AuthenticationController.java:92-175 | the rest of the ladder after the lock check gives the specified reply, cookie, lockout table and sessions |
| `AuthenticationController.MissingCredentialsFirst` | backend/src/com/delivery/controllers/AuthenticationController.java:55-59 | a body without a username or a password is refused 400 before any other check and changes nothing |
| `AuthenticationController.CheckOrder` | backend/src/com/delivery/controllers/AuthenticationController.java:62-147 | with both credentials present, the checks run in order (reCAPTCHA, lock, user query, account status, hash, password, clearance), and each stop happens exactly when the earlier checks passed and its own fails |
| `AuthenticationController.SameInvalidCredentials` | backend/src/com/delivery/controllers/AuthenticationController.java:99-134 | an unknown user and a wrong password get the same reply and no cookie |
| `AuthenticationController.OnlyWrongPasswordCounts` | backend/src/com/delivery/controllers/AuthenticationController.java:99-151 | the lockout table is written only by a wrong password (one more failure) and by a login (reset); an unknown user leaves it unchanged |
| `AuthenticationController.WrongPasswordLocksOnThird` | backend/src/com/delivery/controllers/AuthenticationController.java:128-134 | a wrong password adds one failure, and the third failure locks the account for 30 minutes |
| `AuthenticationController.LockLookupErrorDoesNotBlock` | backend/src/com/delivery/controllers/AuthenticationController.java:70-90 | a lock lookup that fails does not block: the ladder goes on as for an unlocked account, whatever the lockout table says |
| `AuthenticationController.LoginEffects` | backend/src/com/delivery/controllers/AuthenticationController.java:138-166 | a login answers 200 with the username, role, clearance number and token, sets the SESSION cookie HttpOnly on path /, stores the session with the converted clearance, and clears the account's failures |
| `AuthenticationController.LoggedInEffects` | backend/src/com/delivery/controllers/AuthenticationController.java:150-166 | what a successful exit answers and writes, whatever led to it |
| `AuthenticationController.LoggedInAccount` | backend/src/com/delivery/controllers/AuthenticationController.java:95-147 | a login is for the named account, with the clearance its stored number converts to |
| `AuthenticationController.CookieCarriesToken` | backend/src/com/delivery/controllers/AuthenticationController.java:165 | the cookie's first pair is read back by the session-token rule of the other controllers, so the next request finds the token |
| `Router.WriteHistory` | frontend/js/router.js:77-82 | writing history keeps the state well formed and leaves the written path as the current location |
| `Router.Step` | frontend/js/router.js:54-222 | one router call keeps the state well formed |
| `Router.Run` | frontend/js/router.js:54-222 | a call chain that ends leaves a well-formed state |
| `Router.DenialTarget` | frontend/js/router.js:214-222 | as written, a denial with a session goes to the role's dashboard path |
| `Router.SafeDenialTarget` | frontend/js/router.js:214-222 | the corrected target is /login or a path the role may see, and equals the as-written target whenever the role may see that one |
| `Router.BoundDecreases` | frontend/js/router.js:54-222 | with the corrected target, each next call has a smaller bound |
| `Router.SafeTerminates` | frontend/js/router.js:54-222 | every call of the corrected router ends within its bound |
| `Router.FuelMonotone` | frontend/js/router.js:54-222 | more fuel does not change an answer already reached |
| `Router.Dispatch` | frontend/js/router.js:40-52 | running the same call once per listener keeps the state well formed |
| `Router.AreaRules` | frontend/js/router.js:183-196 | no session sees nothing; /driver/login needs the driver role; admin is denied /driver/route; any session sees paths outside the four areas |
| `Router.LogoutClearsSession` | frontend/js/router.js:54-59 | /logout runs no session or role check: it clears the session, replaces the current entry with /login and loads the login page |
| `Router.UnauthenticatedGoesToLogin` | frontend/js/router.js:61-69 | without an authenticated session, a non-public path pushes /login instead, and no entry for the path is written |
| `Router.AllowedNavigationWritesOnce` | frontend/js/router.js:77-110 | an allowed navigation to a table page writes exactly one history entry, then loads; a failed load keeps that entry, raises one alert and leaves the page as it was |
| `Router.UnregisteredPathFallsBack` | frontend/js/router.js:88-101 | an allowed path missing from the table is written, then replaced by /login, and the login page loads |
| `Router.PopstateWritesNoHistory` | frontend/js/router.js:42 | a popstate on a table page loads it and writes no history |
| `Router.DeniedNavigationAlerts` | frontend/js/router.js:71-75 | an authenticated session denied a path raises one alert and pushes the denial target; nothing else changes first |
| `Router.PushThenReplace` | frontend/js/router.js:77-82 | pushing one path and replacing it with another leaves one new entry, the second |
| `Router.ManagerDashboard` | frontend/js/router.js:218 | the manager's dashboard path is one a manager may see, and it is not in the table |
| `Router.ManagerDenialEndsAtLogin` | frontend/js/router.js:214-222 | a manager denied a path alerts once, pushes /manager/dashboard, and ends replacing it with /login |
| `Router.ManagerDashboardFallsBack` | frontend/js/router.js:93-99 | the manager's dashboard path is pushed, then replaced by /login, whose page loads |
| `Router.DenialLoops` | frontend/js/router.js:214-222 | as written, when the role may not see its own dashboard, the denial is denied again and the recursion never ends, whatever the fuel |
| `Router.ManagementRoleLoops` | frontend/js/router.js:190-222 | a session with role "management" denied a path never finishes navigating |
| `Router.ManagementDashboardDenied` | frontend/js/router.js:192 | the role "management" is sent to /management/dashboard, which is reserved to "manager" |
| `Router.CorrectedDenialEnds` | frontend/js/router.js:214-222 | with the corrected target, the same denial alerts once and pushes /login |
| `Router.KeepMainMembers` | frontend/js/router.js:129-134 | the kept stylesheets are exactly those whose href mentions main.css |
| `Router.AddMissingFacts` | frontend/js/router.js:136-144 | adding keeps the current links first, ends up holding every new href, and never adds one twice |
| `Router.ReloadedScriptsFacts` | frontend/js/router.js:124-160 | no reloaded script has a src mentioning router.js, and every other script is reloaded |
| `Router.ReloadedScriptsInOrder` | frontend/js/router.js:124-160 | scripts are reloaded in document order: the reload of two runs is the reload of the first followed by that of the second |
| `Router.ReloadedScript` | frontend/js/router.js:124-160 | one script is reloaded as a fresh element exactly when it is not router.js |
| `Router.LoadedPage` | frontend/js/router.js:103-163 | a loaded page keeps the main.css links, adds each of its stylesheets once, takes its body, reloads its scripts except router.js, and adds one listener of each kind |
| `Router.Router.constructor` | frontend/js/router.js:3-38 | a new router holds the session and location it starts from, with one click and one popstate listener |
| `Router.Router.Navigate` | frontend/js/router.js:54-86 | navigate leaves the state the call chain specifies |
| `Router.Router.WriteEntry` | frontend/js/router.js:77-82 | replaceState or pushState of the path |
| `Router.Router.HandleRoute` | frontend/js/router.js:88-101 | handleRoute leaves the state the call chain specifies |
| `Router.Router.LoadContent` | frontend/js/router.js:103-169 | loadContent leaves the state of a load: the new page, or one alert when the fetch fails |
| `Router.Router.MainStylesheets` | frontend/js/router.js:130-134 | the removal loop keeps the links whose href mentions main.css |
| `Router.Router.AddStylesheets` | frontend/js/router.js:137-144 | the adding loop appends a link when none has its href yet |
| `Router.Router.ReloadScripts` | frontend/js/router.js:150-160 | the delayed loop appends a fresh element for each script except router.js |
| `Router.Router.Logout` | frontend/js/router.js:209-212 | logout leaves the state the call chain specifies |
| `Router.Router.ShowAccessDenied` | frontend/js/router.js:214-222 | the corrected denial leaves the state the call chain specifies |
| `Router.Router.Click` | frontend/js/router.js:45-51 | a click without data-route changes nothing; with one, each click listener navigates to it |
| `Router.Router.Back` | frontend/js/router.js:42 | going back moves one entry back, and each popstate listener handles the current location |
| `PageCommon.PostReply` | frontend/js/management.js:9-31 | the POST helpers succeed exactly on a 2xx reply whose body parsed; a non-2xx reply fails with the body's error or the fallback, and a body that is not JSON fails with the parser's message |
| `ManagementPage.ListReply` | frontend/js/management.js:68-98 | a list load succeeds exactly on a 2xx reply whose body parsed, and then holds the normalised list; a non-2xx status fails as "HTTP <status>" and a rejected fetch with its message |
| `ManagementPage.ListShapesAgree` | frontend/js/management.js:86-93 | an array and the same array under the named field read the same; a missing field reads as no items |
| `ManagementPage.InventoryUrl` | frontend/js/management.js:105-107 | a facility id selects that facility's endpoint, and none the whole inventory |
| `ManagementPage.DriversReply` | frontend/js/management.js:36-63 | the driver load succeeds exactly on a 2xx reply whose success flag is set; with the flag unset it fails with the body's error or "Failed to fetch drivers" |
| `ManagementPage.Select` | frontend/js/management.js:183-190 | a drop-down holds its placeholder, then one option per item in the order received |
| `ManagementPage.DriverSelect` | frontend/js/management.js:183-190 | the driver drop-down is "-- Select driver --" and one option per driver |
| `ManagementPage.FacilitySelect` | frontend/js/management.js:211-218 | the facility drop-down is "-- Select facility --" and one option per facility |
| `ManagementPage.FacilityIdSpellings` | frontend/js/management.js:215 | a non-zero snake_case id wins, else the camelCase one, else the text "undefined" |
| `ManagementPage.UnassignedAreExactlyReady` | frontend/js/management.js:238-241 | exactly the created and at-facility packages are kept |
| `ManagementPage.ZipKey` | frontend/js/management.js:257-261 | the sort key is the address's last space-separated token, or "" without an address |
| `ManagementPage.InsertByZip` | frontend/js/management.js:255-265 | inserting adds exactly one item and keeps the others |
| `ManagementPage.InsertKeepsSorted` | frontend/js/management.js:255-265 | inserting into a ZIP-sorted list keeps it sorted |
| `ManagementPage.SortByZip` | frontend/js/management.js:255-265 | the sort gives a permutation of the list in ZIP order |
| `ManagementPage.CityKeepsComma` | frontend/js/management.js:270-275 | as written, the city cell of a well-formed address keeps the comma before the state |
| `ManagementPage.CellsOfWellFormedAddress` | frontend/js/management.js:270-275 | with that comma dropped, a well-formed address gives back its street, city and ZIP |
| `ManagementPage.RowAsWritten` | frontend/js/management.js:267-287 | the row the page renders carries the package's own id, tracking number, weight and status, and street, city and ZIP cells that fall back to "N/A" and are never empty |
| `ManagementPage.RowOf` | frontend/js/management.js:267-287 | the shown row differs from the rendered one at most in the city cell, and not at all when the rendered city does not end in a comma |
| `ManagementPage.AsWrittenRowAddsComma` | frontend/js/management.js:267-287 | for a well-formed address, the row as the page renders it differs from the shown row only in the city, which carries the comma |
| `ManagementPage.PackageTableRows` | frontend/js/management.js:228-294 | the table lists one row per ready package in ZIP order, and is the no-data row exactly when no package is ready |
| `ManagementPage.ParseRenderedId` | frontend/js/management.js:376-377 | a rendered id, as a drop-down holds it, parses back to itself |
| `ManagementPage.PayloadCarriesSelection` | frontend/js/management.js:371-383 | the payload asks for 60 minutes plus 15 per package, is dated today, and its id list parses on the server back to the selected ids |
| `ManagementPage.PackageIdsSplitBack` | frontend/js/management.js:382 | splitting the sent list at commas gives back the selection |
| `ManagementPage.SubmitWhileSubmittingIgnored` | frontend/js/management.js:319-323 | while a submission is in flight another submit changes nothing and sends nothing |
| `ManagementPage.NoRequestUnlessSelected` | frontend/js/management.js:316-387 | a request goes out exactly when no submission is in flight and a driver, a facility and a package are selected; a refused submit raises one alert and restores the button |
| `ManagementPage.EveryExitReleasesFlag` | frontend/js/management.js:316-406 | every exit releases the flag and restores the button, and a sent submission raises exactly one result alert |
| `ManagementPage.RouteAssignment.constructor` | frontend/js/management.js:166-170 | the page starts with empty drop-downs, no facility and the "select a facility" table |
| `ManagementPage.RouteAssignment.LoadDrivers` | frontend/js/management.js:172-197 | the driver drop-down is refilled, or one alert is raised |
| `ManagementPage.RouteAssignment.LoadFacilities` | frontend/js/management.js:200-225 | the facility drop-down is refilled, or one alert is raised |
| `ManagementPage.RouteAssignment.ChangeFacility` | frontend/js/management.js:300-308 | choosing a facility records it and shows its package table; clearing it shows "Please select a facility." |
| `ManagementPage.RouteAssignment.Submit` | frontend/js/management.js:316-387 | the submit handler up to its await leaves the specified screen and sends the specified payload |
| `ManagementPage.RouteAssignment.Finish` | frontend/js/management.js:387-405 | the rest of the handler leaves the specified screen for the reply |
| `DriverPage.FetchRoute` | frontend/js/driver.js:8-35 | a route is found exactly on a 2xx reply whose body holds one, and it is that route; a non-2xx status fails as "HTTP <status>"; a body without a route carries its message or "No route assigned" |
| `DriverPage.FilterSplits` | frontend/js/driver.js:84-85 | the delivered and undelivered packages together are all of them |
| `DriverPage.CountsAddUp` | frontend/js/driver.js:84-88 | completed and remaining add up to the route's packages, remaining counts the undelivered ones, and is 0 exactly when all are delivered |
| `DriverPage.RowOffersActionUntilDelivered` | frontend/js/driver.js:112-128 | a row offers "Mark Delivered" exactly when its package is not delivered; the delivered badge shows exactly for delivered packages, and otherwise the plain badge shows the status |
| `DriverPage.NoRouteSummary` | frontend/js/driver.js:144-153 | with no route the summary shows the server's message or "No route assigned" (the page's own "No active route" is never reached), and the table shows "No route assigned for today." |
| `DriverPage.DeliveredRequest` | frontend/js/driver.js:165-169 | a request is sent exactly when the dialog is confirmed, and it marks that package delivered |
| `DriverPage.DriverDashboard.constructor` | frontend/js/driver.js:66-67 | the dashboard starts with no route, no summary and an empty table |
| `DriverPage.DriverDashboard.LoadRoute` | frontend/js/driver.js:69-158 | loading a fetched route leaves the specified dashboard |
| `DriverPage.DriverDashboard.MarkDelivered` | frontend/js/driver.js:165-179 | sends the specified request; a confirmed update raises one alert and asks for a reload exactly when it succeeded; a cancelled dialog changes nothing |
| `DriverPage.MarkDeliveredNeedsConfirmation` | frontend/js/driver.js:165-169 | cancelling sends nothing; confirming sends status "delivered" with the note "Delivered to customer" |
| `DriverPage.Addresses` | frontend/js/driver.js:199-212 | the addresses are distinct and are exactly those some package is delivered to |
| `DriverPage.Stops` | frontend/js/driver.js:199-212 | one stop per distinct address |
| `DriverPage.GroupByAddress` | frontend/js/driver.js:199-212 | the grouping loop gives the addresses in order of first appearance, and a map from each to its stop |
| `DriverPage.AfterStep` | frontend/js/driver.js:201-211 | one pass of the loop body adds the package's address to the map's keys |
| `DriverPage.GroupStep` | frontend/js/driver.js:201-211 | one pass of the loop body keeps the map and order in step with the packages seen |
| `DriverPage.NumberStops` | frontend/js/driver.js:215-231 | the rows loop numbers the stops from one in map order |
| `DriverPage.StopRowsOfRoute` | frontend/js/driver.js:196-231 | the grouping loop then the rows loop give the rows of the route's stops |
| `DriverPage.RouteStopsView.constructor` | frontend/js/driver.js:182-183 | the view starts with an empty table |
| `DriverPage.RouteStopsView.LoadRouteStops` | frontend/js/driver.js:185-239 | loading shows the stops table of the fetched route, "No route assigned for today." or "Error loading route." |
| `DriverPage.StopsNumberedAndDistinct` | frontend/js/driver.js:215-231 | stops are numbered 1, 2, ... and each is a different address |
| `DriverPage.EveryPackageHasItsStop` | frontend/js/driver.js:199-212 | every package is listed at the stop for its own address |
| `DriverPage.StopDeliveredIffAll` | frontend/js/driver.js:219-227 | a stop shows "Delivered" exactly when every package for its address is delivered |
| `DriverPage.StopsPartitionRoute` | frontend/js/driver.js:199-212 | the stops' package lists add up to all of the route's packages |
| `InventoryPage.TransfersTable` | frontend/js/inventory.js:47-65 | the transfers table is the "no active transfers" row exactly when there are none, and otherwise has one row per transfer, in recording order, showing that transfer's id, tracking id and status (`TransferRowOf` drops only the initiation time) |
| `InventoryPage.TransferTableAfterSubmit` | frontend/js/inventory.js:47-65 | after the transfer form, a refused transfer leaves the table as it was; an accepted one keeps the earlier rows and adds the new transfer's row, in transit, at the end |
| `InventoryPage.ViewInventory` | frontend/js/inventory.js:25-44 | the table is the "no packages" row exactly when the facility is missing or empty, and otherwise lists its packages |
| `InventoryPage.SameFacilityChangesNothing` | frontend/js/inventory.js:112-115 | choosing the same facility twice is an error message and changes nothing else |
| `InventoryPage.MissingPackageChangesNothing` | frontend/js/inventory.js:117-124 | a trimmed tracking id that no package at the source carries is an error message and changes nothing else |
| `InventoryPage.TransferMovesFirstMatch` | frontend/js/inventory.js:126-156 | a transfer removes the first matching package from the source, appends it with today's arrival date to the destination (a missing one starts empty), records one transfer in transit, and leaves every other facility alone |
| `InventoryPage.TransferKeepsTotal` | frontend/js/inventory.js:137-149 | a transfer keeps the number of packages over any facilities that include both ends |
| `InventoryPage.SeededSnoc` | frontend/js/inventory.js:89-98 | seeding one more order pushes it onto facility i mod 4, and nothing more happens once a push has failed |
| `InventoryPage.SeededStaysThrown` | frontend/js/inventory.js:89-98 | once a push has failed, later orders change nothing |
| `InventoryPage.SeedRoundRobin` | frontend/js/inventory.js:85-101 | seeding four empty facilities deals the orders round-robin: facility k holds, in order, exactly the orders 4j + k |
| `InventoryPage.InventoryScreen.constructor` | frontend/js/inventory.js:4-11 | the stored dictionary and transfer list, or the four empty facilities and no transfers when storage holds none |
| `InventoryPage.InventoryScreen.InitializeSampleInventory` | frontend/js/inventory.js:85-101 | seeding happens only with orders and every facility empty, and then gives the specified dictionary; otherwise nothing changes |
| `InventoryPage.InventoryScreen.SubmitTransfer` | frontend/js/inventory.js:104-157 | the submit handler leaves the specified desk |
| `InventoryPage.TransferId` | frontend/js/inventory.js:68-70 | a transfer id is "TRF-" and at most nine more characters |
| `OrderManagementPage.TrackingId` | frontend/js/order-management.js:7-9 | a tracking id is "TRK-" followed by at most nine characters, none lower-case |
| `OrderManagementPage.NewOrder` | frontend/js/order-management.js:65-76 | a new order is placed at the facility, has a TRK- id, is due three days from now, and carries the form's customer, address and details |
| `OrderManagementPage.DeleteRemovesEveryMatch` | frontend/js/order-management.js:42 | deleting removes every order with that id and keeps every other order, in order |
| `OrderManagementPage.DeleteUnknownKeepsAll` | frontend/js/order-management.js:42 | deleting an id no order has keeps the list as it is |
| `OrderManagementPage.OrderScreen.constructor` | frontend/js/order-management.js:4 | the stored orders, or none when storage holds no list |
| `OrderManagementPage.OrderScreen.Displayed` | frontend/js/order-management.js:17-37 | the table is the "no orders" row exactly when there are no orders, and otherwise lists them |
| `OrderManagementPage.OrderScreen.SubmitOrder` | frontend/js/order-management.js:62-86 | the new order goes at the end, and one success message names it |
| `OrderManagementPage.OrderScreen.DeleteOrder` | frontend/js/order-management.js:40-47 | only a confirmed delete removes every order with that id and adds one message; otherwise nothing changes |
| `OrderManagementPage.DeletingLastIdShowsNoData` | frontend/js/order-management.js:40-47 | deleting the only id on the list leaves the "no orders" row |
| `PageCommon.RandomId` | frontend/js/routing.js:17-19 | a generated id (route, tracking or transfer) is its prefix followed by at most nine characters, none of them a lower-case letter |
| `PageCommon.FirstIndex` | frontend/js/routing.js:80 | the index found is the first element satisfying the test, and -1 exactly when none does |
| `PageCommon.Filter` | frontend/js/routing.js:93 | the kept elements all pass the test and come from the list, and every passing element is kept |
| `PageCommon.FilterAllOrNone` | frontend/js/routing.js:134 | filtering keeps the whole list when every element passes and nothing when none does |
| `RoutingPage.TrimAll` | frontend/js/routing.js:129 | every comma-separated piece is trimmed, and no piece is dropped or added |
| `RoutingPage.AssignedFlags` | frontend/js/routing.js:61-74 | each ready package is marked assigned exactly when an Active route lists it |
| `RoutingPage.CompleteMarksFirstOnly` | frontend/js/routing.js:78-88 | completing marks only the first route with that id as Completed, keeps every other route, and adds one message |
| `RoutingPage.CompleteUnknownDoesNothing` | frontend/js/routing.js:81 | completing an id no route has changes nothing, messages included |
| `RoutingPage.DeleteRemovesEveryRoute` | frontend/js/routing.js:91-99 | deleting leaves no route with that id and keeps every other route |
| `RoutingPage.NoValidIdAddsNoRoute` | frontend/js/routing.js:132-139 | when no piece names a stored order, no route is added and the only effect is the error message |
| `RoutingPage.NewRouteListsValidIds` | frontend/js/routing.js:134-157 | a new route is Active, keeps the earlier routes, counts its ids, and lists exactly the pieces that name a stored order |
| `RoutingPage.NewRouteAssignsItsPackages` | frontend/js/routing.js:145-160 | after a route is added, every ready order it lists shows as assigned |
| `RoutingPage.DeletedRouteReleases` | frontend/js/routing.js:91-99 | once the only Active route listing a package is deleted, the package shows as unassigned |
| `RoutingPage.RoutingScreen.constructor` | frontend/js/routing.js:4 | the stored routes, or none when storage holds no list, and no messages |
| `RoutingPage.RoutingScreen.Displayed` | frontend/js/routing.js:22-44 | the "no routes" row exactly when there are no routes, and otherwise one row per route |
| `RoutingPage.RoutingScreen.CompleteRoute` | frontend/js/routing.js:78-88 | only a confirmed completion changes the screen, as the completion specification says |
| `RoutingPage.RoutingScreen.DeleteRoute` | frontend/js/routing.js:91-99 | only a confirmed delete changes the screen, as the delete specification says |
| `RoutingPage.RoutingScreen.SubmitRoute` | frontend/js/routing.js:124-164 | the submit handler leaves the screen the route specification gives for the form and the stored orders |
| `TrackingPage.Lookup` | frontend/js/tracking.js:80 | no order is found exactly when none has the id; otherwise the first order with the id is found |
| `TrackingPage.DashesForSpaces` | frontend/js/tracking.js:27 | replacing every space with '-' keeps the length and changes only the spaces |
| `TrackingPage.StatusClassShape` | frontend/js/tracking.js:55 | the badge class is "status-" followed by the status in lower case with dashes for spaces, so it has no space and no upper-case letter |
| `TrackingPage.TrackingShowsFirstMatch` | frontend/js/tracking.js:75-89 | tracking shows the first order whose id is the trimmed input, with the "found" message |
| `TrackingPage.UpdateTouchesFirstMatch` | frontend/js/tracking.js:92-115 | an update sets the status, location and time of the first matching order only and leaves every other order as it was |
| `TrackingPage.UnknownIdSavesNothing` | frontend/js/tracking.js:82-113 | for an id no order has, tracking hides the result and an update saves nothing; both report the error |
| `TrackingPage.TrackingScreen.constructor` | frontend/js/tracking.js:4-5 | the stored orders, or none when storage holds no list, with nothing shown and no messages |
| `TrackingPage.TrackingScreen.AllPackages` | frontend/js/tracking.js:14-35 | the "no packages" row exactly when no order is stored, and otherwise one row per stored order |
| `TrackingPage.TrackingScreen.SubmitTracking` | frontend/js/tracking.js:75-89 | the tracking handler leaves the screen the tracking specification gives |
| `TrackingPage.TrackingScreen.ViewDetails` | frontend/js/tracking.js:38-46 | viewing shows the first order with the id and does nothing for an unknown id |
| `TrackingPage.TrackingScreen.SubmitStatusUpdate` | frontend/js/tracking.js:92-115 | the status handler, assigning the found order's fields one by one, leaves the screen the update specification gives |
| `RegisterPage.ErrorsOf` | frontend/js/register.js:115-184 | there is at most one message per field checked, and none exactly when every checked field passes |
| `RegisterPage.NameRule` | frontend/js/register.js:119-129 | a name passes exactly when, trimmed, it has at least two characters, all letters, whitespace, apostrophes or hyphens |
| `RegisterPage.PasswordFirstFailingRule` | frontend/js/register.js:152-171 | each password message appears exactly when its rule is the first to fail (length 8, upper case, lower case, digit, special character), and none when all hold |
| `RegisterPage.ConfirmRule` | frontend/js/register.js:174-181 | the confirmation passes exactly when it is non-empty and equal to the password |
| `RegisterPage.EveryFieldChecked` | frontend/js/register.js:115-184 | the form is valid exactly when all five field checks pass; no check is skipped |
| `RegisterPage.FormErrorsInOrder` | frontend/js/register.js:118-181 | the messages appear field by field in the form's order, one per failing field |
| `RegisterPage.NoRecaptchaNoRequest` | frontend/js/register.js:55-59 | without a reCAPTCHA response nothing is sent, whatever the fields |
| `RegisterPage.SentOnlyWhenValid` | frontend/js/register.js:50-68 | a request is sent exactly when the form is valid and there is a reCAPTCHA response, and it carries the trimmed name, email and phone and the password as typed |
| `RegisterPage.EmailAgreesWithBackend` | frontend/js/register.js:132-139 | the form's email check accepts exactly what the backend sanitizer accepts, on the trimmed text |
| `RegisterPage.BackendPhoneIsAccepted` | frontend/js/register.js:146 | every phone number the backend sanitizer accepts, the form accepts too |
| `RegisterPage.NoBreakSpaceOnlyInForm` | frontend/js/register.js:146 | the converse fails: the form takes a no-break space as a separator and the backend does not |
| `RegisterPage.RegistrationHandler.constructor` | frontend/js/register.js:3-20 | the handler starts with no field errors, no error or success text and no redirect |
| `RegisterPage.RegistrationHandler.ShowFieldError` | frontend/js/register.js:186-195 | the message appears under its field, and nothing else changes |
| `RegisterPage.RegistrationHandler.CheckField` | frontend/js/register.js:118-181 | one field's check shows its message exactly when the field fails, and reports whether it passed |
| `RegisterPage.RegistrationHandler.ValidateForm` | frontend/js/register.js:115-184 | every check runs, the messages are those of the failing fields in order, and the form is valid exactly when there are none |
| `RegisterPage.RegistrationHandler.HandleSubmit` | frontend/js/register.js:42-113 | the submit handler leaves the screen, and sends the request, that the submission specification gives for the form, the widget's response and the server's answer |
| `AuthPage.Stored` | frontend/js/auth.js:157-166 | the stored record keeps the reply's username, token and clearance level, and its role is the lower-cased role, else the clearance level |
| `AuthPage.RouterUser` | frontend/js/router.js:171-199 | the router sees an authenticated user only when the record has a token and a username; a stored role text is the role, a stored clearance number becomes a role that is none of the four role names, and only an absent role is missing |
| `AuthPage.NumericRoleIsRefused` | frontend/js/router.js:183-222 | a record whose role is the clearance number is refused every role area, and its access denial goes to "/" + the number + "/dashboard" |
| `AuthPage.ZeroClearanceStoresNumber` | frontend/js/auth.js:66-67 | a reply with no role and clearance level 0 stores the number 0 as the role, which the router reads as "0" |
| `AuthPage.ValidIff` | frontend/js/auth.js:92-116 | the form is valid exactly when the trimmed username has at least 3 characters and the password at least 6 |
| `AuthPage.BothFieldsChecked` | frontend/js/auth.js:92-116 | both fields are checked, so a missing username does not hide a short password |
| `AuthPage.InvalidSendsNothing` | frontend/js/auth.js:35-38 | while a field is invalid nothing is sent, nothing is stored and there is no redirect; the field errors are shown |
| `AuthPage.SuccessStoresAndRedirects` | frontend/js/auth.js:40-79 | a successful login sends the trimmed username, stores the lower-cased role, and with the router goes to the role's dashboard, /management/dashboard for a manager |
| `AuthPage.DashboardIsAllowed` | frontend/js/auth.js:66-73 | after a login with one of the four roles, the router sees an authenticated user allowed into the dashboard it is sent to |
| `AuthPage.ManagementRoleIsRefused` | frontend/js/auth.js:66-73 | a server role of "management" is sent to /management/dashboard, which the router refuses it, and the router's denial target is that same path |
| `AuthPage.AuthHandler.constructor` | frontend/js/auth.js:3-16 | the handler starts with no field errors, no error text and no redirect, and keeps the stored session |
| `AuthPage.AuthHandler.ValidateForm` | frontend/js/auth.js:92-116 | every rule of both fields runs, the messages are those of the failing rules, and the form is valid exactly when there are none |
| `AuthPage.AuthHandler.HandleSubmit` | frontend/js/auth.js:29-90 | the submit handler leaves the screen, and sends the credentials, that the submission specification gives for the fields and the server's answer |

## Left out

- Browser side effects: `fetch` and `DOMParser` are modelled as parsed replies, `innerHTML` as lists and tables, `alert` as counters, and `confirm` as a given answer. The 10 ms script-sequencing delay in the router and the other `setTimeout` delays (message banners, redirects after login and registration) are left out, because they only postpone work.
- HTTP plumbing: `HttpExchange`, the CORS headers, the OPTIONS/405 method checks, `respondJson`/`readStream`, and the dispatch and thread pool in `Main.java`. Controllers answer with a status code and a body.
- SQL and JDBC: tables are maps or sequences, and the query texts are not modelled. Connection outcomes and SQL exceptions are parameters. Where the step an exception strikes changes the answer or the tables, the parameter names that step: `TransferDao` initiation and completion (with what the rollback after a failed completion does), the package edit, and the driver's status update. In `LoginLockout` and `MfaManager`, every statement of a method answers the same message when it throws and leaves the table as it was, so the parameter is the message alone. DAO answers taken as parameters carry their own error results. InventoryDAO, RouteDAO and DatabaseConnection are not part of this model.
- Audit entries written to the database (`AuditLogger.log`) and console logging are left out, because they do not change any answer. `SecurityManager.AuditLogger` is modelled, because it is in memory.
- Concurrency: the sleeping thread in `RateLimiter.temporaryBan` that lifts a ban is left out; the ban is only the marker insert. ConcurrentHashMap atomicity and synchronized logging are also left out. Every operation runs alone.
- Floating point: route optimisation, geocoding, inventory utilisation and `Double.parseDouble` are left out. The parsed double is a parameter in `PackageController`.
- Network clients: reCAPTCHA verification (`RecaptchaVerifier`, `SecurityManager.RecaptchaVerifier`) is a given verdict. GeocodingService, RouteController, admin.js, track.js and orders.js are not part of this model.
- Crypto and randomness: SHA-256 is an abstract function of the password and salt. `generateSalt`, SecureRandom codes, UUID tokens and `Math.random` ids are parameters.
- Wall-clock time: `Instant.now`, SQL `NOW()` and `new Date()` are a `now` parameter. Date formatting is a parameter function.
- Regex engines and `localeCompare`: each pattern is a hand-written predicate or rewrite in `Patterns`. Sorting uses plain string order.
- CustomerController, PaymentGateway, User and InventoryItem are not part of this model. An inventory item's JSON is a parameter of `InventoryController`.
- `EnvLoader`: the walk up the directory tree that finds the `.env` file is left out. Its result, and an IOException part-way through reading, are parameters.
- `Router`: each page file's fetch answer is one function fixed for the router's life, so two loads of one file always agree and a file that fails once fails on every load.
- `Router`: navigation recursion runs with a fuel bound. As written, the recursion through `showAccessDenied` does not always end (see Findings). The corrected router is proved to end within a bound that the fuel covers.
- `ManagementController`: `handleInventoryReport` and `handleGetDrivers` use the same session check and manager/admin gate as `Authorize`, then run a read-only SQL listing. The listings are not modelled.
- `AdminController`: the rows that `handleGetLogs` and `handleGetUsers` list are not modelled. The gates, paging and query parsing are.
- `TransferController`: the JSON rendering of the pending-transfer and by-tracking listings is left out. A successful listing is the service's value.
- `TransferDao`: the join queries behind `getPendingTransfers` and `getTransferByTracking` are left out. The service takes their answers as parameters.
- TransferDao.TransferDao.CompleteTransfer: the `conn.rollback()` that answers an unknown, completed or cancelled transfer (TransferDAO.java:127-141) is taken to return. If it throws, the catch block answers with an SQL or rollback error instead of the refusal; the tables are unchanged either way. That connection is left open with auto-commit off, which is not modelled.
- `TransferService`: a null clearance level, which would throw in the Java comparison, is not modelled here. The controllers throw on a null level before they reach the service.
- `InputValidator`: `isValidEmail`, `isValidPhone`, `isValidTrackingId` and a boolean `validatePasswordStrength` are called but not defined with those signatures. They are parameters, and the validators are proved against any answers they give.
- `SessionManager`: a session is held by value, so renewing the shared `Session` object is a map update. Aliasing of that object is not modelled.
- `AuthPage`: `redirectUser` is never called, so it is left out.
- AuthPage.RouterUser: a reply field that is null and one that is absent are both `None`. When the role and clearance level are both missing, the stored role is taken as absent, so the router's denial target reads "undefined"; a clearance level sent as JSON null would be stored as null and read "null" instead.
- PackageTableRows: the rows it promises are built by `RowOf` from the corrected address cells, so the city shows no comma before the state. The page as written shows "Springfield," (see Findings); `RowAsWritten` is the row as written and `AsWrittenRowAddsComma` relates the two.
- ChangeFacility: the package table it shows is that of `PackageTableRows`, with the corrected city cells.
- `JavaStrings`: case mapping covers ASCII letters only, and numbers are parsed from ASCII digits only. Locale-specific and non-ASCII behaviour is not modelled.

## Findings

| source | as written | input that shows it | evidently intended | confidence | as-written member | corrected member |
|---|---|---|---|---|---|---|
| frontend/js/router.js:214-222 | `showAccessDenied` navigates to `/<role>/dashboard`, and a role that may not open that page is denied again, without end | a session whose role is "management" (the log-in page maps only "manager" to the management area): `/management/dashboard` is denied, and the denial navigates to it again | fall back to /login when the role's own dashboard is not open to it | not executed | `Router.DenialLoops` | `Router.CorrectedDenialEnds` |
| backend/src/com/delivery/security/SecurityManager.java:310 | the special-character pattern leaves a `[` unescaped inside its class. Java reads it as a nested class, so the outer class never closes, and `matches` throws PatternSyntaxException | any password that passes the first four rules, such as "Abcdefg1!" | test for one character of the listed special set | not executed | `SmPasswordManager.ValidatePasswordStrengthAsWritten` | `SmPasswordManager.ValidatePasswordStrength` |
| frontend/js/management.js:270-275 | the city is the text after the street up to the state, split at spaces only, so the comma before the state stays in the city cell | "12 Main St, Springfield, IL 62704" gives the city "Springfield," | the city without the comma, "Springfield" | not executed | `ManagementPage.CityKeepsComma` | `ManagementPage.CellsOfWellFormedAddress` |
