# License verification core, modelled in Dafny

The repository grants or refuses software use by checking a license against four
constraints: where the caller is (country), which machine it runs on (MAC address),
when the license expires, and how many seats (concurrent users) it allows. The same
evaluation exists in several near-duplicate variants, and each is modelled here in its
own module:

- `Engine`: the Python `LicenseVerifier` of `check_License_new.py`. It has four pure
  checks, an aggregator that always runs all four and ANDs them, a record table with a
  fallback for unknown keys, and a verification token over `(key, verdict, day)`.
  - `SeatStore` (shared by all three Python variants) holds the per-key seat counter
    file as a `SeatCounter` class with one atomic `Claim` and a read-only `Peek`.
- `Script`: the copy in `server/scripts/verify_license.py`. It checks a single MAC, lets a
  broken counter file raise, and adds the command-line `main` with its exit codes.
- `Legacy`: the older function-style `check_Licence.py`, with its own check order, its
  own limit table and its default country list.
- `Rules`: the TypeScript `LicenseVerificationService`. It dispatches on the license
  type, and a mixed license returns the first failure, else the first warning.
- `Controller`: the server's `verifyLicense`, a chain of mutable flags with a grace
  period and a conditional `current_users + 1`, plus `create`'s validation and
  defaults, over a `LicenseTable` class.
  - `DirectDb`: the copy in `directDatabaseService.ts`, the UPDATE statement builders
    for customers and licenses, and the `deleteCustomer` guard, over a `Database` class.
- `Demo`: the `useLicenseDemo` hook. Its seat manager adds users against a limit and
  removes them with a clamp at 0, and its verification is an early-return chain.
- `Validation`: the MAC-address and country-code patterns, and the whole-day difference.
- `LicenseForm`: the duplicate-free MAC and country lists and the license-type
  derivation of the creation form, kept as a `FormState` class.
- `MockProducts` and `DataContext`: the in-memory product catalogs and their `add*`
  operations.
- `Common` and `Types` hold the shared helpers and the entity records of
  `src/types/license.ts`.

Conventions:

- Instants of the TypeScript and JavaScript code are integers in milliseconds.
  - `Math.ceil(diff / 86400000)` is exact ceiling division (`CeilDiv`).
  - The 80 % seat threshold is `5 * projected >= 4 * max`.
- Python dates are integer day numbers. Parsing a `YYYY-MM-DD` text is a parameter that
  either yields a day or an error message.
- Everything that runs outside the code is a parameter of the model:
  - the geolocation reply;
  - the machine's MAC list;
  - the country-name table;
  - today's day number and the conversion of a day to its ISO text;
  - the md5 digest;
  - the clock;
  - the random identifier generators.
- Points where the code behaves other than a reader of its names or comments might expect:
  - **Unknown keys.** The Python engine never reports an unknown key as "not found". `get_license_details` first adds a fallback record for it, so the "Invalid license key" branch is dead (see `Engine.LicenseDetails`).
  - **Seat claims.** A seat claim is a read followed by a separate write of the counter file. The model takes each `Claim` as one sequential step.
  - **The script's seat check.** The script's seat check is not wrapped in a handler. A counter file that cannot be parsed therefore aborts the whole verification, and `main` exits with status 1 (`Script.RunCli`). The other two Python variants turn the same fault into a failed check.
  - **Messages.** Every message is the code's own text, character for character.
  - **Null and undefined.** The TypeScript records declare the seat fields as numbers or `undefined`, but a NULL column arrives as `null`. JavaScript treats the two differently (`Common.JsNumber`): `null` passes an `!== undefined` guard, compares as 0 in `>=` and prints as "null".
  - **The fallback record.** The fallback record allows 10 seats, so the 400-days-out scenario claims the first of 10 seats rather than of 5.

## Model

| member | source | states |
|---|---|---|
| `SeatStore.SeatOutcome` | check_License_new.py:161-183 | a claim is granted exactly when the stored count is below the limit, and then the new count is count + 1 and stays within the limit; a status read succeeds exactly when count < limit; a missing file counts as 0 and an unparseable one is its own outcome |
| `SeatStore.SeatCounter.Stored` | check_License_new.py:163-169 | what reading `user_count_<key>.txt` yields: 0 when the file is absent, the stored count otherwise, a failure when it cannot be parsed |
| `SeatStore.SeatCounter.Peek` | check_License_new.py:179-183 | a status read returns the stored value and never writes the counter, so repeated status checks are idempotent |
| `SeatStore.SeatCounter.Claim` | check_License_new.py:171-178 | the claim's outcome is the seat decision on the value stored beforehand; only a granted claim writes, and it writes exactly the new count; other keys are untouched |
| `SeatStore.ClaimRunGrantsFreeSeats` | check_License_new.py:171-178 | n claims in a row are granted exactly min(n, limit − start) times, and the final count is the start plus the grants, never above the limit |
| `SeatStore.TwoClaimsOneSeat` | check_License_new.py:171-178 | two claims against one free seat: the first gets seat 1, the second is refused at 1/1, and the stored count ends at 1 |
| `Engine.CheckCountry` | check_License_new.py:103-115 | an empty allowed list fails with "No allowed countries specified in license"; otherwise the check passes iff the current code is listed, and the message names the code either way |
| `Engine.UnknownCountryFailsClosed` | check_License_new.py:103-115 | the 'Unknown' code that a failed lookup produces (lines 69-71) passes only when 'Unknown' itself is listed |
| `Engine.FirstAuthorized` | check_License_new.py:123-129 | the loop finds nothing iff no system MAC is in the upper-cased allowed list; otherwise it returns the first such MAC in interface order |
| `Engine.CheckMac` | check_License_new.py:117-130 | an empty allowed list fails with "No MAC addresses specified in license"; otherwise the check passes iff some system MAC is in the upper-cased allowed list |
| `Engine.MacMatchIgnoresCase` | check_License_new.py:123-127 | with upper-case system MACs, the MAC check passes iff some system MAC equals the upper-casing of some allowed entry (the letter case of the allowed entries does not matter) |
| `Engine.CheckExpiry` | check_License_new.py:132-147 | the check passes iff the date parses and is not before today; an unparseable date gives "Invalid expiry date format"; a past date reports the days since expiry; a passing message says "expires soon" iff at most 30 days remain |
| `Engine.SeatCheck` | check_License_new.py:171-183 | the seat check passes exactly for a granted claim or an available seat |
| `Engine.CheckUserCount` | check_License_new.py:149-159 | the seat check against the store: its result is the seat decision on the value stored beforehand; the counter is written only for a granted claim, and a broken file becomes a failed check |
| `Engine.LicenseDetails` | check_License_new.py:192-242 | the lookup never comes back empty: listed keys get their table record, and every other key gets the synthesized Custom record |
| `Engine.Notices` | check_License_new.py:258-305 | the messages are the failed checks in the order country, MAC, expiry, seats, plus the expiry message when it passed with "expires soon"; all checks passing with no notice gives an empty list |
| `Engine.Summary` | check_License_new.py:305-311 | the summary begins "License verification successful" exactly when the verdict is positive: alone without messages, followed by " with notices: " with some; a negative verdict begins "License verification failed: " |
| `Engine.TokenInputSeparatesVerdictAndDay` | check_License_new.py:320-324 | for one key, equal digested texts mean equal verdicts and equal ISO day texts, so the token changes when the verdict or the date text changes (up to digest collisions) |
| `Engine.TokenInputSeparatesDays` | check_License_new.py:320-324 | with a one-to-one date formatting, equal digested texts for one key mean equal verdicts and equal day numbers |
| `Engine.TokenInputSeparatesKeys` | check_License_new.py:320-324 | for one verdict and day, equal digested texts mean equal keys |
| `Engine.Assess` | check_License_new.py:250-318 | the verdict is the AND of all four checks, which always run; the token digests `key:verdict:today` |
| `Engine.Evaluate` | check_License_new.py:244-318 | the report carries the key and its tier (the table's, "Custom" for an unlisted key); the verdict is the AND of the four checks, and the summary starts with the success text exactly when it is positive |
| `Engine.TokenDeterministic` | check_License_new.py:320-324 | two evaluations of one key with the same verdict on the same day carry the same token, whatever else differed |
| `Engine.VerifyLicense` | check_License_new.py:244-318 | the method's result is the declarative evaluation on the counter value stored beforehand; a status check never writes the counter, and a claim writes only when granted |
| `Engine.RunChecks` | check_License_new.py:250-318 | the step-by-step body of verify_license (a mutable verdict, messages and results) computes `Assess` |
| `Engine.ChecksBeforeSeats` | check_License_new.py:258-292 | the country, MAC and expiry checks run in that order; the verdict so far is their AND, and the messages so far are the failures in order, plus the expiry message when it says "expires soon" |
| `Engine.CustomKeyFarFromExpiry` | check_License_new.py:232-242 | an unlisted key seen from the US on a listed machine, 400 days before expiry, with no seat taken, passes with "License verification successful" and no notices, and its claim takes seat 1 |
| `Engine.TenDaysLeftMessage` | check_License_new.py:141-142 | ten days before expiry the check passes with "License expires soon (in 10 days). Please renew." |
| `Engine.TenDaysLeftGivesOneNotice` | check_License_new.py:287-318 | any record whose country, MAC and seat checks pass, 10 days before expiry, passes with exactly one notice, the 10-day expiry message |
| `Engine.CustomKeyNearExpiry` | check_License_new.py:232-318 | the fallback record 10 days before its expiry, claiming the first seat, passes with the one 10-day notice |
| `Script.CheckCountry` | server/scripts/verify_license.py:55-65 | an empty list fails with "No allowed countries specified in license"; otherwise the check passes iff the code is listed, and the message names the code |
| `Script.CheckMac` | server/scripts/verify_license.py:67-77 | an empty list fails with "No MAC addresses specified in license"; otherwise the single system MAC must be in the upper-cased allowed list |
| `Script.SeatCheck` | server/scripts/verify_license.py:96-118 | an unparseable counter file raises its error; otherwise the result is the engine's seat check |
| `Script.Assess` | server/scripts/verify_license.py:171-242 | there is no not-found path; a broken counter file aborts the evaluation with its error; otherwise the verdict is the AND of the four checks and the token digests `key:verdict:today` |
| `Script.Evaluate` | server/scripts/verify_license.py:171-242 | the evaluation raises exactly when the counter file cannot be parsed; otherwise the report carries the key and its tier, and the summary starts with the success text exactly when the verdict is positive |
| `Script.AgreesWithEngine` | server/scripts/verify_license.py:171-242 | on a machine with one MAC, the script and the engine reach the same verdict and the same token, unless the counter file is broken, where only the script raises |
| `Script.CheckUserCount` | server/scripts/verify_license.py:96-118 | a claim at the limit fails without writing; a claim below it writes count + 1; a status check never writes |
| `Script.VerifyLicense` | server/scripts/verify_license.py:171-242 | the method's outcome is the declarative evaluation on the counter value stored beforehand; the counter changes only for a granted claim |
| `Script.RunChecks` | server/scripts/verify_license.py:182-242 | the step-by-step body computes `Assess` on the record it is given |
| `Script.ChecksBeforeSeats` | server/scripts/verify_license.py:182-216 | the country, MAC and expiry checks run in that order; the verdict so far is their AND, and the messages so far are the failures in order, plus the soon-expiry notice |
| `Script.RunCli` | server/scripts/verify_license.py:244-283 | without a key, main prints `valid: false` with "License key required" and returns 1; the mode "add-user" in any letter case is the only way to claim a seat; a completed evaluation returns 0 whatever the verdict, and only an escaping exception returns 1 |
| `Legacy.CheckCountry` | check_Licence.py:7-60 | a country passes iff the lookup succeeded and its code is in the given list, or in ("MY", "US", "IN") when no list is given; network and other errors fail with their own messages |
| `Legacy.EmptyListIsNotDefault` | check_Licence.py:28-30 | only a missing list falls back to the defaults; an explicitly empty list admits no country |
| `Legacy.CheckDate` | check_Licence.py:73-99 | the check passes iff the date parses and is not past; a past date gives "License has expired."; a parse error fails with its message; a passing message carries the renewal notice iff at most 30 days remain |
| `Legacy.DateAgreesWithEngine` | check_Licence.py:73-99 | the legacy date check and the engine's expiry check agree on the verdict and on which days carry a near-expiry notice |
| `Legacy.CheckMac` | check_Licence.py:101-121 | an empty list fails with "No allowed MAC addresses specified"; otherwise membership is exact and case-sensitive, and a refusal names the machine's MAC |
| `Legacy.MaxUsersForLicense` | check_Licence.py:171-208 | PREMIUM-123 gets 50, STANDARD-456 gets 25, BASIC-789 gets 5, and every other key gets 10 |
| `Legacy.LimitsMatchEngineTable` | check_Licence.py:196-204 | this limit table gives every key, EXPIRED-999 and unlisted keys included, the limit the engine's records give it |
| `Legacy.SeatCheck` | check_Licence.py:150-165 | the seat check passes exactly for a granted claim or an available seat |
| `Legacy.Notices` | check_Licence.py:230-260 | the messages are the failed checks in the order country, date, MAC, seats, plus a passing date message when it carries the renewal notice |
| `Legacy.Overall` | check_Licence.py:262-268 | the overall message begins "License is valid and active for this system." exactly when the verdict is positive: alone without messages, followed by " However: " with some; a negative verdict begins "License validation failed: " |
| `Legacy.Assess` | check_Licence.py:210-270 | the verdict is the AND of the four checks; a missing expiry date is read as 2099-12-31, missing MACs as an empty list, and the seat limit comes from the key's table entry |
| `Legacy.MissingKeySharesDefaultCounter` | check_Licence.py:255-256 | every license without a key is counted under 'DEFAULT', so all such callers share one counter |
| `Legacy.CheckUserCount` | check_Licence.py:123-168 | the seat check against the store writes only for a granted claim, and a broken counter file becomes a failed check |
| `Legacy.CheckLicense` | check_Licence.py:210-270 | the step-by-step body computes `Assess` on the counter value stored beforehand, and the counter changes only for a granted claim |
| `Legacy.ChecksBeforeSeats` | check_Licence.py:226-252 | the country, date and MAC checks run in that order; the verdict so far is their AND, and the messages so far are the failures in order, plus a passing date message carrying the renewal notice |
| `Legacy.SampleSeatMessages` | check_Licence.py:150-165 | the seat messages of a status check at 0/10, a claim of seat 1 out of 10, and a status check at 1/10 |
| `Legacy.SampleRun` | check_Licence.py:273-302 | the module's sample run on a fresh counter sees 0/10, then adds a user to reach 1/10, then sees 1/10 |
| `Rules.Invalid` | src/services/licenseVerificationService.ts:232-237 | every refusal is invalid, carries its error message and has status 'expired' |
| `Rules.VerifyDateBased` | src/services/licenseVerificationService.ts:8-47 | no expiry is invalid; a date after expiry is invalid; otherwise the license is valid, carries the ceiling day count, and warns iff at most 30 days remain |
| `Rules.DateWarningWindow` | src/services/licenseVerificationService.ts:31-39 | the warning status comes exactly on the last 30 days before expiry, and then the days remaining are between 0 and 30 |
| `Rules.VerifyUserCountBased` | src/services/licenseVerificationService.ts:52-88 | a missing limit or count is invalid; the license is valid iff the projected count (current + 1 when adding) is within the limit, and warns iff the projection reaches 80 % of the limit |
| `Rules.ClaimOnFullLicenseFails` | src/services/licenseVerificationService.ts:63-81 | at the limit, a claim is invalid while a status check is valid with a warning |
| `Rules.VerifyMacBased` | src/services/licenseVerificationService.ts:93-127 | an absent or empty MAC list is invalid; otherwise the license is valid iff the simulated MAC "00:1A:2B:3C:4D:5E" is listed |
| `Rules.VerifyCountryBased` | src/services/licenseVerificationService.ts:132-163 | an absent or empty country list is invalid; otherwise the license is valid iff the simulated country "US" is listed |
| `Rules.Run` | src/services/licenseVerificationService.ts:8-163 | every single rule returns a result whose status is 'expired' exactly when it is invalid |
| `Rules.ApplicableRules` | src/services/licenseVerificationService.ts:171-189 | a mixed license runs exactly the rules whose data is present, in the order date, users, MAC, country |
| `Rules.Applicable` | src/services/licenseVerificationService.ts:171-189 | the result list holds each applicable rule's result, in the order date, users, MAC, country |
| `Rules.First` | src/services/licenseVerificationService.ts:191-203 | the first element of a filtered list: nothing iff no element qualifies, else the earliest one that does |
| `Rules.Combine` | src/services/licenseVerificationService.ts:191-209 | the aggregate is valid iff every result is; an invalid aggregate is the first invalid result; a valid aggregate with some warning is the first warning result; with neither it is the plain valid result |
| `Rules.VerifyMixed` | src/services/licenseVerificationService.ts:168-210 | a mixed license is valid iff every rule with data passes; a failing one reports the earliest failing rule (date, users, MAC, country), a passing one with warnings the earliest warning rule, and otherwise plainly passes |
| `Rules.PositionOf` | src/services/licenseVerificationService.ts:171-189 | a rule with data occurs in the applicable list, and its result at the same place of the result list |
| `Rules.MixedValidIff` | src/services/licenseVerificationService.ts:191-209 | the aggregate of a mixed license passes exactly when every rule with data passes |
| `Rules.MixedFailureIsFirst` | src/services/licenseVerificationService.ts:191-196 | a failing aggregate is the result of a failing rule with data before which every rule with data passes |
| `Rules.MixedWarningIsFirst` | src/services/licenseVerificationService.ts:198-203 | a passing aggregate with a warning rule is the result of a warning rule with data before which no rule with data warns |
| `Rules.MixedPlainPass` | src/services/licenseVerificationService.ts:205-209 | when every rule with data passes without warning, the aggregate is the plain valid result |
| `Rules.RunPassesIff` | src/services/licenseVerificationService.ts:8-163 | for each rule with data, when that rule passes, stated on the license's own fields |
| `Rules.MixedReportsExpiryFirst` | src/services/licenseVerificationService.ts:191-196 | an expired mixed license reports the date rule's refusal, whatever the other rules say |
| `Rules.MixedDropsRemainingDays` | src/services/licenseVerificationService.ts:205-209 | a mixed license with only a distant expiry loses the day count that the date rule alone reports |
| `Rules.VerifyLicense` | src/services/licenseVerificationService.ts:215-239 | each of the five license types is dispatched to its rule; any other type is invalid with "Unknown license type." |
| `Rules.CombineKeepsCoherence` | src/services/licenseVerificationService.ts:191-209 | when every result has status 'expired' exactly when invalid, so does the aggregate |
| `Rules.StatusMatchesValidity` | src/services/licenseVerificationService.ts:215-239 | every verdict of the service has status 'expired' exactly when it is invalid |
| `Controller.Evaluate` | server/controllers/license.controller.js:383-454 | the flag-threading pipeline computes the rule-by-rule reference verdict, in which each field holds what the last applicable rule wrote |
| `Controller.VerdictComposes` | server/controllers/license.controller.js:383-454 | the rule-by-rule verdict is the expiry rule, then the seat rule, then the MAC and country rejections, applied in turn |
| `Controller.ApplyExpiryRule` | server/controllers/license.controller.js:389-415 | the nested branches give the expiry stage: past the grace period the license is invalid and 'expired'; within grace, or within 30 days of expiry, it warns; the day count is present iff there is an expiry |
| `Controller.ApplySeatRule` | server/controllers/license.controller.js:417-430 | the branches give the seat stage: at the limit a claim makes the license invalid and 'expired', and a status check only warns; below the limit nothing changes |
| `Controller.ApplyRejection` | server/controllers/license.controller.js:432-454 | when a MAC or country rule applies and the value is not listed, the license becomes invalid and 'expired' with that rule's message; otherwise nothing changes |
| `Controller.Verdict` | server/controllers/license.controller.js:383-454 | an error message is present exactly when the verdict is negative; 'expired' only comes with a negative verdict, 'valid' only with a positive one and no warning; a countdown is reported exactly when the license has an expiry |
| `Controller.RulesOnlyLower` | server/controllers/license.controller.js:389-454 | the expiry stage is positive exactly when the grace period has not ended; the seat and membership stages never turn a negative verdict positive, and a rejection always makes it negative |
| `Controller.GracePeriodBoundary` | server/controllers/license.controller.js:398-410 | within the grace period the verdict stays positive and the countdown shown is not negative; one millisecond past it the verdict is negative |
| `Controller.ExpiryWarningWindow` | server/controllers/license.controller.js:411-414 | an unexpired license warns on exactly its last 30 days, and then reports 0 to 30 days |
| `Controller.SeatLimitClaimVersusCheck` | server/controllers/license.controller.js:421-429 | at the limit a claim is refused, while a status check stays valid with a warning |
| `Controller.MissingInputsSkipChecks` | server/controllers/license.controller.js:433-454 | a MAC or country input that is missing or empty skips its check, leaving only the expiry and seat rules to decide |
| `Controller.WarningStatusOnInvalidLicense` | server/controllers/license.controller.js:398-429 | as written, a license past its grace period and at its seat limit, checked without a claim, is invalid yet has status 'warning' |
| `Controller.IntendedVerdict` | server/controllers/license.controller.js:383-454 | the corrected verdict has status 'expired' exactly when it is invalid, keeps the pipeline's validity, and agrees with it on every valid license |
| `Controller.IncrementStaysWithinLimit` | server/controllers/license.controller.js:456-465 | a count that the pipeline increments was below the limit (null read as 0), so the new count stays within it |
| `Controller.InputOf` | server/controllers/license.controller.js:417-429 | a NULL `current_users` compares like 0 and prints as "null"; the seat rule applies exactly to a seat-counted type with a non-NULL limit, and the limit is reached exactly when the count (NULL as 0) is at least the limit |
| `Controller.NullCountOnZeroSeatRow` | server/controllers/license.controller.js:417-429 | a claim on a zero-seat row whose count is NULL is refused, with a message that prints "null" for the count |
| `Controller.NumberOr` | server/controllers/license.controller.js:28-33 | `value \|\| fallback` on a number: a missing value and 0 both fall back |
| `Controller.TextOr` | server/controllers/license.controller.js:27 | `value \|\| fallback` on a text: a missing value and "" both fall back |
| `Controller.NewRecord` | server/controllers/license.controller.js:22-34 | a stored row defaults scope to 'local', period to 365, grace to 0 and the current count to 0 |
| `Controller.LicenseTable.Create` | server/controllers/license.controller.js:10-37 | a request missing the customer, product, version or type is rejected with the required-fields message and stores nothing; otherwise exactly the new row is stored |
| `Controller.LicenseTable.VerifyLicense` | server/controllers/license.controller.js:356-465 | a missing id gives 400 and an unknown id gives 404, both before any check and without a write; otherwise the answer is the verdict, and the stored count becomes count + 1 exactly when the increment condition holds |
| `Controller.FreshLicenseAdmitsFirstClaim` | server/controllers/license.controller.js:15-34 | a user-count license created without an expiry or a count admits its first claim, raising the count from 0 to 1 |
| `DirectDb.PipelineOf` | src/services/directDatabaseService.ts:689-701 | the seat rule applies exactly to a seat-counted type whose limit is not undefined; the limit is reached exactly when `currentUsers >= maxUsersAllowed` holds in JavaScript (null as 0, undefined never); the message prints both values as JavaScript does |
| `DirectDb.Formatted` | src/services/directDatabaseService.ts:48-66 | formatLicense keeps the id, type and expiry, turns a NULL seat column into null (not undefined), so it counts as 0, and always gives MAC and country lists |
| `DirectDb.Written` | src/services/directDatabaseService.ts:546-554 | an undefined seat field leaves the column as stored, null writes NULL, and a number writes that number |
| `DirectDb.Present` | src/services/directDatabaseService.ts:298-326 | the pushed fields are exactly the set ones, in column order |
| `DirectDb.PresentEmptyIffNoneSet` | src/services/directDatabaseService.ts:556-562 | nothing is pushed iff no field is set |
| `DirectDb.PushIfPresent` | src/services/directDatabaseService.ts:298-301 | one `if (field) { updates.push; params.push }` step appends the assignment and the value of a set field and nothing otherwise |
| `DirectDb.BuildCustomerUpdate` | src/services/directDatabaseService.ts:295-328 | the loop pushes one assignment and one parameter per truthy customer field, then the id, so the parameters number one more than the assignments and end with the id |
| `DirectDb.PushPresent` | src/services/directDatabaseService.ts:298-326 | the sequence of guarded pushes yields one assignment and one parameter per present field, in column order |
| `DirectDb.EmptyCustomerPatchIsMalformed` | src/services/directDatabaseService.ts:328-333 | as written, a patch that sets no field yields `UPDATE customers SET  WHERE id = ?`, which has an empty SET list |
| `DirectDb.CustomerUpdateAsWritten` | src/services/directDatabaseService.ts:318-336 | updateCustomer as written binds one parameter per set field, in order, and then the id, whatever the patch sets |
| `DirectDb.CustomerUpdate` | src/services/directDatabaseService.ts:291-344 | the corrected builder issues no statement when no field is set, and otherwise the same statement with at least one field and the id |
| `DirectDb.CustomerUpdateIssuedIffFieldSet` | src/services/directDatabaseService.ts:298-326 | the corrected builder issues a statement exactly when some customer field is truthy |
| `DirectDb.LicenseUpdate` | src/services/directDatabaseService.ts:498-562 | no UPDATE is issued when no field is set; otherwise the parameters are one per set field plus the id, last |
| `DirectDb.BuildLicenseUpdate` | src/services/directDatabaseService.ts:498-562 | the loop over the eleven columns computes `LicenseUpdate`, pushing the id only when there is an update |
| `DirectDb.PatchIdempotent` | src/services/directDatabaseService.ts:491-594 | applying the same license patch twice stores what applying it once stores |
| `DirectDb.EmptyPatchChangesNothing` | src/services/directDatabaseService.ts:556-594 | a patch without a defined field issues no UPDATE and leaves the row as it was |
| `DirectDb.ZeroNumbersAreWritten` | src/services/directDatabaseService.ts:551-554 | a count of 0 is written, because numbers are checked for being defined rather than truthy |
| `DirectDb.ExpiryStoredAsDay` | src/services/directDatabaseService.ts:541-543 | only the UTC date of a new expiry is stored, so a check later that same day finds the license lapsed although the instant given lies ahead |
| `DirectDb.NullLimitIsWritten` | src/services/directDatabaseService.ts:546-549 | a null limit passes `!== undefined`: the UPDATE is issued, binds SQL NULL, and the stored limit becomes NULL |
| `DirectDb.NullLimitFromDatabaseEnforced` | src/services/directDatabaseService.ts:689-701 | a seat-counted row stored with a NULL limit is still limited once read back: a claim is refused as 'expired' with "null" in the message, and a status check warns |
| `DirectDb.Database.DeleteCustomer` | src/services/directDatabaseService.ts:346-365 | the delete is refused with "Cannot delete customer with existing licenses" exactly when a license refers to the customer; otherwise only that customer goes, so every license keeps its customer |
| `DirectDb.Database.UpdateLicense` | src/services/directDatabaseService.ts:491-594 | the statement is `LicenseUpdate`; only the patched license row changes, to `Patched`: set fields replaced, a seat field written unless undefined, the expiry kept as its UTC day |
| `DirectDb.Database.VerifyLicense` | src/services/directDatabaseService.ts:640-771 | the answer is the pipeline's verdict on the caller's object (null and undefined as JavaScript reads them); one log row carries the verdict and `errorMessage \|\| warningMessage`; the stored count is bumped exactly when the verdict is positive, a user is being added, and the limit is not undefined |
| `DirectDb.Bumped` | src/services/directDatabaseService.ts:730-733 | `current_users = current_users + 1` raises a defined count by one, keeps NULL as NULL and changes no other column |
| `DirectDb.LoggedMessageOfVerdict` | src/services/directDatabaseService.ts:736-750 | the logged `errorMessage \|\| warningMessage` is the error for a refusal (even when a warning was also set), the warning for an admission, and NULL exactly for an admission without a warning |
| `DirectDb.StaleCopyCanOvershoot` | src/services/directDatabaseService.ts:689-734 | the check reads the caller's copy but the increment writes the stored row, so a stale copy below the limit can push a full stored count past the limit |
| `DirectDb.UndefinedCountIsNotAtLimit` | src/services/directDatabaseService.ts:689-700 | an undefined count is never at the limit (`undefined >= 0` is false), so a claim on a zero-seat license passes, while the same license with a null count refuses it |
| `Demo.Find` | src/hooks/useLicenseDemo.ts:22 | `licenses.find` finds the first license with that id, or none when no license has it |
| `Demo.Check` | src/hooks/useLicenseDemo.ts:98-117 | a license is reported exactly when one with that id is listed, and it has that id; an unknown id is refused with "License not found" |
| `Demo.FindUser` | src/hooks/useLicenseDemo.ts:66 | `users.find` finds the first user with that id, or none when no user has it |
| `Demo.TakeSeat` | src/hooks/useLicenseDemo.ts:40-48 | every license with that id and a defined count gains one seat, and nothing else changes |
| `Demo.ReleaseSeat` | src/hooks/useLicenseDemo.ts:80-88 | every license with that id and a defined count v gets exactly max(0, v − 1) seats; a license with another id or no count is unchanged, and no other field changes |
| `Demo.UsersOf` | src/hooks/useLicenseDemo.ts:208-210 | the users kept are exactly those of that license |
| `Demo.WithoutUser` | src/hooks/useLicenseDemo.ts:94 | the users kept are exactly those whose id differs |
| `Demo.UsersOfAppend` | src/hooks/useLicenseDemo.ts:60 | after an append, a license's users are its old users, then the new one if it belongs to that license |
| `Demo.RemoveUndoesAddOfUsers` | src/hooks/useLicenseDemo.ts:60 | removing a just-added user with a new id gives back the old user list |
| `Demo.ReleaseUndoesTake` | src/hooks/useLicenseDemo.ts:40-88 | a released seat undoes a taken one on non-negative counts |
| `Demo.TakeSeatKeepsLimits` | src/hooks/useLicenseDemo.ts:29-48 | a seat that addUser grants never takes a license past its limit (ids being unique) |
| `Demo.Decide` | src/hooks/useLicenseDemo.ts:111-204 | the early-return chain gives the declarative answer for a found license |
| `Demo.CheckValidIff` | src/hooks/useLicenseDemo.ts:109-204 | the verdict is positive exactly when the license is found, has not lapsed, and no MAC, country or seat refusal applies |
| `Demo.ExpiryIsReportedFirst` | src/hooks/useLicenseDemo.ts:119-126 | an expired license reports "License has expired", whatever else is wrong with it |
| `Demo.PassingMessage` | src/hooks/useLicenseDemo.ts:188-204 | a passing answer is "License is valid" exactly when the expiry is not within 30 days; otherwise it carries a countdown of at least 0 days |
| `Demo.EmptyMacListRefuses` | src/hooks/useLicenseDemo.ts:129-139 | a MAC-based license with an empty allowed list refuses every MAC that is given |
| `Demo.LicenseDemo.AddUser` | src/hooks/useLicenseDemo.ts:21-62 | an unknown license throws "License not found"; a seat-counted license at its limit throws and changes nothing; otherwise the seat is taken on seat-counted licenses and exactly one user is appended |
| `Demo.LicenseDemo.RemoveUser` | src/hooks/useLicenseDemo.ts:65-95 | an unknown user throws "User not found"; otherwise the seat of its license is released (never below 0) and every user with that id is removed |
| `Demo.LicenseDemo.GetUsersByLicense` | src/hooks/useLicenseDemo.ts:208-210 | returns exactly the users of that license |
| `Demo.LicenseDemo.VerifyLicense` | src/hooks/useLicenseDemo.ts:98-205 | the answer is the early-return chain's; a passing claim with a name and an e-mail registers exactly one user and takes its seat, and any other call changes nothing |
| `Validation.MatchGroupsPositional` | src/utils/validation.ts:27 | `([0-9A-Fa-f]{2}[:-]){n}[0-9A-Fa-f]{2}` matches exactly the texts of length 3n + 2 with a separator at every third place and a hex digit everywhere else |
| `Validation.IsValidMacAddress` | src/utils/validation.ts:26-29 | a MAC address is accepted iff it has 17 characters, with ':' or '-' at positions 2, 5, 8, 11 and 14 and a hex digit elsewhere |
| `Validation.MacCaseInsensitive` | src/utils/validation.ts:27 | upper-casing never changes whether a MAC address is accepted |
| `Validation.MixedSeparatorsAccepted` | src/utils/validation.ts:27 | each separator is chosen independently, so an address mixing ':' and '-' is accepted |
| `Validation.MalformedMacsRejected` | src/utils/validation.ts:26-29 | a five-group address and an unseparated address are rejected |
| `Validation.MatchLetters` | src/utils/validation.ts:35 | `[A-Z]{n}` matches exactly the texts of n upper-case ASCII letters |
| `Validation.IsValidCountryCode` | src/utils/validation.ts:34-37 | a country code is accepted iff it is exactly two upper-case ASCII letters |
| `Validation.CountryCodeCase` | src/utils/validation.ts:34-37 | an accepted code is its own upper-case form, and its lower-case form is rejected |
| `Validation.DaysBetween` | src/utils/validation.ts:4-7 | the result d is the ceiling of the difference in days: (d − 1) days < difference ≤ d days |
| `Validation.DaysBetweenWholeDays` | src/utils/validation.ts:4-7 | n whole days count as n, and any part of a further day counts as one more |
| `Validation.DaysBetweenMonotone` | src/utils/validation.ts:4-7 | a later end never gives fewer days |
| `LicenseForm.AddUnique` | src/components/CreateLicenseForm.tsx:102-109 | a non-empty value not yet listed is appended; anything else leaves the list as it was; the list stays duplicate-free |
| `LicenseForm.RemoveAll` | src/components/CreateLicenseForm.tsx:111-115 | the remaining entries are exactly the others, and the list stays duplicate-free |
| `LicenseForm.RemoveAt` | src/components/CreateLicenseForm.tsx:111-115 | in a duplicate-free list, removing a value drops exactly its position and keeps the others in order |
| `LicenseForm.RemoveUndoesAdd` | src/components/CreateLicenseForm.tsx:102-115 | removing a value that was just added gives back the list from before the add |
| `LicenseForm.DeriveLicenseType` | src/components/CreateLicenseForm.tsx:133-144 | exactly one selected flag yields that single type; zero flags, or two or more, yield "mixed" |
| `LicenseForm.SelectionSetsFlags` | src/components/CreateLicenseForm.tsx:90-98 | in the comma-joined selection of comma-free names, splitting finds a name iff it was selected |
| `LicenseForm.FormState.HandleLicenseTypeChange` | src/components/CreateLicenseForm.tsx:90-98 | each flag is set exactly when its name is among the comma-split input, the type field holds the input, and the lists are untouched |
| `LicenseForm.FormState.SetNewMacAddress` | src/components/CreateLicenseForm.tsx:500-503 | the MAC input's onChange stores the typed text and changes nothing else |
| `LicenseForm.FormState.SetNewCountry` | src/components/CreateLicenseForm.tsx:542-545 | the country input's onChange stores the typed text and changes nothing else |
| `LicenseForm.MacOnlyLicense` | src/components/CreateLicenseForm.tsx:90-168 | selecting "mac_based", typing a MAC, adding it and submitting yields a MAC-based submission that lists that MAC |
| `LicenseForm.FormState.AddMacAddress` | src/components/CreateLicenseForm.tsx:102-109 | a new non-empty MAC is appended, the form field becomes the comma-join of the list, and the input is cleared; otherwise the list, field and input stay; the country list, its field and input, the four type flags and the type field never change; the list stays duplicate-free |
| `LicenseForm.FormState.RemoveMacAddress` | src/components/CreateLicenseForm.tsx:111-115 | every copy of the MAC is dropped and the form field re-joined; both inputs, the country list and field, the four type flags and the type field are unchanged |
| `LicenseForm.FormState.AddCountry` | src/components/CreateLicenseForm.tsx:118-125 | the same rules as AddMacAddress, on the country list; the MAC list, its field and input, the four type flags and the type field never change |
| `LicenseForm.FormState.RemoveCountry` | src/components/CreateLicenseForm.tsx:127-131 | every copy of the country is dropped and the form field re-joined; both inputs, the MAC list and field, the four type flags and the type field are unchanged |
| `LicenseForm.FormState.Submit` | src/components/CreateLicenseForm.tsx:133-168 | the submission carries the type derived from the flags and each list, or nothing when it is empty; afterwards the flags are cleared, the lists emptied, the type and list fields back to their defaults, and the two text inputs keep their text |
| `MockProducts.VersionsOf` | src/data/mockProducts.ts:77-79 | the kept versions are exactly those of the product, in list order |
| `MockProducts.VersionsOfAppend` | src/data/mockProducts.ts:104 | after an append, a product's versions are its old ones, then the new one if it matches |
| `MockProducts.FindProduct` | src/data/mockProducts.ts:107 | `products.find` finds the first product with that id, or none when no product has it |
| `MockProducts.PrefixedNumbersDistinct` | src/data/mockProducts.ts:84 | the ids "p1", "p2", … (and "v1", "v2", …) are all different |
| `MockProducts.AppendProductKeepsConsistency` | src/data/mockProducts.ts:82-93 | a product appended under the next number with no versions keeps each product's list equal to its filtered versions, as long as every version names a listed product |
| `MockProducts.AttachKeepsConsistency` | src/data/mockProducts.ts:104-111 | pushing the version onto the first product with its id (ids being unique) keeps every product's list equal to its filtered versions |
| `MockProducts.AttachKeepsNumbering` | src/data/mockProducts.ts:96-111 | appending the next numbered version keeps both the product ids and the version ids numbered by position |
| `MockProducts.SeedWellFormed` | src/data/mockProducts.ts:1-62 | the fixture's two products and four versions are numbered, each product lists exactly its two versions, and every version names a listed product |
| `MockProducts.Catalog.Seeded` | src/data/mockProducts.ts:1-62 | the module starts with the fixture, numbered, consistent and attached |
| `MockProducts.Catalog.GetVersionsByProductId` | src/data/mockProducts.ts:77-79 | returns exactly the versions stored for that product |
| `MockProducts.Catalog.AddProduct` | src/data/mockProducts.ts:82-93 | exactly one product is appended, with id "p" + (old length + 1), no versions and equal timestamps; the version list is unchanged; numbering and consistency are kept |
| `MockProducts.Catalog.AddProductVersion` | src/data/mockProducts.ts:96-114 | exactly one version is appended, with id "v" + (old length + 1) and equal timestamps; the first product with its id also gets it and its `updatedAt` becomes now; with no match only the global list changes; consistency is kept |
| `DataContext.AttachAll` | src/context/DataContext.tsx:57-67 | every product with the version's product id gets the version appended, and every other product is untouched |
| `DataContext.AttachAllKeepsConsistency` | src/context/DataContext.tsx:54-67 | appending to the global list and to every matching product keeps each product's list equal to its filtered versions, whatever the ids |
| `DataContext.DataStore.constructor` | src/context/DataContext.tsx:23-26 | the provider starts with four empty lists |
| `DataContext.DataStore.AddProduct` | src/context/DataContext.tsx:32-43 | exactly one product is appended, with a "p" id, no versions and equal timestamps; no other list changes; a generated id that no version names keeps the store consistent |
| `DataContext.DataStore.AddProductVersion` | src/context/DataContext.tsx:45-70 | exactly one version is appended, with a "v" id and equal timestamps, to the global list and to every product with its id; customers and licenses are unchanged, and consistency is kept |
| `DataContext.DataStore.AddCustomer` | src/context/DataContext.tsx:72-82 | exactly one customer is appended, with a "c" id and equal timestamps; no other list changes |
| `DataContext.DataStore.AddLicense` | src/context/DataContext.tsx:84-94 | exactly one license is appended: the draft under an "l" id with equal timestamps; no other list changes |
| `DataContext.DuplicateIdsBothReceive` | src/context/DataContext.tsx:58-64 | unlike the first-match push of the catalog module, a duplicated product id gets the version on every copy |
| `DataContext.UnknownProductUntouched` | src/context/DataContext.tsx:58-66 | a version for an unknown product leaves every product as it was |

## Left out

- The network and hardware adapters are parameters:
  - the geolocation requests to ipinfo.io;
  - `uuid.getnode`;
  - the netifaces interface scan;
  - loading the country-name CSV.
  They are I/O.
- The md5 digest of the verification token is an opaque function parameter (MD5 is RFC 1321). Only what the token depends on is stated.
- Logging, the filesystem and the verification timestamp are not modelled.
- The read-then-write race on the counter file is not modelled. It is concurrency, so each `Claim` is one sequential step.
- The database-backed seat check of the Python engine is a placeholder that calls the file version, and is modelled as that version.
- Wall-clock time is a parameter.
  - `setDate(getDate() + grace)` is taken as adding whole 86,400,000 ms days, so daylight-saving transitions are not modelled.
- ORM, SQL and HTTP plumbing is not modelled:
  - the CRUD bodies other than the ones named above;
  - the product, customer and version controllers;
  - the models, routes, server and database configuration;
  - the axios and supabase clients.
  Foreign-key failures, transactions and rollback are left out with them. The UPDATE statements are modelled as SQL text and bound parameters.
- The replacement of the MAC and country relations in `updateLicense` is modelled on the license value, not as the DELETE and INSERT statements.
- Authentication (bcrypt and JWT calls), the React components and the fixture and schema declarations are not modelled.
- `isDateInFuture` and `getMinDateString` are not modelled, because they only read the system clock.
- Null and undefined are told apart (`Common.JsNumber`) only in the seat fields of the controller and of `DirectDb`, where the verdict depends on it.
  - The client-side modules (`Rules`, `Demo`, the forms and contexts) follow the declared `number | undefined` type of the license record, with `None` for undefined.
  - A NULL `licensing_period`, `grace_period_days` or `renewable_alert_message` is not modelled: the model's rows always hold a value there.
- `DirectDb.Formatted`: an expiry read back from the database is taken as that day's UTC midnight. The driver's time-zone handling of DATE columns is not modelled.
- Upper- and lower-casing covers ASCII letters only. Every other character is unchanged, which matches the inputs these checks see (MAC addresses and country codes).
- The demo's `catch` around `addUser` inside `verifyLicense` is not modelled. The limit has already been checked on the same license, so `addUser` cannot throw there.
- The demo's user ids (`Date.now()`) and the context's random ids are parameters. The React state of a stale render is not modelled: each call sees the latest lists.
- The creation form's zod validation, toasts and form reset of the other fields are not modelled.
- `MockProducts.Catalog.AddProduct`: consistency (each product listing exactly its versions) is kept only while every version names a listed product. A version added earlier for a product that did not exist yet would show up in `getVersionsByProductId` of a later product with that number, while that product's own list stays empty.
- `MockProducts.Catalog.AddProductVersion`: the version reaches only the first product with its id. The catalog numbers its ids, so ids are unique and there is no second product to miss.
- `DataContext.DataStore.AddLicense`: the draft is the declared input type, which has no id or timestamps. A caller that passes an object that carries its own `id` at run time would override the generated one through the spread; that is not modelled.
- `MockProducts.Catalog.AddProduct`: the source reads the clock once for `createdAt` and once for `updatedAt`; one `now` stands for both readings.
- `DataContext.DataStore.AddProduct`: consistency is kept only for a generated id that no version names yet. The random generator gives no such guarantee.

## Findings

| source | as written | input that shows it | evidently intended | confidence | as-written member | corrected member |
|---|---|---|---|---|---|---|
| server/controllers/license.controller.js:421-429 | after the grace-period rule has made the license invalid and 'expired', a status check at the seat limit overwrites the status with 'warning' | a user-count license that expired one day ago with no grace period, 1 of 1 seats taken, checked without a claim: isValid false, status 'warning' | a negative verdict always has status 'expired' | medium, not executed | `Controller.WarningStatusOnInvalidLicense` | `Controller.IntendedVerdict` |
| src/services/directDatabaseService.ts:328-333 | updateCustomer always issues its UPDATE, even when no field is set | a patch with every field empty: `UPDATE customers SET  WHERE id = ?`, an SQL syntax error | no statement unless some field is set, as updateLicense does at lines 556-562 | high, not executed | `DirectDb.EmptyCustomerPatchIsMalformed` | `DirectDb.CustomerUpdate` |
