# TerraMRV business rules in Dafny

TerraMRV is a measurement, reporting and verification service for small farms. Farmers log
field activities (plowing, fertilizer, tree planting, ...). The server turns those logs into a
carbon ledger and monthly reports, scores payout requests for fraud, and answers agronomy
questions (climate analysis, planting windows, weather alerts, NDVI trends). The browser client
adds a carbon estimator with an offline queue, a notification list and an offline FAQ assistant.

This project models the deterministic core of that system and proves what it promises:

- `values.dfy` (`Values`): JSON-like values and the JavaScript operations the handlers use:
  property access, truthiness, `===`, `Number()`, `String()`, `slice`, `split`, `Math.round`.
- `db.dfy` (`Db`): the in-memory document store (`createMemoryDb`) and the `getDb` cache. Each
  store operation is a pure function on a collection. The `MemoryDb` class performs it on its
  `collections` map.
- `http.dfy` (`Http`): the reply shape of a route and `requireUser`.
- `users.dfy`, `auth.dfy`, `otp.dfy`, `seed.dfy` (`Users`, `Auth`, `Otp`, `Seed`): registration,
  login, profile update, one-time codes and the admin bootstrap. All of them keep the emails in
  `users` unique.
- `logfields.dfy`, `logs.dfy` (`LogFields`, `Logs`): how a log's month and quantity are read,
  and the owner-scoped log routes.
- `tally.dfy` (`Tally`): grouped sums, the `map[k] = (map[k] || 0) + v` loop shared by the
  ledger and the reports.
- `credits.dfy` (`Ledger`): the carbon ledger and the payout workflow.
- `anomaly.dfy` (`Anomaly`): the rule-based fraud scorer and the clamped estimation helpers of
  the ML routes.
- `reports.dfy` (`Reports`): the farmer's monthly report and the admin region report.
- `weather.dfy`, `satellite.dfy` (`Weather`, `Satellite`): the agronomy rules and the request
  checks of their handlers.
- `estimator.dfy`, `notifications.dfy`, `assistant.dfy` (`Estimator`, `Notifications`,
  `Chat`): the client components' state and rules.

The environment is passed in as parameters:

- Token verification is `verify: string -> Option<string>`.
- bcrypt and SHA-256 are functions given by the caller.
- The clock (`now`, the current year), `Math.random` draws and generated ids are plain
  arguments.
- The simulated forecast, history, imagery, land-cover class and change draws are arguments.
- Whether the mailer or the anomaly scorer answer is a boolean.

JavaScript numbers are Dafny `real`s. A figure that can be NaN for the inputs the model
takes is an `Option<real>` whose `None` is the NaN: number parsing, the mean of no values,
and the weather temperatures, which are NaN for a truthy latitude that is not a number. The
numeric arguments of the estimator and scorer helpers are plain reals.

## Model

| member | source | states |
|---|---|---|
| Values.ToNumber | server/routes/credits.ts:47 | `Number(v)`: a number is itself, `null` and the empty array are 0, `undefined` and an array of two or more elements are NaN (`None`), and a one-element array of a number or a text reads as that element |
| Values.StrLessFacts | server/db.ts:14 | `>` on texts follows UTF-16 code units: the empty text is below every other text and above none, and U+1F600 (a surrogate pair) sorts before U+E000 |
| Values.Prefix | server/routes/credits.ts:45 | `slice(0, n)` is a prefix of the text, of length n or the whole text when shorter |
| Values.BeforeFirst | server/routes/auth.ts:36 | `split("@")[0]` is a prefix without the separator, cut exactly at the first separator |
| Db.EqualityQuery | server/db.ts:11-18 | a one-property query matches exactly the documents whose property is strictly equal to the value; the empty query matches every document |
| Db.CondOf | server/db.ts:13-16 | a query value is a comparison with its `$gt` bound exactly when it is an object carrying `$gt`; any other value is compared with `===` |
| Db.FirstMatch | server/db.ts:33 | `findIndex` gives the first matching position, and `None` exactly when no document matches |
| Db.FindOneIn | server/db.ts:23-25 | `findOne` finds a document exactly when one matches; the one it finds is stored and matches |
| Db.FindOneAfterAppend | server/db.ts:23-29 | appending a document never hides an earlier match; the new one is found only when nothing earlier matched |
| Db.IdFor | server/db.ts:27 | an inserted document keeps a truthy `_id` of its own, and otherwise gets the generated one |
| Db.InsertIn | server/db.ts:26-31 | `insertOne` appends exactly one copy at the end, with every other property unchanged and the chosen `_id` |
| Db.UpdateIn | server/db.ts:32-39 | `updateOne` changes only the first match and only the `$set` properties; with no match or no `$set` nothing changes and the count is 0 |
| Db.DeleteIn | server/db.ts:43-50 | `deleteOne` removes exactly the first match and keeps the rest in order; with no match nothing changes and the count is 0 |
| Db.FilterMatching | server/db.ts:51-54 | `find` returns only stored, matching documents |
| Db.FilterMatchingCounts | server/db.ts:52 | `find` keeps each matching document as often as it is stored, and nothing else |
| Db.FilterMatchingAll | server/db.ts:11-12 | `find({})` returns the whole collection |
| Db.FilterMatchingAppend | server/db.ts:52 | `find` works document by document, so its result keeps store order |
| Db.MemoryDb.constructor | server/db.ts:7-10 | a new store holds exactly the empty `users` and `otps` collections |
| Db.MemoryDb.Touch | server/db.ts:19-21 | `collection(name)` creates an empty collection when it is missing and changes nothing else |
| Db.MemoryDb.FindOne | server/db.ts:23-25 | answers `FindOneIn` on the collection and stores nothing |
| Db.MemoryDb.InsertOne | server/db.ts:26-31 | the collection becomes `InsertIn` of it, and the inserted id is returned |
| Db.MemoryDb.UpdateOne | server/db.ts:32-39 | the collection becomes `UpdateIn` of it, with matched and modified counts both equal to its count |
| Db.MemoryDb.CountDocuments | server/db.ts:40-42 | the count is the collection's length, 0 for a collection never seen, and nothing changes |
| Db.MemoryDb.DeleteOne | server/db.ts:43-50 | the collection becomes `DeleteIn` of it, and its count is returned |
| Db.MemoryDb.Find | server/db.ts:51-54 | answers `FilterMatching` on the collection and stores nothing |
| Db.Server.constructor | server/db.ts:4 | the cache starts empty |
| Db.Server.GetDb | server/db.ts:60-67 | the first call creates a fresh store with `users` and `otps`; every later call returns that same store, unchanged |
| Http.BearerToken | server/routes/credits.ts:6-8 | a token exists exactly when the header is `Bearer ` followed by a non-empty rest, and it is that rest |
| Http.RequireUser | server/routes/credits.ts:5-16 | no bearer token gives no user; a user is always the one the verifier returns for the token |
| Users.RoleOr | server/routes/auth.ts:81 | the role is always truthy: the stored role when that is truthy, else "farmer" |
| Users.LocalPart | server/routes/auth.ts:36 | the local part exists exactly for text emails; it is a prefix of the email without an `@` |
| Users.NameOr | server/routes/auth.ts:88 | a truthy name is kept; otherwise the email's local part, or a throw when the email is not text |
| Users.InsertNewEmailKeepsUnique | server/routes/auth.ts:29-40 | inserting a user whose email no stored user has keeps the emails unique |
| Users.UpdateWithoutEmailKeepsUnique | server/routes/auth.ts:158 | an update whose `$set` has no `email` keeps the emails unique |
| Users.GtEmailFindsAnyUser | server/db.ts:13-14 | as written, the body email `{"$gt": ""}` finds a user as soon as any stored user has a non-empty text email, the first such user at the latest |
| Users.TextEmailQuery | server/routes/auth.ts:29 | the intended lookup: refused exactly for an email that is not text, and otherwise matching exactly the documents whose email is that text |
| Seed.SeededUsers | server/seed.ts:10-19 | seeding adds at most one user |
| Seed.EnsureAdmin | server/seed.ts:4-20 | nothing changes unless both variables are set and non-empty; otherwise `users` becomes `SeededUsers` of it and nothing else changes |
| Seed.SeedKeepsUsers | server/seed.ts:10-19 | every earlier user is kept in place, a user is added exactly when no stored user has that email, and afterwards one has it |
| Seed.SeedAddsOneAdmin | server/seed.ts:12-19 | the added user is an "admin" named "Admin" with that email and the hash of the password |
| Seed.SeedIdempotent | server/seed.ts:10-19 | a second seeding, at any time and with any generated id, changes nothing |
| Seed.SeedKeepsEmailsUnique | server/seed.ts:10-19 | seeding keeps the emails in `users` unique |
| Auth.NewUserFields | server/routes/auth.ts:32-39 | a registered user stores the hash and never the password, the role "farmer", the given email and name, and no `_id` of its own |
| Auth.Register | server/routes/auth.ts:19-58 | 400 without email or password; 409, with nothing inserted, when the body email finds a stored user (a text email by `===`, an object carrying `$gt` by comparison with its bound); a hashing or name failure is a 500 with nothing inserted; otherwise one user, with the name defaulting to the local part, is inserted and its session answered; emails stay unique |
| Auth.Login | server/routes/auth.ts:60-95 | 400 without email or password; the user checked is the one the body email finds (by `===`, or by comparison for an object carrying `$gt`); the same 401 when none is found and for a wrong password; a stored user without a usable hash gives a 500; success answers that user's session; nothing is stored |
| Auth.LoginRoleDefaults | server/routes/auth.ts:78-90 | the token and the user view carry the stored role, or "farmer" when it is not truthy |
| Auth.ProfilePatch | server/routes/auth.ts:156-158 | the patch sets only `name`, and only when a truthy name is given |
| Auth.ProfileUpdate | server/routes/auth.ts:149-171 | 401 without a token; 400 when it does not verify; otherwise the caller's record is patched and re-read; emails stay unique |
| Auth.ProfileUpdateOnlyName | server/routes/auth.ts:156-158 | the update changes nothing but the name of the caller's record, and only when a truthy name is given |
| Otp.CodeHasSixDigits | server/routes/otp.ts:16 | every generated code is in [100000, 999999], so its text has six digits |
| Otp.Start | server/routes/otp.ts:12-24 | 400 without an email, storing nothing; otherwise one unused record with the code's hash, expiring ten minutes on, is appended, and a mailer failure is a crash after the store |
| Otp.RecordMatchesUntilExpiry | server/routes/otp.ts:31-35 | a stored record answers a query exactly when the hash is the same, the query comes before the expiry, and the request email is strictly equal to the stored one or, as an object carrying `$gt`, a bound the stored email is greater than; for a text email, exactly when the two emails are equal |
| Otp.SignIn | server/routes/otp.ts:40-75 | the user the request email finds (by `===`, or the first user above the bound of a `$gt` object) keeps its account and the session carries its id and role with defaults; otherwise a new text email gets a "farmer" account named after its local part; only `users` changes and emails stay unique |
| Otp.Verify | server/routes/otp.ts:26-76 | 400 without email or code; 400 "Invalid or expired code" without a record the query matches; otherwise that record is marked used, and then the sign-in of `Otp.SignIn` follows on the same request email |
| Otp.InsertKeepsIdsUnique | server/db.ts:26-31 | storing a record under a fresh generated id keeps the record ids unique |
| Otp.MatchCount | server/routes/otp.ts:32-34 | a query matches no more records than are stored |
| Otp.MarkingUsedConsumesRecord | server/routes/otp.ts:36-38 | marking the accepted record used modifies exactly one record and takes exactly that record out of the matches for that code, so the code cannot succeed twice |
| Otp.GtEmailSignsInAsFirstUser | server/routes/otp.ts:32-66 | as written, the email `{"$gt": ""}` with the caller's own valid code matches the caller's record and then signs in as the first stored user, with that user's id and role |
| Otp.TextOtpQuery | server/routes/otp.ts:32-34 | the intended code lookup exists exactly for a text email |
| Otp.TextQueriesSignInOwnAccount | server/routes/otp.ts:32-47 | with the intended lookups, the accepted record holds the request email and the account signed in holds that same email |
| LogFields.MonthKeyIsDatePrefix | server/routes/credits.ts:45 | a log's month is the first seven characters of its date's text, all of it when shorter |
| LogFields.Quantity | server/routes/credits.ts:46-47 | an absent, null or non-numeric quantity counts as 1; any other counts as its number, an array through its text (`[]` as 0, `[7]` as 7) |
| Logs.ListedAreOwn | server/routes/logs.ts:22-26 | a listed log is exactly a stored log whose `userId` is the caller's |
| Logs.ListLogs | server/routes/logs.ts:18-27 | 401 without a valid token; otherwise the caller's logs in store order; nothing is stored |
| Logs.NewLogFields | server/routes/logs.ts:35-43 | a new log belongs to the caller, keeps the type and date, has null quantity and unit and empty notes when absent |
| Logs.AddLog | server/routes/logs.ts:29-46 | 401 without a valid token; 400 unless type and date are truthy; otherwise one log is appended and answered with its id |
| Logs.DeleteLog | server/routes/logs.ts:48-67 | 401 without a valid token; otherwise the caller's first log with that id is removed, or 404 with nothing changed |
| Logs.DeleteOnlyOwn | server/routes/logs.ts:60-65 | a delete removes at most one log, and only one with that id and the caller's `userId` |
| Tally.AccumulateSnoc | server/routes/credits.ts:48-49 | one more entry adds its amount to its own bucket and to the total |
| Tally.Keys | server/routes/credits.ts:48 | the keys entered, each listed once |
| Tally.AccumulateDomain | server/routes/credits.ts:48 | a key has a bucket, and is listed, exactly when some entry carries it |
| Tally.AccumulateValue | server/routes/credits.ts:48 | each bucket holds the sum of the amounts entered under its key |
| Tally.BucketsSumToTotal | server/routes/credits.ts:48-49 | every entry lands in exactly one bucket, so the buckets add up to the total |
| Ledger.CoeffSigns | server/routes/credits.ts:18-32 | the coefficient is negative for the seven emitting types, positive for tree planting and cover cropping, and 0 for any other type |
| Ledger.DefaultQuantityContribution | server/routes/credits.ts:46-47 | a log with an absent, null or non-numeric quantity contributes its coefficient once |
| Ledger.Entries | server/routes/credits.ts:44 | one ledger entry per log |
| Ledger.FoldLogs | server/routes/credits.ts:42-50 | the loop leaves `monthly` and `total` equal to the grouped sums of the logs' contributions |
| Ledger.FoldStep | server/routes/credits.ts:48-49 | one more log adds its contribution to its month's bucket and to the total |
| Ledger.MonthlyBuckets | server/routes/credits.ts:44-50 | a month has a bucket exactly when some log is dated in it, holding the sum of those logs' contributions |
| Ledger.MonthlySumsToTotal | server/routes/credits.ts:44-50 | the monthly buckets, each counted once, add up to `total` |
| Ledger.PaidSplits | server/routes/credits.ts:56 | `paid` adds every payout's amount, whatever its status |
| Ledger.GetCredits | server/routes/credits.ts:34-59 | 401 without a valid token; otherwise the ledger of the caller's logs and payouts with `balance = total - paid`; nothing is stored |
| Ledger.StatusFor | server/routes/credits.ts:80-89 | above 0.7 is `flagged_high_risk`, above 0.4 and up to 0.7 `pending_review`, otherwise `requested` |
| Ledger.HighRiskNeedsAllSignals | server/routes/credits.ts:83-85 | a request is high risk exactly when the scorer saw all four signals (more than 50 logs, fewer than 3 types, both spikes) |
| Ledger.AnswerFor | server/routes/credits.ts:102-127 | flagged exactly when the status is not `requested`; a failed scorer always gives `pending_review`, flagged |
| Ledger.PayoutRecordAgrees | server/routes/credits.ts:91-120 | the stored payout belongs to the caller, holds the requested amount and the status and flag of the answer |
| Ledger.RequestPayout | server/routes/credits.ts:61-129 | 401 without a valid token; 400 for an amount whose number is NaN, 0 or negative, storing nothing; otherwise exactly one payout is appended and the answer follows the scorer or the fallback |
| Ledger.PayoutRaisesPaid | server/routes/credits.ts:56-57 | an accepted request raises the caller's `paid` by exactly the amount, so it lowers the balance by that amount |
| Anomaly.Distinct | server/routes/ml.ts:478 | `[...new Set(xs)]` holds the same values with no two strictly equal: each primitive once, and every object, array and date as often as it occurs |
| Anomaly.InstancesAllKept | server/routes/ml.ts:478 | a list without primitives comes out of the set unchanged |
| Anomaly.TypesOf | server/routes/ml.ts:478 | one type per log, in order |
| Anomaly.AnalyzeActivityPatterns | server/routes/ml.ts:475-483 | `frequency` is the number of logs and `types` lists every type that occurs, no two strictly equal |
| Anomaly.ObjectTypesAllCounted | server/routes/ml.ts:478 | when every type is an object or an array, there are as many types as logs |
| Anomaly.InstantOf | server/routes/ml.ts:491 | `new Date(v)`: text is parsed, a number is valid exactly within ±8.64e15 ms and then truncated, and an array or object is parsed from its text |
| Anomaly.ArrayDateReadAsText | server/routes/ml.ts:491 | a log dated `[text]` is dated by that text |
| Anomaly.RecentCount | server/routes/ml.ts:490-495 | no more logs are recent than there are logs |
| Anomaly.DetectTemporalAnomalies | server/routes/ml.ts:486-506 | one temporal spike exactly when strictly more than four in five logs are recent; none for no logs |
| Anomaly.VolumeQuantity | server/routes/ml.ts:512 | `Number(quantity)`, defaulting to 1: a non-zero number is the quantity itself, while zero and NaN count as 1, so a quantity is never 0 |
| Anomaly.QuantityMax | server/routes/ml.ts:514 | the largest quantity is one of the quantities and bounds them all |
| Anomaly.DetectVolumeAnomalies | server/routes/ml.ts:508-525 | at most one volume spike; none for no logs |
| Anomaly.VolumeSpikeWitness | server/routes/ml.ts:516 | a volume spike exactly when some single quantity exceeds five times the average |
| Anomaly.CalculateRiskScore | server/routes/ml.ts:527-543 | the accumulated risk, capped at 1, is never negative for non-negative anomaly scores |
| Anomaly.RiskScoreRange | server/routes/ml.ts:535-542 | the score of a list of logs lies in [0, 0.75], so the cap never binds, and is above 0.7 exactly when all four signals fire |
| Anomaly.SeverityOf | server/routes/ml.ts:259-264 | "high" above 0.8, "medium" above 0.5, "low" otherwise |
| Anomaly.AnomaliesOf | server/routes/ml.ts:256-267 | at most two anomalies, all "medium"; a temporal or volume anomaly is reported exactly when its detector fires |
| Anomaly.RecommendationsShape | server/routes/ml.ts:545-575 | two high-risk lines above 0.7, one medium line above 0.4, else one low line; then one line per anomaly kind present |
| Anomaly.GenerateAnomalyRecommendations | server/routes/ml.ts:545-575 | the pushed lines are the recommendations for that score and those anomalies |
| Anomaly.DetectAnomalies | server/routes/ml.ts:240-276 | the report is the scorer's answer for the logs, with a score in [0, 0.75] |
| Anomaly.FirstNullish | server/routes/ml.ts:478 | the first null or undefined log, on which reading `type` throws |
| Anomaly.AnomalyCheck | server/routes/ml.ts:124-142 | 401 without a valid token; 400 unless `activityLogs` is an array; 500 for a null log; otherwise the report, scored under the caller's id |
| Anomaly.CalculateUncertainty | server/routes/ml.ts:308-318 | the uncertainty lies in [0.1, 0.3] and is 0.1 exactly when no extreme value is seen and a climate zone is given |
| Anomaly.GetClimateZone | server/routes/ml.ts:320-327 | a missing or zero latitude is "unknown"; every answer is one of the five zones |
| Anomaly.ClimateZoneSymmetric | server/routes/ml.ts:320-327 | the zones are the same in both hemispheres; "tropical" exactly below 23.5 degrees (not 0), "cold" exactly from 50 |
| Anomaly.CalculateSoilQuality | server/routes/ml.ts:329-332 | the quality lies in [0.3, 1] and is SOC / 40 between 12 and 40 |
| Anomaly.EstimateVegetationIndex | server/routes/ml.ts:334-338 | the index is at most 1.5 and equals cover plus bonus when that is at most 1.5 |
| Anomaly.CalculatePredictedSOC | server/routes/ml.ts:389-410 | the prediction is the adjusted estimate clamped to [10, 60] |
| Reports.FoldByMonth | server/routes/reports.ts:25-43 | the loop leaves `byMonth` equal to the month buckets of the logs |
| Reports.ByMonthStep | server/routes/reports.ts:40-42 | one more log adds its quantity to one side of its month's bucket, a new bucket starting at zero |
| Reports.ByMonthBuckets | server/routes/reports.ts:29-42 | each bucket holds the emitting logs' quantities under `emissions` and every other log's under `savings` |
| Reports.ByMonthDomain | server/routes/reports.ts:26-27 | a bucket exists for exactly the months some log is dated in |
| Reports.MonthQuantities | server/routes/reports.ts:39-42 | for each month, emissions plus savings is the sum of that month's quantities, with no coefficient applied |
| Reports.FarmerReport | server/routes/reports.ts:18-45 | 401 without a valid token; otherwise the buckets of the caller's logs; nothing is stored |
| Reports.RegionEntries | server/routes/reports.ts:53-57 | one region count per user |
| Reports.CountRegions | server/routes/reports.ts:52-58 | the loop leaves `regions` equal to the grouped counts of the users' regions |
| Reports.RegionCountsSumToUsers | server/routes/reports.ts:53-58 | every user is counted in exactly one region, so the counts add up to the number of users |
| Reports.AdminRegionReport | server/routes/reports.ts:47-60 | the region counts of every stored user; nothing is stored |
| Weather.BaseTemperatureDefaults | server/routes/weather.ts:331-342 | Wheat and every crop outside the table get 10; the base is never below 10; only Cotton and Sugarcane get more |
| Weather.PlantingWindowChoice | server/routes/weather.ts:344-361 | the northern window exactly when latitude is above 0; an unknown crop gets Rice's window; both dates are in the given year |
| Weather.Temperatures | server/routes/weather.ts:289 | one daily average per day, NaN (`None`) where the day's is |
| Weather.NumSum | server/routes/weather.ts:292 | the sum of the temperatures is NaN exactly when some day's is |
| Weather.Mean | server/routes/weather.ts:292 | the mean is NaN exactly for no days or when some day's temperature is NaN |
| Weather.Precipitations | server/routes/weather.ts:290 | one precipitation per day |
| Weather.GrowingDegreeDaysRange | server/routes/weather.ts:296-299 | growing degree days are NaN exactly when some day's temperature is (`Math.max(0, NaN)` is NaN), otherwise never negative, and 0 exactly when every day is a number no warmer than the base |
| Weather.NaNDaysUncounted | server/routes/weather.ts:302-304 | a NaN day is neither below nor above any bound, so all-NaN days count as no frost and no heat-stress days |
| Weather.CountBelow | server/routes/weather.ts:302 | no more days are below a bound than there are days |
| Weather.CountAbove | server/routes/weather.ts:304 | no more days are above a bound than there are days |
| Weather.PercentRange | server/routes/weather.ts:302-304 | a share of days is NaN only for no days, otherwise in [0, 100], and 100 exactly when every day counts |
| Weather.PerformClimateAnalysis | server/routes/weather.ts:283-329 | the analysis summarises the history: mean (NaN for no days or a NaN day), total, the growing degree days (NaN for a NaN day) and risks, drought index, window and recommendations |
| Weather.AnalysisBounds | server/routes/weather.ts:291-304 | frost and heat risks are percentages (NaN only for no days); the mean is NaN exactly for no days or a NaN day; growing degree days are NaN exactly for a NaN day and otherwise non-negative; the drought index is non-negative, and at most 100 for non-negative rain |
| Weather.NaNTemperatures | server/routes/weather.ts:291-304 | over all-NaN temperatures the mean and growing degree days are NaN and both risks are 0 |
| Weather.NaNTemperatureLines | server/routes/weather.ts:374-411 | a NaN mean with no frost or heat-stress days gives none of the cold, heat, frost, shade and wheat lines |
| Weather.NaNHistoryAnalysis | server/routes/weather.ts:283-329 | a history whose temperatures are all NaN (a truthy non-numeric latitude) gives a NaN mean and growing degree days, zero frost and heat risks and no temperature-driven line |
| Weather.LinesDistinct | server/routes/weather.ts:364-414 | the recommendation lines are all different texts |
| Weather.RecommendationMembership | server/routes/weather.ts:364-414 | a line is given exactly when a check carrying it fires |
| Weather.GenerateClimateRecommendations | server/routes/weather.ts:364-414 | the pushed lines are the recommendations for the figures, in the order of the checks |
| Weather.RainfallLinesExclusive | server/routes/weather.ts:382-390 | low and high rainfall each add their two lines, exactly past their thresholds, and never both |
| Weather.DayAlertsDated | server/routes/weather.ts:424-464 | a day's alerts carry its date, a frost warning needs a minimum below 2, and only Rice gets the crop alert |
| Weather.DayAlertsRaised | server/routes/weather.ts:424-464 | a day raises each alert whose threshold it crosses |
| Weather.AlertsForSnoc | server/routes/weather.ts:420-465 | one more day adds its alerts after the earlier days' |
| Weather.AlertsBound | server/routes/weather.ts:420-465 | at most four alerts a day |
| Weather.Inspected | server/routes/weather.ts:420 | at most seven days are read, all of them when there are at most seven |
| Weather.GenerateWeatherAlerts | server/routes/weather.ts:416-468 | the alerts are those of the first (at most seven) forecast days, at most 28 |
| Weather.AlertsComeFromDays | server/routes/weather.ts:416-468 | every alert is dated on a day read, and a frost warning only on a day whose minimum is below 2 |
| Weather.DaysRaiseAlerts | server/routes/weather.ts:416-468 | frost below a minimum of 2, heat above a maximum of 40, heavy rain above 50 and, for Rice, the cool alert below a minimum of 15 are all raised |
| Weather.CropAlertOnlyForRice | server/routes/weather.ts:456-464 | a crop other than Rice never gets the crop-specific alert |
| Weather.Guard | server/routes/weather.ts:74-80 | 401 without a valid token, else 400 unless latitude and longitude are truthy, else the caller |
| Weather.ZeroCoordinateRefused | server/routes/weather.ts:78-80 | a coordinate of 0 is refused with 400 even with a valid token |
| Weather.CropOr | server/routes/weather.ts:187 | the crop defaults to "Rice" when not truthy, so it is always truthy |
| Weather.WeatherForecast | server/routes/weather.ts:107-126 | the forecast is answered exactly when the guard passes, else the guard's error |
| Weather.WeatherAlerts | server/routes/weather.ts:175-195 | past the guard, the alerts of the forecast for the crop (Rice by default), else the guard's error |
| Weather.HistoricalWeather | server/routes/weather.ts:71-104 | past the guard, the store has no `insertMany`, so 500 after the collection is created; else the guard's error and nothing changes |
| Weather.AnalyzeClimate | server/routes/weather.ts:129-172 | past the guard, the analysis of the history (with its NaN figures for a NaN history) is stored for the caller and answered; else the guard's error and nothing changes |
| Satellite.Mean | server/routes/satellite.ts:324-325 | the mean is NaN exactly for an empty run |
| Satellite.FewValuesAreStable | server/routes/satellite.ts:318-331 | fewer than three values are always "stable" |
| Satellite.TrendByThirds | server/routes/satellite.ts:321-331 | from three values, the trend compares the mean of the last third with that of the first: up above 0.05, down below -0.05, else stable |
| Satellite.TrendReversed | server/routes/satellite.ts:318-332 | read backwards, a rising series falls and a falling one rises |
| Satellite.NdviValuesAreReadings | server/routes/satellite.ts:280 | the readings are exactly the non-null NDVI values of the images |
| Satellite.MaxOf | server/routes/satellite.ts:295 | the maximum is a reading and bounds every reading |
| Satellite.MinOf | server/routes/satellite.ts:296 | the minimum is a reading and is bounded by every reading |
| Satellite.VegetationAnalysisDefined | server/routes/satellite.ts:278-288 | the analysis throws exactly when no image has an NDVI; otherwise its trend is that of the readings |
| Satellite.VegetationSummaryBounds | server/routes/satellite.ts:294-302 | the mean lies between minimum and maximum; biomass change is non-negative and health at most 100; with readings in [0, 1] both lie in [0, 100] |
| Satellite.GenerateChangeRecommendations | server/routes/satellite.ts:408-439 | the pushed lines are the recommendations for that change |
| Satellite.ChangeRecommendationCounts | server/routes/satellite.ts:408-439 | deforestation gets two lines plus the forest-loss line exactly above 20%; afforestation and crop change two; urbanization one; any other type only the monitoring line |
| Satellite.FetchImagery | server/routes/satellite.ts:67-97 | 401 without a valid token; 400 unless coordinates and dates are truthy; otherwise 500, the store having no `insertMany` |
| Satellite.LocationGuard | server/routes/satellite.ts:152-159 | passes exactly with a valid token and truthy coordinates; otherwise 401 or 400 |
| Satellite.AnalyzeVegetation | server/routes/satellite.ts:100-147 | past the checks, `.sort` on the store's promise throws, so 500 after the collection is created |
| Satellite.AnalyzeStoredImagery | server/routes/satellite.ts:114-140 | 404 without imagery; 500 without an NDVI; otherwise the analysis is stored for the caller and answered |
| Satellite.ClassifyLandCover | server/routes/satellite.ts:150-178 | past the checks, the classification is stored for the caller and answered |
| Satellite.DetectChanges | server/routes/satellite.ts:181-210 | 401 without a valid token; 400 unless coordinates and dates are truthy; otherwise the change report with its recommendations is stored and answered |
| Estimator.AdjustmentBounds | client/components/estimator/CarbonEstimator.tsx:22-23 | the moisture factor lies in [0.8, 1.2] and is rainfall / 1000 inside; the soil factor lies in [0.7, 1], and is 1 exactly at 35 |
| Estimator.YearlyBounds | client/components/estimator/CarbonEstimator.tsx:21-26 | for a non-negative area and cover in [0, 100], the yearly amount is non-negative and at most the area times the largest factors |
| Estimator.OneDecimalMonotone | client/components/estimator/CarbonEstimator.tsx:29 | rounding to one decimal keeps order |
| Estimator.OneDecimalClose | client/components/estimator/CarbonEstimator.tsx:29 | rounding to one decimal moves a value by at most 0.05 |
| Estimator.ProjectionShape | client/components/estimator/CarbonEstimator.tsx:27-31 | six entries, years 0 to 5, each that year's share rounded; `current` is the last one, the yearly amount within 0.05 |
| Estimator.CreditsGrow | client/components/estimator/CarbonEstimator.tsx:27-30 | for a non-negative yearly amount, projected credits never fall from one year to a later one |
| Estimator.OfflineQueue.constructor | client/components/estimator/CarbonEstimator.tsx:39 | the queue starts as stored and the counter at 0 |
| Estimator.OfflineQueue.SaveEntry | client/components/estimator/CarbonEstimator.tsx:57-68 | online, the counter shows 1 and the queue is untouched; offline, the entry is appended after every queued one |
| Estimator.OfflineQueue.Sync | client/components/estimator/CarbonEstimator.tsx:44-55 | online with a non-empty queue, the counter shows its length and the queue becomes empty; otherwise nothing changes |
| Notifications.Filter | client/components/notifications/NotificationCenter.tsx:179 | a filter never lengthens the list |
| Notifications.FilterMembers | client/components/notifications/NotificationCenter.tsx:179 | the filter keeps exactly the elements that pass it |
| Notifications.FilterAppend | client/components/notifications/NotificationCenter.tsx:179 | the filter works element by element, so the kept elements stay in order |
| Notifications.FilterTwice | client/components/notifications/NotificationCenter.tsx:178-195 | filtering twice is filtering once by both conditions |
| Notifications.FilterKeepsAll | client/components/notifications/NotificationCenter.tsx:187-188 | a filter every element passes keeps the whole list |
| Notifications.SliceTo | client/components/notifications/NotificationCenter.tsx:153 | `slice(0, end)` is a prefix of the list |
| Notifications.FilteredIsOneFilter | client/components/notifications/NotificationCenter.tsx:175-198 | the filtered list is the notifications passing both filters, in their order |
| Notifications.MarkAsReadEffect | client/components/notifications/NotificationCenter.tsx:161-165 | length, order and ids kept; every notification with that id read; nothing else changes |
| Notifications.MarkAsReadUnread | client/components/notifications/NotificationCenter.tsx:161-165 | afterwards the unread count is that of the list without that id |
| Notifications.MarkAllAsReadEffect | client/components/notifications/NotificationCenter.tsx:167-169 | every notification read, so the unread count is 0; nothing but the read flags changes |
| Notifications.RemoveEffect | client/components/notifications/NotificationCenter.tsx:171-173 | keeps exactly the notifications with another id, in order; marking read first makes no difference |
| Notifications.RemoveAfterMark | client/components/notifications/NotificationCenter.tsx:171-173 | removing an id after marking it read is removing it |
| Notifications.PollEffect | client/components/notifications/NotificationCenter.tsx:151-154 | the new notification goes first, followed by the first older ones in order; with a cap of at least 1 the list never exceeds it |
| Notifications.AddEffect | client/components/notifications/NotificationCenter.tsx:413-422 | the new notification goes first and every older one is kept in order; an unread one raises the unread count by one |
| Notifications.UnreadCountBounds | client/components/notifications/NotificationCenter.tsx:230 | the unread count is at most the length, and 0 exactly when all are read |
| Notifications.Badge | client/components/notifications/NotificationCenter.tsx:243-248 | no badge exactly when nothing is unread; "99+" above 99; else the count's digits |
| Notifications.AgeBuckets | client/components/notifications/NotificationCenter.tsx:215-228 | "Just now" exactly below a minute; then floored minutes below 60, hours below 24, days below 7, and the date from a week on |
| Notifications.NotificationCenter.constructor | client/components/notifications/NotificationCenter.tsx:34-42 | the list starts empty and both filters at "all" |
| Notifications.NotificationCenter.LoadNotifications | client/components/notifications/NotificationCenter.tsx:54-125 | the list becomes the loaded one |
| Notifications.NotificationCenter.PollNotifications | client/components/notifications/NotificationCenter.tsx:127-159 | when the draw fires the list becomes the polled one, capped; otherwise unchanged |
| Notifications.NotificationCenter.MarkAsRead | client/components/notifications/NotificationCenter.tsx:161-165 | the list becomes the marked one |
| Notifications.NotificationCenter.MarkAllAsRead | client/components/notifications/NotificationCenter.tsx:167-169 | all read and the unread count 0 |
| Notifications.NotificationCenter.RemoveNotification | client/components/notifications/NotificationCenter.tsx:171-173 | no notification with that id remains |
| Notifications.NotificationFeed.constructor | client/components/notifications/NotificationCenter.tsx:392 | the list starts empty |
| Notifications.NotificationFeed.AddNotification | client/components/notifications/NotificationCenter.tsx:413-422 | the notification, with a fresh id and timestamp, goes first |
| Notifications.NotificationFeed.RemoveNotification | client/components/notifications/NotificationCenter.tsx:424-426 | the notifications with that id are removed |
| Chat.Lower | client/components/chat/Assistant.tsx:13 | lower-casing keeps the length and maps each character |
| Chat.LowerIdempotent | client/components/chat/Assistant.tsx:13 | lower-casing twice is lower-casing once |
| Chat.FirstHitIsFirst | client/components/chat/Assistant.tsx:14 | the search answers with the first entry, in order, whose key occurs, and finds nothing exactly when none does |
| Chat.LocalAnswerSpec | client/components/chat/Assistant.tsx:12-17 | the fallback exactly when no FAQ key occurs in the lower-cased question, else the first key's answer; case does not matter |
| Chat.TrimStart | client/components/chat/Assistant.tsx:26 | a suffix that drops only leading white space (JavaScript's white space and line terminators) and does not start with white space |
| Chat.TrimEnd | client/components/chat/Assistant.tsx:26 | a prefix that drops only trailing white space and does not end with white space |
| Chat.TrimEnds | client/components/chat/Assistant.tsx:26 | the trimmed text has no white space at either end, and is empty exactly when the text is all white space |
| Chat.TrimIdempotent | client/components/chat/Assistant.tsx:27 | trimming twice is trimming once |
| Chat.Assistant.constructor | client/components/chat/Assistant.tsx:20-23 | the conversation and the input start empty |
| Chat.Assistant.Send | client/components/chat/Assistant.tsx:25-32 | an input blank after trimming changes nothing; otherwise the trimmed question and its local answer are appended and the input cleared |

## Left out

- Numbers are reals, not IEEE doubles. Overflow, rounding error and `Infinity` are not modelled. NaN is `None` in the figures listed above; the numeric arguments of the estimator and scorer helpers (areas, rainfall, SOC, tree cover) are reals, so a NaN argument to them is not modelled.
- A NaN in a stored record (the climate analysis of an empty or NaN history) is held as null in the model; the in-memory store keeps the NaN itself, and only the JSON answer shows it as null.
- `Values.Prefix`: strings are sequences of Unicode characters, not of UTF-16 code units, so `slice(0, n)` counts a character outside the Basic Multilingual Plane as one where JavaScript counts two; a cut through such a character, which leaves a lone surrogate in JavaScript, cannot be expressed.
- `LogFields.MonthKeyIsDatePrefix`: for the same reason the "YYYY-MM" bucket of a date text containing a character outside the Basic Multilingual Plane in its first seven characters differs from the source's (a date text starting with U+1F600 followed by "2024-01-15" buckets as that character and "2024-0", where the source gives that character and "2024-").
- `Values.ToNumber`: only the empty string and strings of decimal digits parse. Signs, decimals, exponents, hex and surrounding white space in numeric text are read as NaN.
- The text of a 500 answer taken from a thrown error's `message` (server/routes/weather.ts:102, server/routes/satellite.ts:95 and 145) is approximate. The engine names the whole failing callee, and the exact wording depends on how the code is compiled.
- The display rounding of `toFixed` and `Number(x.toFixed(n))` in the satellite summary, the weather analysis and the change area is not modelled. The values are kept unrounded.
- `Weather.BaseTemperatureDefaults`: for a crop named after an inherited property such as "constructor" or "toString", `baseTemps[cropType] || 10` (server/routes/weather.ts:341) reads a function from the object prototype, which makes the growing degree days NaN. The model gives the base 10 to every crop outside the table.
- `Weather.PlantingWindowChoice`: for such a crop, `windows[cropType] || windows["Rice"]` (server/routes/weather.ts:361) answers the inherited function. The model falls back to Rice's window.
- `Ledger.MonthlyBuckets`: for the month key "valueOf", the one seven-character inherited property name, `monthly[k] || 0` (server/routes/credits.ts:48) reads the inherited function, and the bucket becomes text. The model keeps a numeric sum for every month.
- `Reports.ByMonthDomain`: for the month key "valueOf", `byMonth[k] ||=` (server/routes/reports.ts:40) keeps the inherited function, so that month has no bucket in the answer. The model has one.
- `LogFields.MonthKeyIsDatePrefix`: `Values.TextOf` has no text for a number with a fraction or for a `Date` and uses the empty string instead. Such a date falls in the month "" rather than in the first seven characters of its text. JavaScript's number-to-text and date-to-text conversions are not modelled.
- `Ledger.CoeffSigns`: `coeffFor` of an inherited property name such as "toString" reads a function from the object prototype (NaN in arithmetic). The model gives 0 for every type outside the table.
- JWT signing and verification, bcrypt and SHA-256 are parameters, so token expiry and hash collisions are not modelled.
- The HTTP call from `requestPayout` to the anomaly-check route is the `scorerUp` flag. When it succeeds, the report is the scorer's answer for the caller's logs. Network errors and other status codes are not distinguished.
- Two concurrent payout requests can both pass against the same balance. The model is sequential, so this race is not captured.
- The MongoDB branch of `getDb` (server/db.ts:62-79) is not part of this model; only the in-memory store is.
- In `deleteLog` (server/routes/logs.ts:54-59), the `ObjectId` attempt never matches in the in-memory store, so only the fallback delete is modelled.
- `me` and `profileGet` in server/routes/auth.ts are not part of this model. They read a user by `ObjectId` and do not change state.
- server/routes/admin.ts, index.ts, assistant.ts, google.ts, support.ts and server/mailer.ts are not part of this model (routing, third-party calls and mail). The mailer's outcome in `start` is the `mailSent` flag.
- The random generators (`fetchHistoricalWeatherData`, `generateWeatherForecast`, `fetchSatelliteData`, `classifyLandCoverML`, `detectLandCoverChanges`, OTP codes, ids) are not modelled. Their outputs are parameters.
- The clock, `Date.now()`, `new Date()` and the current year are parameters. Dates are parsed by a given `parseDate` function. The anomaly scorer's cutoff is `now` minus 30 days of milliseconds, while `setDate(getDate() - 30)` (server/routes/ml.ts:493) steps back 30 local calendar days, which differs by an hour across a daylight-saving change.
- The satellite `detectAnomalies` (a square-root standard deviation) and the anomaly list of the vegetation analysis are not modelled. Neither are the simulated confidence and pixel counts of a change report.
- `ml.ts` routes `carbonEstimate`, `soilHealthPredict`, `enhancedCarbonEstimation`, `generateRecommendations`, `analyzeLandUse` and `generateSoilRecommendations` are not part of this model. Only the deterministic helpers named in the table are.
- Weather alert messages are not modelled. They contain the forecast figures as formatted text. The kind, the severity and the date of each alert are modelled.
- `Chat.Lower`: lower-casing covers ASCII letters only.
- `Notifications.AgeBuckets`: the date shown from a week on (`toLocaleDateString`) is a parameter.
- Notification metadata, icons, rendering, the auto-hide timer and the polling stub of `useNotifications` are not modelled.
- The estimator's timers (`setTimeout` resetting the counter) are not modelled. The counter keeps the value last set.
- `localStorage` is the queue's stored value. JSON parsing errors of a corrupted entry are not modelled.
- All rendering components, pages and 3D scenes are not part of this model.

## Findings

| source | as written | input that shows it | evidently intended | confidence | as-written member | corrected member |
|---|---|---|---|---|---|---|
| server/routes/otp.ts:32-47 | `verify` puts the request's `email` into both lookups unchecked, and the store's `match` (server/db.ts:13-14) reads an object carrying `$gt` as a comparison | POST verify with `{"email": {"$gt": ""}, "code": <a valid code sent to the caller's own email>}` while the administrator is the first stored user: the caller's record matches, is marked used, and the session carries the administrator's id and role | only a text email is looked up, and only by `===`, so a code signs in only the account of the email it was sent to | not executed | Otp.GtEmailSignsInAsFirstUser | Otp.TextQueriesSignInOwnAccount |

The route models (`Auth.Register`, `Auth.Login`, `Otp.Verify`) follow the code as written. The corrected lookups `Users.TextEmailQuery` and `Otp.TextOtpQuery` are defined beside them, and `Otp.TextQueriesSignInOwnAccount` proves the intended property about them. The same object email makes `register` answer 409 once any user has a non-empty email (`Users.GtEmailFindsAnyUser`), and makes `login` check the password of the first such user.
